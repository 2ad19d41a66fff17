/**
 * The pure half of the log-activity page: the emission-factor table, the
 * calculator behind the live preview, the unit and option helpers, and the
 * request that a submit would send.
 */
module Emission {
  import opened Wrappers
  import opened Text
  import opened Rounding

  /** The four values the category select offers; the empty choice is `None`. */
  datatype Category = Transport | Food | Energy | Waste

  /** One key of a category's factor table: kg of CO2 per unit of quantity. */
  datatype FactorEntry = FactorEntry(activity: string, factor: real)

  /** `EMISSION_FACTORS[category]`, its keys in declaration order. */
  function Factors(c: Category): seq<FactorEntry> {
    match c
    case Transport => [FactorEntry("car", 0.21), FactorEntry("bus", 0.08), FactorEntry("train", 0.04),
                       FactorEntry("bike", 0.0), FactorEntry("walk", 0.0)]
    case Food => [FactorEntry("beef", 7.0), FactorEntry("chicken", 2.5), FactorEntry("fish", 2.0),
                  FactorEntry("vegetarian", 1.2), FactorEntry("vegan", 0.8)]
    case Energy => [FactorEntry("electricity", 0.4), FactorEntry("heating", 0.2)]
    case Waste => [FactorEntry("recycled", -0.5), FactorEntry("landfill", 0.6)]
  }

  /** `Object.keys` of a factor table. */
  function Keys(t: seq<FactorEntry>): (r: seq<string>)
    ensures |r| == |t|
    ensures forall i :: 0 <= i < |t| ==> r[i] == t[i].activity
  {
    if t == [] then [] else [t[0].activity] + Keys(t[1..])
  }

  /** Property access on a factor table: the factor stored under `key`, or `undefined`. */
  function Lookup(t: seq<FactorEntry>, key: string): Option<real> {
    if t == [] then None
    else if t[0].activity == key then Some(t[0].factor)
    else Lookup(t[1..], key)
  }

  /** A key is found exactly when it is one of the table's keys, and what is found is stored under it. */
  lemma {:induction false} LookupFound(t: seq<FactorEntry>, key: string)
    ensures Lookup(t, key).Some? <==> key in Keys(t)
    ensures Lookup(t, key).Some? ==> FactorEntry(key, Lookup(t, key).value) in t
  {
    if t != [] {
      LookupFound(t[1..], key);
      assert Keys(t) == [t[0].activity] + Keys(t[1..]);
    }
  }

  /** The factor the calculator uses: looked up by the lower-cased activity type. */
  function FactorOf(c: Category, activityType: string): Option<real> {
    Lookup(Factors(c), ToLower(activityType))
  }

  /** Every table's keys are distinct, so a key names one factor. */
  lemma KeysDistinct(c: Category)
    ensures forall i, j :: 0 <= i < j < |Factors(c)| ==> Factors(c)[i].activity != Factors(c)[j].activity
  {
  }

  /** Every key is already lower case, so each option is found under its own name. */
  lemma KeysLowerCase(c: Category)
    ensures forall e :: e in Factors(c) ==> IsLowerCase(e.activity)
  {
    match c
    case Transport => TransportKeysLowerCase();
    case Food => FoodKeysLowerCase();
    case Energy => assert IsLowerCase("electricity") && IsLowerCase("heating");
    case Waste => assert IsLowerCase("recycled") && IsLowerCase("landfill");
  }

  lemma TransportKeysLowerCase()
    ensures forall e :: e in Factors(Transport) ==> IsLowerCase(e.activity)
  {
    assert IsLowerCase("car") && IsLowerCase("bus") && IsLowerCase("train") && IsLowerCase("bike") && IsLowerCase("walk");
  }

  lemma FoodKeysLowerCase()
    ensures forall e :: e in Factors(Food) ==> IsLowerCase(e.activity)
  {
    assert IsLowerCase("beef") && IsLowerCase("chicken") && IsLowerCase("fish");
    assert IsLowerCase("vegetarian") && IsLowerCase("vegan");
  }

  /** Recycling is the only activity whose factor is negative. */
  lemma OnlyRecyclingIsNegative(c: Category, e: FactorEntry)
    requires e in Factors(c)
    ensures e.factor < 0.0 <==> (c == Waste && e.activity == "recycled")
  {
  }

  /**
   * kg of CO2 for `amount` units of an activity whose factor is `factor`: nothing
   * for no units, and for a positive amount the factor's sign.
   */
  function Emitted(factor: real, amount: real): (kg: real)
    ensures amount == 0.0 ==> kg == 0.0
    ensures amount > 0.0 ==> (kg < 0.0 <==> factor < 0.0) && (kg > 0.0 <==> factor > 0.0)
  {
    factor * amount
  }

  /** What the quantity input holds: its text, and `Number(text)`. */
  datatype Quantity = Quantity(text: string, amount: real)

  const NoQuantity := Quantity("", 0.0)

  /**
   * `calculateCO2`: no preview until category, activity type and quantity are
   * all set, none for a pair missing from the table, and otherwise the factor
   * times the quantity rounded to two decimals.
   */
  function Estimate(category: Option<Category>, activityType: string, quantity: Quantity): Option<real> {
    if category.None? || activityType == "" || quantity.text == "" then None
    else match FactorOf(category.value, activityType)
      case None => None
      case Some(f) => Some(RoundHundredths(Emitted(f, quantity.amount)))
  }

  lemma EstimateIncomplete(category: Option<Category>, activityType: string, quantity: Quantity)
    requires category.None? || activityType == "" || quantity.text == ""
    ensures Estimate(category, activityType, quantity) == None
  {
  }

  /** A pair that is not in the table gives no preview, whatever the quantity. */
  lemma EstimateUnlisted(c: Category, activityType: string, q: Quantity, q': Quantity)
    requires FactorOf(c, activityType).None?
    ensures Estimate(Some(c), activityType, q) == None
    ensures Estimate(Some(c), activityType, q) == Estimate(Some(c), activityType, q')
  {
  }

  /** The lookup ignores letter case. */
  lemma EstimateCaseInsensitive(category: Option<Category>, activityType: string, quantity: Quantity)
    ensures Estimate(category, activityType, quantity) == Estimate(category, ToLower(activityType), quantity)
  {
    ToLowerOfLower(ToLower(activityType));
    assert activityType == "" <==> ToLower(activityType) == "";
    if category.Some? && activityType != "" && quantity.text != "" {
      var c := category.value;
      assert FactorOf(c, ToLower(activityType)) == FactorOf(c, activityType);
      match FactorOf(c, activityType)
      case None =>
      case Some(f) =>
        EstimateOfFactor(c, activityType, quantity, f);
        EstimateOfFactor(c, ToLower(activityType), quantity, f);
    }
  }

  /** Once the factor is known, the preview is that factor times the quantity, rounded to two decimals. */
  lemma EstimateOfFactor(c: Category, activityType: string, q: Quantity, f: real)
    requires activityType != "" && q.text != "" && FactorOf(c, activityType) == Some(f)
    ensures Estimate(Some(c), activityType, q) == Some(RoundHundredths(Emitted(f, q.amount)))
  {
    assert Estimate(Some(c), activityType, q).value == RoundHundredths(Emitted(f, q.amount));
  }

  /** A listed key is found under any spelling whose lower case is that key. */
  lemma FactorOfListed(c: Category, e: FactorEntry, activityType: string)
    requires e in Factors(c) && ToLower(activityType) == e.activity
    ensures FactorOf(c, activityType) == Some(e.factor)
    ensures activityType != ""
  {
    KeysDistinct(c);
    LookupUnique(Factors(c), e);
    KeysNonEmpty(c);
    assert |activityType| == |e.activity| > 0;
  }

  /** For a listed pair the preview is the factor times the quantity, rounded to two decimals. */
  lemma EstimateListed(c: Category, e: FactorEntry, activityType: string, q: Quantity)
    requires e in Factors(c) && ToLower(activityType) == e.activity && q.text != ""
    ensures Estimate(Some(c), activityType, q) == Some(RoundHundredths(Emitted(e.factor, q.amount)))
  {
    FactorOfListed(c, e, activityType);
    EstimateOfFactor(c, activityType, q, e.factor);
  }

  /** A preview is within half a hundredth of factor times quantity, and keeps its sign. */
  lemma EstimateNearProduct(category: Option<Category>, activityType: string, q: Quantity)
    requires Estimate(category, activityType, q).Some?
    ensures FactorOf(category.value, activityType).Some?
    ensures var x := Emitted(FactorOf(category.value, activityType).value, q.amount);
      x - 0.005 <= Estimate(category, activityType, q).value <= x + 0.005 &&
      (x >= 0.0 ==> Estimate(category, activityType, q).value >= 0.0) &&
      (x <= 0.0 ==> Estimate(category, activityType, q).value <= 0.0)
  {
    RoundHundredthsBounds(Emitted(FactorOf(category.value, activityType).value, q.amount));
  }

  lemma KeysNonEmpty(c: Category)
    ensures forall e :: e in Factors(c) ==> e.activity != ""
  {
  }

  lemma {:induction false} LookupUnique(t: seq<FactorEntry>, e: FactorEntry)
    requires e in t
    requires forall i, j :: 0 <= i < j < |t| ==> t[i].activity != t[j].activity
    ensures Lookup(t, e.activity) == Some(e.factor)
  {
    if t[0] != e {
      assert t[0].activity != e.activity by {
        var j :| 0 <= j < |t| && t[j] == e;
        assert j > 0;
      }
      LookupUnique(t[1..], e);
    }
  }

  /** For a non-negative quantity, a negative preview can only come from recycling. */
  lemma NegativeEstimateIsRecycling(c: Category, activityType: string, q: Quantity)
    requires q.amount >= 0.0
    requires Estimate(Some(c), activityType, q).Some? && Estimate(Some(c), activityType, q).value < 0.0
    ensures c == Waste && ToLower(activityType) == "recycled"
  {
    var f := FactorOf(c, activityType).value;
    EstimateNearProduct(Some(c), activityType, q);
    NegativeFactor(f, q.amount);
    LookupFound(Factors(c), ToLower(activityType));
    OnlyRecyclingIsNegative(c, FactorEntry(ToLower(activityType), f));
  }

  lemma NegativeFactor(f: real, amount: real)
    requires amount >= 0.0 && Emitted(f, amount) < 0.0
    ensures f < 0.0
  {
  }

  /** Each option, spelled as offered, is priced at its own factor. */
  lemma EstimateOwnKey(c: Category, e: FactorEntry, q: Quantity)
    requires e in Factors(c) && q.text != ""
    ensures Estimate(Some(c), e.activity, q) == Some(RoundHundredths(Emitted(e.factor, q.amount)))
  {
    KeysLowerCase(c);
    ToLowerOfLower(e.activity);
    EstimateListed(c, e, e.activity, q);
  }

  lemma EstimateExampleCar()
    ensures Estimate(Some(Transport), "car", Quantity("20", 20.0)) == Some(4.2)
  {
    assert FactorEntry("car", 0.21) == Factors(Transport)[0];
    EstimateOwnKey(Transport, FactorEntry("car", 0.21), Quantity("20", 20.0));
    RoundHundredthsExact(Emitted(0.21, 20.0), 420);
  }

  lemma EstimateExampleRecycled()
    ensures Estimate(Some(Waste), "recycled", Quantity("3", 3.0)) == Some(-1.5)
  {
    assert FactorEntry("recycled", -0.5) == Factors(Waste)[0];
    EstimateOwnKey(Waste, FactorEntry("recycled", -0.5), Quantity("3", 3.0));
    RoundHundredthsExact(Emitted(-0.5, 3.0), -150);
  }

  lemma EstimateExamplesCaseAndMiss()
    ensures Estimate(Some(Food), "Beef", Quantity("2", 2.0)) == Some(14.0)
    ensures Estimate(Some(Energy), "car", Quantity("20", 20.0)) == None
  {
    assert ToLower("Beef") == "beef";
    assert FactorOf(Food, "Beef") == Some(7.0);
    RoundHundredthsExact(Emitted(7.0, 2.0), 1400);
    assert IsLowerCase("car");
    ToLowerOfLower("car");
    assert FactorOf(Energy, "car") == None;
  }

  /** `getUnit`: the label shown by the quantity field and written into `details`. */
  function Unit(category: Option<Category>): (r: string)
    ensures category == Some(Transport) <==> r == "km"
    ensures category == Some(Energy) <==> r == "hours/kWh"
    ensures category != Some(Transport) && category != Some(Energy) <==> r == "servings/items"
  {
    if category == Some(Transport) then "km"
    else if category == Some(Energy) then "hours/kWh"
    else "servings/items"
  }

  /** `getOptions`: nothing before a category is chosen, then exactly that category's keys, in order. */
  function Options(category: Option<Category>): (r: seq<string>)
    ensures category.None? ==> r == []
    ensures category.Some? ==> |r| == |Factors(category.value)|
    ensures category.Some? ==> forall i :: 0 <= i < |r| ==> r[i] == Factors(category.value)[i].activity
  {
    if category.None? then [] else Keys(Factors(category.value))
  }

  /** Any option offered for a category has a factor, so it yields a preview once a quantity is entered. */
  lemma {:induction false} OptionsArePriced(c: Category, t: string, q: Quantity)
    requires t in Options(Some(c)) && q.text != ""
    ensures Estimate(Some(c), t, q).Some?
    ensures FactorOf(c, t).Some?
  {
    var i :| 0 <= i < |Options(Some(c))| && Options(Some(c))[i] == t;
    var e := Factors(c)[i];
    assert e in Factors(c) && e.activity == t;
    KeysLowerCase(c);
    ToLowerOfLower(t);
    FactorOfListed(c, e, t);
    EstimateOfFactor(c, t, q, e.factor);
  }

  /** The record a submit posts: `{ category, details, co2_estimate, date }`. */
  datatype ActivityRequest = ActivityRequest(category: Category, details: string, co2Estimate: real, date: int)

  /** The `details` text: capitalised activity type, then the quantity as typed and its unit in brackets. */
  function Details(activityType: string, quantity: Quantity, category: Option<Category>): (r: string)
    ensures |r| == |activityType| + |quantity.text| + |Unit(category)| + 4
    ensures r[..|activityType|] == Capitalize(activityType)
    ensures r[|activityType|..|activityType| + 2] == " ("
    ensures r[|activityType| + 2..|activityType| + 2 + |quantity.text|] == quantity.text
    ensures r[|activityType| + 2 + |quantity.text|..|r| - 1] == " " + Unit(category)
    ensures r[|r| - 1] == ')'
  {
    var tail := " " + Unit(category) + ")";
    ConcatPieces(Capitalize(activityType), " (", quantity.text, tail);
    assert tail[..|tail| - 1] == " " + Unit(category);
    Capitalize(activityType) + " (" + quantity.text + tail
  }

  lemma DetailsExample()
    ensures Details("car", Quantity("20", 20.0), Some(Transport)) == "Car (20 km)"
  {
    assert Capitalize("car") == "Car";
    assert Unit(Some(Transport)) == "km";
  }

  /** The guard of `handleSubmit` and the request it builds. */
  predicate ReadyToSubmit(category: Option<Category>, activityType: string, quantity: Quantity, preview: Option<real>) {
    category.Some? && activityType != "" && quantity.text != "" && preview.Some?
  }

  function SubmitRequest(category: Option<Category>, activityType: string, quantity: Quantity,
                         preview: Option<real>, date: int): (r: Option<ActivityRequest>)
    ensures r.Some? <==> ReadyToSubmit(category, activityType, quantity, preview)
    ensures r.Some? ==> r.value.category == category.value && r.value.co2Estimate == preview.value && r.value.date == date
    ensures r.Some? ==> r.value.details == Details(activityType, quantity, category)
  {
    if !ReadyToSubmit(category, activityType, quantity, preview) then None
    else Some(ActivityRequest(category.value, Details(activityType, quantity, category), preview.value, date))
  }

  /**
   * When the preview is the calculator's value for the fields, a submit sends
   * exactly the rounded factor-times-quantity for the pair it describes.
   */
  lemma SubmittedEstimateIsPriced(category: Option<Category>, activityType: string, quantity: Quantity, date: int)
    requires SubmitRequest(category, activityType, quantity, Estimate(category, activityType, quantity), date).Some?
    ensures FactorOf(category.value, activityType).Some?
    ensures SubmitRequest(category, activityType, quantity, Estimate(category, activityType, quantity), date).value.co2Estimate
         == RoundHundredths(Emitted(FactorOf(category.value, activityType).value, quantity.amount))
  {
    var preview := Estimate(category, activityType, quantity);
    assert preview.Some?;
    match FactorOf(category.value, activityType)
    case None =>
    case Some(f) => EstimateOfFactor(category.value, activityType, quantity, f);
  }

  /** A preview exists exactly when a submit would go through. */
  lemma SubmitIffPreview(category: Option<Category>, activityType: string, quantity: Quantity, date: int)
    ensures SubmitRequest(category, activityType, quantity, Estimate(category, activityType, quantity), date).Some?
        <==> Estimate(category, activityType, quantity).Some?
  {
  }

  lemma SubmitExample()
    ensures SubmitRequest(Some(Transport), "car", Quantity("20", 20.0), Some(4.2), 17)
         == Some(ActivityRequest(Transport, "Car (20 km)", 4.2, 17))
  {
    DetailsExample();
  }
}
