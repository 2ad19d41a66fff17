/**
 * The state of the log-activity form and the handlers that change it: the
 * category select with its reset of the later fields, the activity select and
 * quantity input that refresh the live preview, the date input, and the submit
 * handler with its in-flight flag.
 */
module LogPage {
  import opened Wrappers
  import opened Rounding
  import opened Emission

  /** The "Estimated impact" panel: its sign, whether it uses the warning colour, and the kg shown. */
  datatype PreviewPanel = PreviewPanel(sign: string, warning: bool, kg: real)

  class LogForm {
    var category: Option<Category>
    var activityType: string
    var quantity: Quantity
    var date: int
    var co2Preview: Option<real>
    var loading: bool
    var showSuccessModal: bool

    /** The activity and quantity fields are only offered once a category is chosen. */
    ghost predicate Revealed()
      reads this
    {
      category.None? ==> activityType == "" && quantity.text == ""
    }

    /** The preview on screen is the calculator's value for the fields on screen. */
    ghost predicate PreviewCurrent()
      reads this
    {
      co2Preview == Estimate(category, activityType, quantity)
    }

    ghost predicate Valid()
      reads this
    {
      Revealed() && PreviewCurrent()
    }

    /** The submit button reads "Saving..." while a save is in flight. */
    function SubmitLabel(): (caption: string)
      reads this
      ensures caption == "Saving..." <==> loading
      ensures caption == "Log Activity" <==> !loading
    {
      if loading then "Saving..." else "Log Activity"
    }

    /**
     * The submit button is disabled while a save is in flight; a disabled
     * default button lets neither a click nor the Enter key submit the form.
     */
    function SubmitDisabled(): (disabled: bool)
      reads this
      ensures disabled <==> SubmitLabel() == "Saving..."
      ensures !disabled <==> SubmitLabel() == "Log Activity"
    {
      loading
    }

    /** The panel appears only while there is a preview; an emission gets a "+" and the warning colour. */
    function Panel(): (p: Option<PreviewPanel>)
      reads this
      ensures p.None? <==> co2Preview.None?
      ensures p.Some? ==> p.value.kg == co2Preview.value
      ensures p.Some? ==> (p.value.sign == "+" <==> co2Preview.value > 0.0)
      ensures p.Some? ==> (p.value.sign == "" <==> co2Preview.value <= 0.0)
      ensures p.Some? ==> (p.value.warning <==> co2Preview.value > 0.0)
    {
      match co2Preview
      case None => None
      case Some(v) => if v > 0.0 then Some(PreviewPanel("+", true, v)) else Some(PreviewPanel("", false, v))
    }

    /** A fresh form: nothing chosen, today's date, no preview, not saving. */
    constructor (today: int)
      ensures Valid()
      ensures category == None && activityType == "" && quantity == NoQuantity && date == today
      ensures co2Preview == None && !loading && !showSuccessModal
    {
      category, activityType, quantity, date := None, "", NoQuantity, today;
      co2Preview := Estimate(None, "", NoQuantity);
      loading, showSuccessModal := false, false;
    }

    /** Choosing a category clears the activity type, the quantity and the preview, and nothing else. */
    method SelectCategory(c: Option<Category>)
      modifies this
      ensures category == c && activityType == "" && quantity == NoQuantity && co2Preview == None
      ensures date == old(date) && loading == old(loading) && showSuccessModal == old(showSuccessModal)
      ensures Valid()
    {
      category, activityType, quantity, co2Preview := c, "", NoQuantity, None;
    }

    /** Choosing an activity type refreshes the preview from the new choice. */
    method SelectActivityType(t: string)
      requires Valid() && category.Some?
      modifies this
      ensures Valid()
      ensures activityType == t && co2Preview == Estimate(category, t, quantity)
      ensures category == old(category) && quantity == old(quantity) && date == old(date)
      ensures loading == old(loading) && showSuccessModal == old(showSuccessModal)
    {
      activityType := t;
      co2Preview := Estimate(category, activityType, quantity);
    }

    /** Typing a quantity refreshes the preview from the new quantity. */
    method SetQuantity(q: Quantity)
      requires Valid() && activityType != ""
      modifies this
      ensures Valid()
      ensures quantity == q && co2Preview == Estimate(category, activityType, q)
      ensures category == old(category) && activityType == old(activityType) && date == old(date)
      ensures loading == old(loading) && showSuccessModal == old(showSuccessModal)
    {
      quantity := q;
      co2Preview := Estimate(category, activityType, quantity);
    }

    /**
     * The activity handler as the page has it: the preview is computed from the
     * fields as they were before this change.
     */
    method SelectActivityTypeStale(t: string)
      requires Revealed() && category.Some?
      modifies this
      ensures Revealed()
      ensures activityType == t && co2Preview == Estimate(old(category), old(activityType), old(quantity))
      ensures category == old(category) && quantity == old(quantity) && date == old(date)
      ensures loading == old(loading) && showSuccessModal == old(showSuccessModal)
    {
      co2Preview := Estimate(category, activityType, quantity);
      activityType := t;
    }

    /** The quantity handler as the page has it, likewise one change behind. */
    method SetQuantityStale(q: Quantity)
      requires Revealed() && activityType != ""
      modifies this
      ensures Revealed()
      ensures quantity == q && co2Preview == Estimate(old(category), old(activityType), old(quantity))
      ensures category == old(category) && activityType == old(activityType) && date == old(date)
      ensures loading == old(loading) && showSuccessModal == old(showSuccessModal)
    {
      co2Preview := Estimate(category, activityType, quantity);
      quantity := q;
    }

    method SetDate(d: int)
      modifies this
      ensures date == d
      ensures category == old(category) && activityType == old(activityType) && quantity == old(quantity)
      ensures co2Preview == old(co2Preview) && loading == old(loading) && showSuccessModal == old(showSuccessModal)
    {
      date := d;
    }

    /**
     * A submit of the form and the synchronous part of `handleSubmit`. While the
     * button is disabled no submit event fires, so a second request cannot start
     * while one is in flight. Otherwise, unless every field is set and a preview
     * exists nothing happens; if they are, the saving flag goes up and the
     * request is built from the fields as they are.
     */
    method BeginSubmit() returns (req: Option<ActivityRequest>)
      modifies this
      ensures req == if old(SubmitDisabled()) then None else SubmitRequest(category, activityType, quantity, co2Preview, date)
      ensures old(loading) ==> req.None? && loading
      ensures !old(loading) ==> (loading <==> req.Some?)
      ensures category == old(category) && activityType == old(activityType) && quantity == old(quantity)
      ensures date == old(date) && co2Preview == old(co2Preview) && showSuccessModal == old(showSuccessModal)
      ensures Valid() && req.Some? ==>
        req.value.co2Estimate == RoundHundredths(Emitted(FactorOf(req.value.category, activityType).value, quantity.amount))
    {
      if SubmitDisabled() {
        return None;
      }
      req := SubmitRequest(category, activityType, quantity, co2Preview, date);
      if req.Some? {
        loading := true;
        if Valid() {
          SubmittedEstimateIsPriced(category, activityType, quantity, date);
        }
      }
    }

    /** The `finally` of `handleSubmit`: the success overlay opens on success, and saving ends either way. */
    method FinishSubmit(succeeded: bool)
      requires loading
      modifies this
      ensures !loading && showSuccessModal == (old(showSuccessModal) || succeeded)
      ensures category == old(category) && activityType == old(activityType) && quantity == old(quantity)
      ensures date == old(date) && co2Preview == old(co2Preview)
    {
      if succeeded {
        showSuccessModal := true;
      }
      loading := false;
    }

    /**
     * The whole of `handleSubmit`, the outcome of the post given as `succeeded`.
     * Nothing happens while the button is disabled. A failed save leaves every
     * entered value in place for a retry.
     */
    method Submit(succeeded: bool) returns (req: Option<ActivityRequest>)
      modifies this
      ensures req == if old(SubmitDisabled()) then None
                     else SubmitRequest(old(category), old(activityType), old(quantity), old(co2Preview), old(date))
      ensures req.None? ==> loading == old(loading) && showSuccessModal == old(showSuccessModal)
      ensures req.Some? ==> !loading && showSuccessModal == (old(showSuccessModal) || succeeded)
      ensures category == old(category) && activityType == old(activityType) && quantity == old(quantity)
      ensures date == old(date) && co2Preview == old(co2Preview)
    {
      req := BeginSubmit();
      if req.Some? {
        FinishSubmit(succeeded);
      }
    }
  }

  /**
   * Transport, "car", then "2" and "20" typed into the quantity: with the
   * handlers as written the preview shows, and the submit sends, the value for
   * 2 km while the details say 20 km.
   */
  method StalePreviewScenario() returns (shown: Option<real>, current: Option<real>, sent: Option<ActivityRequest>)
    ensures shown == Some(0.42) && current == Some(4.2)
    ensures sent == Some(ActivityRequest(Transport, "Car (20 km)", 0.42, 0))
  {
    var form := new LogForm(0);
    form.SelectCategory(Some(Transport));
    form.SelectActivityTypeStale("car");
    form.SetQuantityStale(Quantity("2", 2.0));
    form.SetQuantityStale(Quantity("20", 20.0));
    EstimateExampleTwoKm();
    EstimateExampleCar();
    DetailsExample();
    shown := form.co2Preview;
    current := Estimate(form.category, form.activityType, form.quantity);
    sent := form.Submit(true);
  }

  /** The same inputs with the handlers refreshing from the new values: preview and request agree with the details. */
  method PreviewScenario() returns (shown: Option<real>, sent: Option<ActivityRequest>)
    ensures shown == Some(4.2)
    ensures sent == Some(ActivityRequest(Transport, "Car (20 km)", 4.2, 0))
  {
    var form := new LogForm(0);
    form.SelectCategory(Some(Transport));
    form.SelectActivityType("car");
    form.SetQuantity(Quantity("2", 2.0));
    form.SetQuantity(Quantity("20", 20.0));
    EstimateExampleCar();
    DetailsExample();
    shown := form.co2Preview;
    sent := form.Submit(true);
  }

  /**
   * Transport, "car", "20", then the form submitted twice before the first save
   * ends: the first submit posts, the second is blocked by the disabled button,
   * and once the save ends the form can be submitted again.
   */
  method DoubleSubmitScenario() returns (first: Option<ActivityRequest>, second: Option<ActivityRequest>, retry: Option<ActivityRequest>)
    ensures first == Some(ActivityRequest(Transport, "Car (20 km)", 4.2, 0))
    ensures second == None
    ensures retry == first
  {
    var form := new LogForm(0);
    form.SelectCategory(Some(Transport));
    form.SelectActivityType("car");
    form.SetQuantity(Quantity("20", 20.0));
    EstimateExampleCar();
    DetailsExample();
    first := form.BeginSubmit();
    second := form.BeginSubmit();
    form.FinishSubmit(false);
    retry := form.BeginSubmit();
  }

  lemma EstimateExampleTwoKm()
    ensures Estimate(Some(Transport), "car", Quantity("2", 2.0)) == Some(0.42)
  {
    assert FactorEntry("car", 0.21) == Factors(Transport)[0];
    EstimateOwnKey(Transport, FactorEntry("car", 0.21), Quantity("2", 2.0));
    RoundHundredthsExact(Emitted(0.21, 2.0), 42);
  }
}
