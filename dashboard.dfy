/**
 * The dashboard's derived values over the activity snapshot it is given: the
 * search/category filter, the summary cards (total, count, weekly average),
 * the seven-day chart over the unfiltered snapshot, and the card and
 * empty-state display rules. Calendar days are integers.
 */
module Dashboard {
  import opened Text
  import opened Rounding

  /** An activity record as the backend returns it; `co2` is `co2_estimate` already numeric. */
  datatype Activity = Activity(id: int, category: string, details: string, co2: real, date: int)

  /** The filter predicate: case-insensitive substring match on details, and the category when one is chosen. */
  predicate Matches(a: Activity, search: string, categoryFilter: string) {
    Contains(ToLower(a.details), ToLower(search)) && (categoryFilter == "" || a.category == categoryFilter)
  }

  /** `xs` is `ys` with some elements left out, the rest in their original order. */
  predicate IsSubsequence(xs: seq<Activity>, ys: seq<Activity>)
    decreases |ys|
  {
    if xs == [] then true
    else if ys == [] then false
    else (xs[0] == ys[0] && IsSubsequence(xs[1..], ys[1..])) || IsSubsequence(xs, ys[1..])
  }

  /** `filtered`: the activities that match, in snapshot order. */
  function Filtered(acts: seq<Activity>, search: string, categoryFilter: string): (r: seq<Activity>)
    ensures |r| <= |acts|
    ensures IsSubsequence(r, acts)
    ensures forall a :: a in r ==> a in acts && Matches(a, search, categoryFilter)
  {
    if acts == [] then []
    else if Matches(acts[0], search, categoryFilter) then [acts[0]] + Filtered(acts[1..], search, categoryFilter)
    else Filtered(acts[1..], search, categoryFilter)
  }

  /** Exactly the matching activities survive, each as many times as it occurs. */
  lemma {:induction false} FilteredCounts(acts: seq<Activity>, search: string, categoryFilter: string, a: Activity)
    ensures multiset(Filtered(acts, search, categoryFilter))[a]
         == if Matches(a, search, categoryFilter) then multiset(acts)[a] else 0
  {
    if acts != [] {
      FilteredCounts(acts[1..], search, categoryFilter, a);
      assert acts == [acts[0]] + acts[1..];
    }
  }

  /** An activity survives the filter exactly when it is in the snapshot and matches. */
  lemma FilteredMembers(acts: seq<Activity>, search: string, categoryFilter: string, a: Activity)
    ensures a in Filtered(acts, search, categoryFilter) <==> a in acts && Matches(a, search, categoryFilter)
  {
    FilteredCounts(acts, search, categoryFilter, a);
  }

  /** With no search text and no category chosen, nothing is filtered out. */
  lemma {:induction false} FilteredNoFilter(acts: seq<Activity>)
    ensures Filtered(acts, "", "") == acts
  {
    if acts != [] {
      ContainsEmpty(ToLower(acts[0].details));
      FilteredNoFilter(acts[1..]);
    }
  }

  lemma {:induction false} FilteredConcat(xs: seq<Activity>, ys: seq<Activity>, search: string, categoryFilter: string)
    ensures Filtered(xs + ys, search, categoryFilter) == Filtered(xs, search, categoryFilter) + Filtered(ys, search, categoryFilter)
  {
    if xs == [] {
      assert xs + ys == ys;
    } else {
      assert (xs + ys)[0] == xs[0] && (xs + ys)[1..] == xs[1..] + ys;
      FilteredConcat(xs[1..], ys, search, categoryFilter);
    }
  }

  /** Filtering twice with the same settings is filtering once. */
  lemma {:induction false} FilteredIdempotent(acts: seq<Activity>, search: string, categoryFilter: string)
    ensures Filtered(Filtered(acts, search, categoryFilter), search, categoryFilter) == Filtered(acts, search, categoryFilter)
  {
    if acts != [] {
      FilteredIdempotent(acts[1..], search, categoryFilter);
    }
  }

  /** The empty state shows exactly when no activity of the snapshot matches. */
  lemma {:induction false} FilteredEmptyIff(acts: seq<Activity>, search: string, categoryFilter: string)
    ensures Filtered(acts, search, categoryFilter) == [] <==> forall a :: a in acts ==> !Matches(a, search, categoryFilter)
  {
    if acts != [] {
      FilteredEmptyIff(acts[1..], search, categoryFilter);
      assert forall a :: a in acts <==> a == acts[0] || a in acts[1..];
    }
  }

  /** The `reduce` over `co2_estimate`, before any rounding. */
  function Sum(acts: seq<Activity>): real {
    if acts == [] then 0.0 else acts[0].co2 + Sum(acts[1..])
  }

  lemma {:induction false} SumConcat(xs: seq<Activity>, ys: seq<Activity>)
    ensures Sum(xs + ys) == Sum(xs) + Sum(ys)
  {
    if xs == [] {
      assert xs + ys == ys;
    } else {
      assert (xs + ys)[0] == xs[0] && (xs + ys)[1..] == xs[1..] + ys;
      SumConcat(xs[1..], ys);
    }
  }

  /** The activities the filter rejects. */
  function Rejected(acts: seq<Activity>, search: string, categoryFilter: string): seq<Activity> {
    if acts == [] then []
    else if Matches(acts[0], search, categoryFilter) then Rejected(acts[1..], search, categoryFilter)
    else [acts[0]] + Rejected(acts[1..], search, categoryFilter)
  }

  /** The snapshot's sum splits into what the cards count and what the filter hides. */
  lemma {:induction false} SumSplits(acts: seq<Activity>, search: string, categoryFilter: string)
    ensures Sum(acts) == Sum(Filtered(acts, search, categoryFilter)) + Sum(Rejected(acts, search, categoryFilter))
  {
    if acts != [] {
      SumSplits(acts[1..], search, categoryFilter);
    }
  }

  /** "Activities Logged". */
  function Count(acts: seq<Activity>, search: string, categoryFilter: string): (n: nat)
    ensures n <= |acts|
    ensures n == 0 <==> forall a :: a in acts ==> !Matches(a, search, categoryFilter)
  {
    FilteredEmptyIff(acts, search, categoryFilter);
    |Filtered(acts, search, categoryFilter)|
  }

  /** "Total CO2": the filtered sum as `toFixed(1)` shows it. */
  function Total(acts: seq<Activity>, search: string, categoryFilter: string): real {
    RoundTenths(Sum(Filtered(acts, search, categoryFilter)))
  }

  /** "Daily Average": the same filtered sum over a fixed seven days, to one decimal. */
  function DailyAverage(acts: seq<Activity>, search: string, categoryFilter: string): real {
    RoundTenths(Sum(Filtered(acts, search, categoryFilter)) / 7.0)
  }

  /** Both summary figures are within half a tenth of the exact filtered sum and its seventh. */
  lemma TotalAndAverageBounds(acts: seq<Activity>, search: string, categoryFilter: string)
    ensures var s := Sum(Filtered(acts, search, categoryFilter));
      s - 0.05 <= Total(acts, search, categoryFilter) <= s + 0.05 &&
      s / 7.0 - 0.05 <= DailyAverage(acts, search, categoryFilter) <= s / 7.0 + 0.05
  {
    var s := Sum(Filtered(acts, search, categoryFilter));
    RoundTenthsBounds(s);
    RoundTenthsBounds(s / 7.0);
  }

  /** Two snapshots that differ only in the activities' dates. */
  predicate SameButDates(xs: seq<Activity>, ys: seq<Activity>) {
    |xs| == |ys| && forall i :: 0 <= i < |xs| ==> xs[i].(date := ys[i].date) == ys[i]
  }

  /**
   * Moving activities between days changes neither the count, the total nor the
   * average: the divisor is seven whatever dates occur.
   */
  lemma {:induction false} CardsIgnoreDates(xs: seq<Activity>, ys: seq<Activity>, search: string, categoryFilter: string)
    requires SameButDates(xs, ys)
    ensures Count(xs, search, categoryFilter) == Count(ys, search, categoryFilter)
    ensures Total(xs, search, categoryFilter) == Total(ys, search, categoryFilter)
    ensures DailyAverage(xs, search, categoryFilter) == DailyAverage(ys, search, categoryFilter)
  {
    FilteredIgnoresDates(xs, ys, search, categoryFilter);
  }

  lemma {:induction false} FilteredIgnoresDates(xs: seq<Activity>, ys: seq<Activity>, search: string, categoryFilter: string)
    requires SameButDates(xs, ys)
    ensures SameButDates(Filtered(xs, search, categoryFilter), Filtered(ys, search, categoryFilter))
    ensures Sum(Filtered(xs, search, categoryFilter)) == Sum(Filtered(ys, search, categoryFilter))
  {
    if xs != [] {
      assert xs[0].(date := ys[0].date) == ys[0];
      assert SameButDates(xs[1..], ys[1..]) by {
        forall i | 0 <= i < |xs[1..]| ensures xs[1..][i].(date := ys[1..][i].date) == ys[1..][i] {
          assert xs[1..][i] == xs[i + 1] && ys[1..][i] == ys[i + 1];
        }
      }
      FilteredIgnoresDates(xs[1..], ys[1..], search, categoryFilter);
      var fx, fy := Filtered(xs[1..], search, categoryFilter), Filtered(ys[1..], search, categoryFilter);
      if Matches(xs[0], search, categoryFilter) {
        assert Matches(ys[0], search, categoryFilter);
        var rx, ry := [xs[0]] + fx, [ys[0]] + fy;
        forall i | 0 <= i < |rx| ensures rx[i].(date := ry[i].date) == ry[i] {
          if i > 0 { assert rx[i] == fx[i - 1] && ry[i] == fy[i - 1]; }
        }
      } else {
        assert !Matches(ys[0], search, categoryFilter);
      }
    }
  }

  /** The activities dated `day`, as the chart's per-day `filter` picks them. */
  function OnDay(acts: seq<Activity>, day: int): (r: seq<Activity>)
    ensures |r| <= |acts|
    ensures forall a :: a in r ==> a in acts && a.date == day
  {
    if acts == [] then []
    else if acts[0].date == day then [acts[0]] + OnDay(acts[1..], day)
    else OnDay(acts[1..], day)
  }

  /** Every activity dated `day` is kept, as many times as it occurs; no other is. */
  lemma {:induction false} OnDayCounts(acts: seq<Activity>, day: int, a: Activity)
    ensures multiset(OnDay(acts, day))[a] == if a.date == day then multiset(acts)[a] else 0
  {
    if acts != [] {
      OnDayCounts(acts[1..], day, a);
      assert acts == [acts[0]] + acts[1..];
    }
  }

  /** An activity is in a day's bucket exactly when it is in the snapshot and dated that day. */
  lemma OnDayMembers(acts: seq<Activity>, day: int, a: Activity)
    ensures a in OnDay(acts, day) <==> a in acts && a.date == day
  {
    OnDayCounts(acts, day, a);
  }

  function DaySum(acts: seq<Activity>, day: int): real {
    Sum(OnDay(acts, day))
  }

  /** A day no activity falls on has an empty bar. */
  lemma {:induction false} DaySumEmptyDay(acts: seq<Activity>, day: int)
    requires forall a :: a in acts ==> a.date != day
    ensures DaySum(acts, day) == 0.0
  {
    if acts != [] {
      assert acts[0] in acts;
      assert forall a :: a in acts[1..] ==> a in acts;
      DaySumEmptyDay(acts[1..], day);
    }
  }

  /** One bar of the chart: its day and its value to one decimal. */
  datatype ChartPoint = ChartPoint(day: int, co2: real)

  /** `chartData`: seven bars, oldest first, ending today; each the day's total over the unfiltered snapshot. */
  function ChartData(acts: seq<Activity>, today: int): (r: seq<ChartPoint>)
    ensures |r| == 7
    ensures r[0].day == today - 6 && r[6].day == today
    ensures forall k :: 0 <= k < 6 ==> r[k + 1].day == r[k].day + 1
    ensures forall k :: 0 <= k < 7 ==> r[k].co2 == RoundTenths(DaySum(acts, r[k].day))
  {
    seq(7, k requires 0 <= k < 7 => ChartPoint(today - 6 + k, RoundTenths(DaySum(acts, today - 6 + k))))
  }

  /** The activities the chart can show: those dated within the seven days ending today. */
  function InWindow(acts: seq<Activity>, first: int, last: int): seq<Activity> {
    if acts == [] then []
    else if first <= acts[0].date <= last then [acts[0]] + InWindow(acts[1..], first, last)
    else InWindow(acts[1..], first, last)
  }

  /** The exact (unrounded) totals of `n` consecutive days starting at `first`. */
  function DaysTotal(acts: seq<Activity>, first: int, n: nat): real
    decreases n
  {
    if n == 0 then 0.0 else DaySum(acts, first) + DaysTotal(acts, first + 1, n - 1)
  }

  /** Together the bars account for every activity in the window exactly once. */
  lemma {:induction false} ChartAccountsForWindow(acts: seq<Activity>, today: int)
    ensures DaysTotal(acts, today - 6, 7) == Sum(InWindow(acts, today - 6, today))
  {
    DaysTotalWindow(acts, today - 6, 7);
  }

  lemma {:induction false} DaysTotalWindow(acts: seq<Activity>, first: int, n: nat)
    ensures DaysTotal(acts, first, n) == Sum(InWindow(acts, first, first + n - 1))
  {
    if acts != [] {
      DaysTotalWindow(acts[1..], first, n);
      DaysTotalCons(acts[0], acts[1..], first, n);
      assert acts == [acts[0]] + acts[1..];
    } else {
      DaysTotalNone(first, n);
    }
  }

  lemma {:induction false} DaysTotalNone(first: int, n: nat)
    ensures DaysTotal([], first, n) == 0.0
    decreases n
  {
    if n > 0 {
      DaysTotalNone(first + 1, n - 1);
    }
  }

  /** Adding one activity in front adds its value to exactly one of the days it falls on, if any. */
  lemma {:induction false} DaysTotalCons(a: Activity, rest: seq<Activity>, first: int, n: nat)
    ensures DaysTotal([a] + rest, first, n)
         == (if first <= a.date <= first + n - 1 then a.co2 else 0.0) + DaysTotal(rest, first, n)
    decreases n
  {
    if n > 0 {
      DaysTotalCons(a, rest, first + 1, n - 1);
      assert ([a] + rest)[1..] == rest;
      assert DaySum([a] + rest, first) == (if a.date == first then a.co2 else 0.0) + DaySum(rest, first);
    }
  }

  /** The card colour: the warning colour for an emission, the green one for zero or a saving. */
  datatype Tone = Warning | Saved

  /** An activity card's value line: sign, colour and the value to one decimal. */
  datatype CardValue = CardValue(sign: string, tone: Tone, shown: real)

  function Card(a: Activity): (v: CardValue)
    ensures v.sign == "+" <==> a.co2 > 0.0
    ensures v.sign == "" <==> a.co2 <= 0.0
    ensures v.tone == Warning <==> a.co2 > 0.0
    ensures v.shown == RoundTenths(a.co2)
  {
    if a.co2 > 0.0 then CardValue("+", Warning, RoundTenths(a.co2)) else CardValue("", Saved, RoundTenths(a.co2))
  }

  /** The list shows the empty-state prompt exactly when no activity survives the filter. */
  predicate ShowsEmptyState(acts: seq<Activity>, search: string, categoryFilter: string) {
    Filtered(acts, search, categoryFilter) == []
  }

  /** Everything the dashboard derives from a snapshot, the two filter inputs and today's day. */
  datatype View = View(total: real, count: nat, dailyAverage: real, chart: seq<ChartPoint>,
                       cards: seq<CardValue>, emptyState: bool)

  function Render(acts: seq<Activity>, search: string, categoryFilter: string, today: int): (v: View)
    ensures v.count == |v.cards| <= |acts|
    ensures v.emptyState <==> v.count == 0
    ensures |v.chart| == 7
  {
    var shown := Filtered(acts, search, categoryFilter);
    View(Total(acts, search, categoryFilter), Count(acts, search, categoryFilter),
         DailyAverage(acts, search, categoryFilter), ChartData(acts, today),
         seq(|shown|, i requires 0 <= i < |shown| => Card(shown[i])),
         ShowsEmptyState(acts, search, categoryFilter))
  }

  /** The search box and the category select change the cards and the list but never the chart. */
  lemma ChartIgnoresFilters(acts: seq<Activity>, s1: string, c1: string, s2: string, c2: string, today: int)
    ensures Render(acts, s1, c1, today).chart == Render(acts, s2, c2, today).chart
    ensures Render(acts, s1, c1, today).chart == ChartData(acts, today)
  {
  }

  /** An empty snapshot (what the page falls back to when the fetch fails) shows zeros and the prompt. */
  lemma {:induction false} EmptySnapshot(search: string, categoryFilter: string, today: int)
    ensures var v := Render([], search, categoryFilter, today);
      v.count == 0 && v.total == 0.0 && v.dailyAverage == 0.0 && v.emptyState &&
      forall k :: 0 <= k < 7 ==> v.chart[k].co2 == 0.0
  {
    RoundTenthsExact(0.0, 0);
    RoundTenthsExact(0.0 / 7.0, 0);
    forall k | 0 <= k < 7 ensures ChartData([], today)[k].co2 == 0.0 {
      DaySumEmptyDay([], today - 6 + k);
    }
  }

  /** Food 3.8 kg and Transport 4.2 kg on one day, filtered to Food: one activity and 3.8 kg. */
  lemma FoodFilterExample(day: int)
    ensures var acts := [Activity(1, "Food", "Beef", 3.8, day), Activity(2, "Transport", "Car", 4.2, day)];
      Count(acts, "", "Food") == 1 && Total(acts, "", "Food") == 3.8
  {
    var food, car := Activity(1, "Food", "Beef", 3.8, day), Activity(2, "Transport", "Car", 4.2, day);
    var acts := [food, car];
    ContainsEmpty(ToLower(food.details));
    assert Matches(food, "", "Food") && !Matches(car, "", "Food");
    assert acts[1..] == [car] && [car][1..] == [];
    assert Filtered([car], "", "Food") == [];
    assert Filtered(acts, "", "Food") == [food];
    assert Sum([food]) == 3.8 by { assert [food][1..] == []; }
    RoundTenthsExact(3.8, 38);
  }

  /** The same two activities both count towards that day's bar, whatever the filter. */
  lemma FoodFilterChartExample(day: int)
    ensures ChartData([Activity(1, "Food", "Beef", 3.8, day), Activity(2, "Transport", "Car", 4.2, day)], day)[6].co2 == 8.0
  {
    var food, car := Activity(1, "Food", "Beef", 3.8, day), Activity(2, "Transport", "Car", 4.2, day);
    var acts := [food, car];
    assert acts[1..] == [car] && [car][1..] == [];
    assert OnDay([car], day) == [car];
    assert OnDay(acts, day) == acts;
    assert Sum([car]) == 4.2;
    assert Sum(acts) == 8.0;
    RoundTenthsExact(8.0, 80);
  }

  /** A recycling entry of -1.5 kg is shown without a sign, in the green colour. */
  lemma RecycledCardExample(day: int)
    ensures Card(Activity(7, "Waste", "Recycled (3 servings/items)", -1.5, day)) == CardValue("", Saved, -1.5)
  {
    RoundTenthsExact(-1.5, -15);
  }
}
