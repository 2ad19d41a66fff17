# EcoLog: emission estimator, log form and dashboard

EcoLog is a small carbon-footprint tracker built with Next.js. This project
models its two client components.

The **log-activity page** (`app/log/page.tsx`) has three parts:

- a fixed table of emission factors (kg CO2 per unit), one table per category;
- a calculator for the live preview: it looks up the factor for the
  lower-cased activity type, multiplies it by the quantity and rounds to two
  decimals;
- form state changed by event handlers. Choosing a category resets the later
  fields. The submit handler checks its guard, builds the `details` text,
  raises a saving flag and clears it in `finally`.

The **dashboard** (`app/components/DashboardClient.tsx`) derives everything it
shows from a snapshot of activities:

- a search and category filter;
- three summary cards: total, count, and an average over a fixed seven days;
- a seven-day bar chart over the unfiltered snapshot;
- the sign and colour of each activity card, and the empty-state prompt.

Modules:

- `Wrappers`: `Option`.
- `Text`: ASCII lower and upper case, capitalising the first letter, and
  substring search.
- `Rounding`: `toFixed(1)` and `toFixed(2)` on exact reals. The magnitude goes
  to the nearest tenth or hundredth, a tie goes away from zero, and the sign
  is kept.
- `Emission`: the pure part of the log page.
  - the factor table;
  - `Estimate`, which is `calculateCO2` as a function of its inputs;
  - `Unit`, `Options`, `Details`;
  - the submit guard and the request it posts.
- `LogPage`: class `LogForm`. Its fields are the page's seven state variables.
  Each handler is a method.
- `Dashboard`: the recursive filter, the sums, the chart buckets, the cards
  and the whole rendered view.

A quantity is modelled as `Quantity(text, amount)`:

- `text` is the string in the input. The guard and `details` use it.
- `amount` stands for `Number(text)` and is supplied with it.

Calendar days are integers, so the chart covers `today - 6 .. today`.
CO2 values are reals.

`toFixed` rounds the magnitude, so a tie rounds away from zero: a negative
tie goes down, not up. The model rounds the same way.

The page is meant to recompute the preview on every change to the activity
type or the quantity. The code does not do this; see Findings.

## Model

| member | source | states |
|---|---|---|
| Text.ToLower | app/log/page.tsx:34 | same length; each character is lower-cased (ASCII); the result has no upper-case letter |
| Text.ToLowerOfLower | app/components/DashboardClient.tsx:24 | lower-casing a lower-case string changes nothing |
| Text.Capitalize | app/log/page.tsx:51 | same length; first character upper-cased, the rest kept |
| Text.Contains | app/components/DashboardClient.tsx:24 | `includes`: some window of `hay` equals `needle`; defined by recursion, characterised by `Text.ContainsIff` |
| Text.ContainsIff | app/components/DashboardClient.tsx:24 | `includes` holds iff the needle occurs at some index of the haystack |
| Text.ContainsEmpty | app/components/DashboardClient.tsx:24 | every string includes the empty search text |
| Rounding.RoundHundredths | app/log/page.tsx:40 | `Number(x.toFixed(2))`: nearest hundredth, ties away from zero; its properties are the two lemmas below |
| Rounding.RoundTenths | app/components/DashboardClient.tsx:31 | the number `toFixed(1)` denotes: nearest tenth, ties away from zero. Line 47 reads it back with `Number`; lines 31, 75 and 146 show the string. Its properties are the lemmas below |
| Rounding.RoundHundredthsBounds | app/log/page.tsx:40 | `toFixed(2)` is within 0.005 of its argument and never flips its sign |
| Rounding.RoundTenthsBounds | app/components/DashboardClient.tsx:31 | `toFixed(1)` is within 0.05 of its argument and never flips its sign |
| Rounding.RoundHundredthsExact | app/log/page.tsx:40 | a value with at most two decimals is unchanged by `toFixed(2)` |
| Rounding.RoundTenthsExact | app/components/DashboardClient.tsx:47 | a value with at most one decimal is unchanged by `toFixed(1)` |
| Rounding.RoundNegate | app/components/DashboardClient.tsx:146 | rounding commutes with negation: ties go away from zero on both sides |
| Emission.Factors | app/log/page.tsx:8-13 | `EMISSION_FACTORS`, one table per category, keys in declaration order; its properties are the Keys lemmas below |
| Emission.Keys | app/log/page.tsx:77 | `Object.keys`: one key per entry, in table order |
| Emission.Lookup | app/log/page.tsx:34 | property access on a table: the factor under a key, or none; characterised by `Emission.LookupFound` |
| Emission.FactorOf | app/log/page.tsx:34 | the factor for the lower-cased activity type in the category's table |
| Emission.Emitted | app/log/page.tsx:39 | `factor * Number(quantity)`: zero for no units; for a positive amount, negative iff the factor is and positive iff the factor is |
| Emission.Estimate | app/log/page.tsx:29-41 | `calculateCO2` as a function of its inputs; its behaviour is stated by the Estimate lemmas below |
| Emission.LookupFound | app/log/page.tsx:34-35 | a key is found iff it is one of the table's keys, and its entry holds the factor found |
| Emission.KeysDistinct | app/log/page.tsx:8-13 | no table repeats a key |
| Emission.KeysLowerCase | app/log/page.tsx:8-13 | every key is lower case |
| Emission.KeysNonEmpty | app/log/page.tsx:8-13 | no key is the empty string |
| Emission.OnlyRecyclingIsNegative | app/log/page.tsx:8-13 | an entry's factor is negative iff it is Waste/recycled |
| Emission.LookupUnique | app/log/page.tsx:34 | in a table with distinct keys, each entry's key finds exactly that entry's factor |
| Emission.EstimateIncomplete | app/log/page.tsx:30-33 | no preview while category, activity type or quantity is empty |
| Emission.EstimateUnlisted | app/log/page.tsx:34-38 | a pair missing from the table gives no preview, for every quantity |
| Emission.EstimateCaseInsensitive | app/log/page.tsx:34 | the preview for an activity type equals the preview for its lower-cased form |
| Emission.EstimateOfFactor | app/log/page.tsx:39-40 | once the factor is found, the preview is factor times quantity rounded to two decimals |
| Emission.FactorOfListed | app/log/page.tsx:34 | any spelling whose lower case is a listed key finds that key's factor |
| Emission.EstimateListed | app/log/page.tsx:34-40 | for such a spelling and a non-empty quantity, the preview is that factor times the quantity, rounded |
| Emission.EstimateOwnKey | app/log/page.tsx:34-40 | each key, typed as listed, is priced at its own factor |
| Emission.EstimateNearProduct | app/log/page.tsx:39-40 | a preview is within 0.005 of factor times quantity and has the product's sign |
| Emission.NegativeEstimateIsRecycling | app/log/page.tsx:8-13 | with a non-negative quantity, only Waste/recycled yields a negative preview |
| Emission.EstimateExampleCar | app/log/page.tsx:39-40 | Transport, car, 20 gives 4.2 |
| Emission.EstimateExampleRecycled | app/log/page.tsx:39-40 | Waste, recycled, 3 gives -1.5 |
| Emission.EstimateExamplesCaseAndMiss | app/log/page.tsx:34-38 | Food, Beef, 2 gives 14.0; Energy, car gives no preview |
| Emission.Unit | app/log/page.tsx:69-73 | Transport iff "km"; Energy iff "hours/kWh"; anything else, no category included, iff "servings/items" |
| Emission.Options | app/log/page.tsx:75-78 | no category gives no options; otherwise the category's keys, in table order |
| Emission.OptionsArePriced | app/log/page.tsx:75-78 | every offered option has a factor and yields a preview once a quantity is typed |
| Emission.Details | app/log/page.tsx:51 | the capitalised activity type, then " (", the quantity text, a space and the unit, and finally ")"; nothing else |
| Emission.DetailsExample | app/log/page.tsx:51 | car with 20 under Transport gives "Car (20 km)" |
| Emission.ReadyToSubmit | app/log/page.tsx:47 | the submit guard: category, activity type and quantity set, and a preview present |
| Emission.SubmitRequest | app/log/page.tsx:47-58 | a request exists iff category, activity type and quantity are set and there is a preview; it carries the category, the details, the preview as `co2_estimate` and the date |
| Emission.SubmittedEstimateIsPriced | app/log/page.tsx:39-56 | when the preview is current, the posted estimate is the rounded factor times quantity of the pair it describes |
| Emission.SubmitIffPreview | app/log/page.tsx:47 | with a current preview, a submit goes through iff there is a preview |
| Emission.SubmitExample | app/log/page.tsx:51-58 | Transport, car, "20", 4.2 posts ("Transport", "Car (20 km)", 4.2, date) |
| LogPage.LogForm.constructor | app/log/page.tsx:21-27 | a fresh form has nothing chosen, today's date, no preview, and is neither saving nor showing the overlay |
| LogPage.LogForm.SubmitLabel | app/log/page.tsx:139 | the button reads "Saving..." iff a save is in flight, "Log Activity" otherwise |
| LogPage.LogForm.SubmitDisabled | app/log/page.tsx:138 | `disabled={loading}`: the button is disabled exactly while it reads "Saving..." |
| LogPage.LogForm.Panel | app/log/page.tsx:128-133 | the impact panel shows iff there is a preview, with the preview's value; "+" and the warning colour iff it is positive |
| LogPage.LogForm.SelectCategory | app/log/page.tsx:97 | sets the category; clears activity type, quantity and preview; keeps date, saving flag and overlay |
| LogPage.LogForm.SelectActivityType | app/log/page.tsx:109 | intended: sets the activity type; the preview becomes the calculator's value for the new fields; keeps the rest |
| LogPage.LogForm.SetQuantity | app/log/page.tsx:119 | intended: sets the quantity; the preview becomes the calculator's value for the new fields; keeps the rest |
| LogPage.LogForm.SelectActivityTypeStale | app/log/page.tsx:109 | as written: sets the activity type, but the preview is the value for the fields before the change |
| LogPage.LogForm.SetQuantityStale | app/log/page.tsx:119 | as written: sets the quantity, but the preview is the value for the fields before the change |
| LogPage.LogForm.SetDate | app/log/page.tsx:125 | sets the date and nothing else |
| LogPage.LogForm.BeginSubmit | app/log/page.tsx:45-58 | while the button is disabled (line 138) no request and no change, so at most one request is in flight; otherwise returns the guarded request built from the current fields and raises the saving flag iff it goes through; changes no field; with a current preview, posts the rounded factor times quantity |
| LogPage.LogForm.FinishSubmit | app/log/page.tsx:60-66 | success opens the overlay; the saving flag drops on success and failure alike; the fields are kept |
| LogPage.LogForm.Submit | app/log/page.tsx:45-67 | nothing while the button is disabled; a refused submit changes nothing; otherwise saving ends, the overlay opens iff the post succeeded, and every field is kept for a retry |
| LogPage.DoubleSubmitScenario | app/log/page.tsx:138 | Transport, car, "20" submitted twice while saving: the first posts 4.2 with "Car (20 km)", the second posts nothing, and after the save ends the form posts again |
| LogPage.StalePreviewScenario | app/log/page.tsx:109-119 | with the handlers as written, Transport, car, "2", "20" shows 0.42 while the calculator gives 4.2, and posts 0.42 with "Car (20 km)" |
| LogPage.PreviewScenario | app/log/page.tsx:109-119 | with refreshing handlers the same steps show 4.2 and post 4.2 with "Car (20 km)" |
| LogPage.EstimateExampleTwoKm | app/log/page.tsx:39-40 | Transport, car, 2 gives 0.42 |
| Dashboard.Matches | app/components/DashboardClient.tsx:24-26 | the filter predicate: lower-cased details include the lower-cased search, and the category equals the chosen one when one is chosen |
| Dashboard.Filtered | app/components/DashboardClient.tsx:23-27 | no longer than the snapshot, an order-preserving subsequence of it, and every member matches |
| Dashboard.FilteredCounts | app/components/DashboardClient.tsx:23-27 | each matching activity survives as often as it occurs; a non-matching one never does |
| Dashboard.FilteredMembers | app/components/DashboardClient.tsx:23-27 | an activity is shown iff it is in the snapshot and matches the search and the category |
| Dashboard.FilteredNoFilter | app/components/DashboardClient.tsx:24-25 | empty search and no category choice give the whole snapshot |
| Dashboard.FilteredConcat | app/components/DashboardClient.tsx:23 | filtering distributes over concatenation |
| Dashboard.FilteredIdempotent | app/components/DashboardClient.tsx:23-27 | filtering the filtered list again changes nothing |
| Dashboard.FilteredEmptyIff | app/components/DashboardClient.tsx:124 | the filtered list is empty iff no activity of the snapshot matches |
| Dashboard.Sum | app/components/DashboardClient.tsx:29-30 | the `reduce` over `co2_estimate`, starting at 0; properties in `SumConcat` and `SumSplits` |
| Dashboard.Total | app/components/DashboardClient.tsx:29-31 | `totalCO2`: the filtered sum to one decimal; see `TotalAndAverageBounds` |
| Dashboard.DailyAverage | app/components/DashboardClient.tsx:75 | the daily average: the filtered sum over a fixed 7, to one decimal; see `TotalAndAverageBounds` and `CardsIgnoreDates` |
| Dashboard.SumConcat | app/components/DashboardClient.tsx:30 | the sum over a concatenation is the sum of the sums |
| Dashboard.SumSplits | app/components/DashboardClient.tsx:29-30 | the snapshot's sum is the filtered sum plus the sum of what the filter hides |
| Dashboard.Count | app/components/DashboardClient.tsx:70 | at most the snapshot's size; zero iff nothing matches |
| Dashboard.TotalAndAverageBounds | app/components/DashboardClient.tsx:29-31 | the total is within 0.05 of the filtered sum; the average is within 0.05 of that sum over 7 |
| Dashboard.CardsIgnoreDates | app/components/DashboardClient.tsx:75 | moving activities to other days changes neither count, total nor average; the divisor stays 7 |
| Dashboard.FilteredIgnoresDates | app/components/DashboardClient.tsx:23-30 | the filter and the filtered sum do not depend on the dates |
| Dashboard.OnDay | app/components/DashboardClient.tsx:41-42 | the activities of the unfiltered snapshot dated that day: no more than the snapshot, each from it and dated that day |
| Dashboard.OnDayCounts | app/components/DashboardClient.tsx:41-42 | each activity dated that day is kept as many times as it occurs in the snapshot; no other activity is kept |
| Dashboard.OnDayMembers | app/components/DashboardClient.tsx:41-42 | an activity is in a day's bucket iff it is in the snapshot and dated that day |
| Dashboard.DaySum | app/components/DashboardClient.tsx:41-43 | a bar's unrounded value: the sum over that day's activities; see `DaysTotalCons` |
| Dashboard.DaySumEmptyDay | app/components/DashboardClient.tsx:41-43 | a day with no activity has a zero bar |
| Dashboard.ChartData | app/components/DashboardClient.tsx:33-50 | seven bars for consecutive days, oldest first, from today-6 to today; each bar is that day's unfiltered sum to one decimal |
| Dashboard.ChartAccountsForWindow | app/components/DashboardClient.tsx:39-48 | the unrounded bar values add up to the sum over the snapshot's activities dated in the window |
| Dashboard.DaysTotalWindow | app/components/DashboardClient.tsx:39-43 | the day totals of n consecutive days add up to the sum over the activities dated in those days |
| Dashboard.DaysTotalCons | app/components/DashboardClient.tsx:41-43 | one more activity adds its value to the one day it falls on, if that day is in the range |
| Dashboard.Card | app/components/DashboardClient.tsx:145-146 | "+" iff the value is positive, no sign otherwise; warning colour iff positive; the value to one decimal |
| Dashboard.ShowsEmptyState | app/components/DashboardClient.tsx:124 | the empty-state prompt shows when the filtered list is empty; see `FilteredEmptyIff` |
| Dashboard.Render | app/components/DashboardClient.tsx:54-154 | the count equals the number of cards, at most the snapshot's size; empty state iff the count is zero; seven bars |
| Dashboard.ChartIgnoresFilters | app/components/DashboardClient.tsx:39-43 | search and category choice never change the chart |
| Dashboard.EmptySnapshot | app/components/DashboardClient.tsx:124-130 | an empty snapshot shows zero total, zero average, count zero, the empty-state prompt and seven zero bars |
| Dashboard.FoodFilterExample | app/components/DashboardClient.tsx:23-31 | Food 3.8 and Transport 4.2, filtered to Food, give one activity and a total of 3.8 |
| Dashboard.FoodFilterChartExample | app/components/DashboardClient.tsx:39-48 | the same two activities on one day give that day an 8.0 bar whatever the filter |
| Dashboard.RecycledCardExample | app/components/DashboardClient.tsx:145-146 | a -1.5 recycling entry shows no sign, in the green colour, as -1.5 |

## Left out

- Network I/O is not modelled.
  - The `axios.post` call (app/log/page.tsx:53-58) is replaced by its outcome, the `succeeded` input of `Submit` and `FinishSubmit`.
  - The page's `fetch`, with its fallback to an empty list, is not modelled. `Dashboard.EmptySnapshot` describes the fallback state.
- Navigation, the modal's markup and `closeModal`, `alert`, `console.error`, and all JSX and styling. Only the flags and the displayed values are modelled.
- recharts rendering and date-fns formatting. The chart's weekday label is not modelled; a bar carries its day number instead.
- The wall clock and time zones (`new Date()`, DST). Today's day is an input.
- IEEE-754 doubles: the product, the sums, and `toFixed`'s decimal conversion are exact reals here.
- `Number(quantity)` parsing. The numeric amount is supplied with the quantity's text.
- The `number | string` type of `co2_estimate` and the `|| 0` coercion. Values are numeric reals.
- Case mapping beyond ASCII. `toLowerCase` and `toUpperCase` change only 'A'-'Z' and 'a'-'z' here.
- Property lookup through the prototype chain (an activity type such as "constructor"). The lookup sees only the table's own keys.
- `created_at` and the `id` key of the card list. Neither affects any value shown.
- The option labels at app/log/page.tsx:111. They are `Capitalize` applied to each option and are display only.
- React's scheduling of state updates and re-renders is not modelled beyond its one visible effect. That effect is the stale read in the activity and quantity handlers, modelled by `SelectActivityTypeStale` and `SetQuantityStale`. Every handler otherwise updates the form in one step.
- The `useState(() => calculateCO2())` call at app/log/page.tsx:43. It runs on a fresh form, where the calculator gives no preview, so it is folded into the constructor.
- LogPage.LogForm.FinishSubmit: requires a save in flight. The page only reaches `finally` after its own guard passed.
- LogPage.LogForm.SelectActivityType: requires a chosen category. The page shows the activity select only then.
- LogPage.LogForm.SetQuantity: requires an activity type. The page shows the quantity input only then.
- Dashboard.Card: the card's value is shown as a `toFixed(1)` string (app/components/DashboardClient.tsx:146). `toFixed` writes the sign before it rounds the magnitude, so a negative value that rounds to zero shows as "-0.0". The model's real value is 0.0 and cannot tell the two apart.
- Dashboard.Total: the total card shows `toFixed(1)` of the sum (app/components/DashboardClient.tsx:31), so a small negative sum shows as "-0.0", which the model's real 0.0 cannot express.
- Dashboard.DailyAverage: the average card shows `(sum / 7).toFixed(1)` (app/components/DashboardClient.tsx:75), with the same "-0.0" for a small negative sum. The chart bar (line 47) goes back through `Number`, so it has no such case.
- LogPage.LogForm.Submit (and BeginSubmit, Emission.SubmitRequest): browser form validation is not modelled. The form has no `noValidate`. The `required` attributes (app/log/page.tsx:97, 109, 119, 125) and the quantity input's `min="0" step="0.1"` (line 119) stop the browser from firing `submit` for:
  - an empty field, date included;
  - a negative quantity, such as "-5";
  - a quantity off the 0.1 step, such as "2.55".

  The model checks only `handleSubmit`'s own guard (line 47), so it posts requests for those inputs that the page would never send.

## Findings

| source | as written | input that shows it | evidently intended | confidence | as-written member | corrected member |
|---|---|---|---|---|---|---|
| app/log/page.tsx:109-119 | the activity and quantity handlers call `calculateCO2` right after `setActivityType` / `setQuantity`, so the calculator reads the values from before the change and the preview lags one edit behind | Transport, car, then type "2" and "20": the preview shows 0.42 and the submit posts 0.42 with details "Car (20 km)" | the preview, and the estimate posted, is the value for the fields on screen: 4.2 | high; not executed | LogPage.StalePreviewScenario | LogPage.PreviewScenario |
