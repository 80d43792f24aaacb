# Automation feasibility calculator, modelled in Dafny

The automation feasibility calculator takes a list of recurring business tasks and an hourly
rate. Each task has a name, the system it runs in, minutes per occurrence and
a frequency. The calculator reports:

- the annual hours spent on the tasks;
- the savings, which are the hours times the rate;
- a feasibility score from 0 to 100;
- a primary goal: time and cost saving, client experience, or scalability;
- a recommended kind of solution: simple automation, custom development, a
  hybrid, or a process review.

The score and the two labels come mostly from the keyword tables matched
against the lower-cased name and system. The score also gains 10 for a task
of more than 30 minutes, and the goal's time-saving counter counts the tasks
of more than 10 hours a year.

The project models this in two forms. The current page (app/page.tsx) keeps
the task list as state and computes the results in `calculateResults`. The
earlier DOM script (_legacy/script.js) reads the rows and the rate from the
page's inputs and runs the same loop.

- `Text`: ASCII `toLowerCase`, `includes` as substring occurrence, and
  `keywords.some(k => text.includes(k))`.
- `Types`: `Task`, `Results` and the frequency values.
- `Calculator`: the whole calculation as one pure specification.
  - `Contribution` is what a task adds to the eight accumulators.
  - `Sum` folds the contributions in list order, as the `forEach` does.
  - `Report` computes the final metrics and the two label cascades.
  - `Calculate` is `Report` of `Sum`.
- `CalculatorProperties`: lemmas about that specification. It includes
  reference sums written independently of `Sum` and proofs that `Sum`
  agrees with them.
- `Page`: the page's `calculateResults` as imperative methods proved to
  compute `Calculate`, and the page's three list edits as functions.
- `Legacy`: the DOM script's `calculateResults` over the values its inputs
  hold, including the `parseFloat(...) || 0` coercion. It is proved to
  compute `Calculate` and to agree with the page. Its per-row body calls
  the page's `TaskFeasibilityScore`, and its final step calls the page's
  `Summarize`. So the two files agree on the scores and both label cascades
  by construction. That is sound because the two source texts are the same
  there: _legacy/script.js:69-150 and app/page.tsx:53-128 match line for
  line once comments are removed. The frequency `switch` is modelled
  separately for each file, since the legacy one reads the raw `<select>`
  text.
- `Scenarios`: worked examples on concrete text, including "custom
  dashboard", which is a custom build but no hard-to-automate system.

`Page.CalculateResults` is split into helpers:

- `Accumulate` runs the `forEach` loop, with `VisitTask` as its body;
- `Summarize` computes the final metrics;
- `ChoosePrimaryGoal` and `ChooseSolution` are the two if/else chains.

Each helper's postcondition ties it to the matching part of the
specification. Hours, savings and the mean score are Dafny `real`s; the
per-task feasibility score and its running total are `int`s, as the clamped
integer arithmetic of the source gives; the task count and the five profile
counters are `nat`s.

## Model

| member | source | states |
|---|---|---|
| Page.CalculateResults | app/page.tsx:34-137 | The object passed to `setResults` is exactly `Calculate(tasks, hourlyRate)`. |
| Page.Accumulate | app/page.tsx:35-108 | Starting from zero, the eight accumulators after the `forEach` equal `Sum(tasks)`; the loop invariant is that they equal the sum over the tasks visited so far. |
| Page.VisitTask | app/page.tsx:46-107 | One callback raises the eight accumulators by exactly `Contribution(task)`, which is zero for a task whose time is not positive. |
| Page.TaskAnnualHours | app/page.tsx:56-72 | The `switch` and product give `time / 60` times 260, 52, 12, 4 or 0, never negative for a non-negative time. |
| Page.TaskFeasibilityScore | app/page.tsx:75-86 | The score added is `TaskFeasibility(system, time)` and lies in [0, 100]. |
| Page.Summarize | app/page.tsx:110-136 | Savings are hours times rate; the mean is `total / count`, or 0 when nothing was counted; both labels follow the cascades. |
| Page.ChoosePrimaryGoal | app/page.tsx:114-119 | The reassigning if/else chain yields the label of `PrimaryGoal`. |
| Page.ChooseSolution | app/page.tsx:121-128 | The reassigning if/else chain yields the label of `RecommendedSolution`. |
| Calculator.Calculate | app/page.tsx:34-137 | Definition: `Report` of `Sum`. What it computes is proved by `HoursAndSavings`, `FeasibilityIsMean`, `OrderIndependent`, `EmptyList` and the cascade contracts, and `Page.CalculateResults` and `Legacy.CalculateResults` are proved to compute it. |
| Calculator.Sum | app/page.tsx:46-108 | Definition: the contributions folded in list order. `SumMatchesReference` ties it to independent front-to-back sums, `SumBounds` bounds it, `SumAppend` and `SumPermutation` show it splits over concatenation and ignores order; `Page.Accumulate` is proved to compute it. |
| Calculator.Contribution | app/page.tsx:47-107 | Definition: what one callback adds. `ContributionBounds` states that only a counted task adds anything, once, with a score in [30, 100]; `Page.VisitTask` is proved to add exactly it. |
| Calculator.Report | app/page.tsx:110-136 | Definition: the final metrics and labels from the accumulators. `HoursAndSavings` and `FeasibilityIsMean` state the metrics and `PrimaryGoal` and `RecommendedSolution` the labels; `Page.Summarize` is proved to compute it. |
| Calculator.Average | app/page.tsx:111 | Definition: the mean, 0 for no counted task. `FeasibilityIsMean` proves it lies in [0, 100] over any list. |
| Calculator.AnnualHours | app/page.tsx:72 | Definition: `time / 60` times the multiplier. `Page.TaskAnnualHours` and `Legacy.TaskAnnualHoursOf` are proved to compute it, and `ContributionBounds` that it is never negative for a counted task. |
| Calculator.RawFeasibility | app/page.tsx:76-85 | Definition: base 50 with the three adjustments. `ClampNeverBinds` proves it always lies in [30, 100]. |
| Calculator.Multiplier | app/page.tsx:57-71 | The multiplier is never negative, and positive exactly for the four known frequencies. |
| Calculator.Clamp | app/page.tsx:86 | `Math.max(0, Math.min(100, x))` lies in [0, 100], is `x` inside that range, 0 below it and 100 above it. |
| Calculator.TaskFeasibility | app/page.tsx:76-86 | The clamped per-task score lies in [0, 100]. |
| Calculator.PrimaryGoal | app/page.tsx:114-119 | Client experience exactly when it beats time saving and is at least scalability; scalability exactly when it beats both; otherwise time and cost saving. |
| Calculator.RecommendedSolution | app/page.tsx:121-128 | Custom exactly when custom beats simple; hybrid exactly when `0 < custom <= simple`; consultation exactly when some task counted, both solution counters are 0 and a goal counter is positive; simple automation otherwise. |
| Types.ParseFrequency | types/index.ts:6 | A string reads as daily, weekly, monthly or quarterly exactly when it is that word; any other string is `Other`. |
| CalculatorProperties.ContributionBounds | app/page.tsx:53-107 | A task counts once exactly when its time is positive and otherwise adds nothing; its hours are never negative; a counted task's score lies in [30, 100]; each signal is raised at most once. |
| CalculatorProperties.UncountedTaskIgnored | app/page.tsx:47-53 | A task whose time is zero or negative can be dropped from anywhere in the list without changing any of the five results. |
| CalculatorProperties.SumBounds | app/page.tsx:53-106 | Over a whole list: counted tasks are at most the list length; hours are never negative; summed feasibility is between 30 and 100 per counted task; every profile counter is at most the counted tasks. |
| CalculatorProperties.SumMatchesReference | app/page.tsx:53-92 | Accumulated hours, count, time-saving counter and feasibility total equal independent sums from the front of the list; the time-saving counter counts exactly the counted tasks of more than 10 hours a year. |
| CalculatorProperties.CountedTasksBounded | app/page.tsx:53-54 | The number of counted tasks is at most the list length, with equality exactly when every task has a positive time. |
| CalculatorProperties.HoursAndSavings | app/page.tsx:72-110 | Reported hours are the sum of `time / 60 * multiplier` over counted tasks and never negative; savings are hours times the rate, never negative for a non-negative rate. |
| CalculatorProperties.FeasibilityIsMean | app/page.tsx:76-111 | The score is 0 with no counted task, and otherwise the mean of the per-task scores; it always lies in [0, 100], and in [30, 100] when some task counts. |
| CalculatorProperties.ClampNeverBinds | app/page.tsx:76-86 | The unclamped score always lies in [30, 100], so the clamp never changes it. |
| CalculatorProperties.EmptyList | app/page.tsx:110-128 | With no tasks every number is 0 and both labels are the defaults. |
| CalculatorProperties.SumPermutation | app/page.tsx:46-108 | Any reordering of the tasks gives the same eight accumulators. |
| CalculatorProperties.OrderIndependent | app/page.tsx:34-137 | Any reordering of the tasks gives the same five results. |
| CalculatorProperties.SumIgnoresIds | app/page.tsx:46-107 | Lists that agree on everything but the ids give the same accumulators. |
| CalculatorProperties.ConsultationCountGuardImplied | app/page.tsx:126 | Over any list, the `taskCount > 0` conjunct of the consultation rule is implied by the others. |
| CalculatorProperties.SimpleToolIsSimpleSolution | app/page.tsx:77-103 | A counted task whose system earns the simple-tool bonus also raises the simple-solution counter. |
| CalculatorProperties.CaseInsensitive | app/page.tsx:49-51 | Lower-casing a task's name and system first changes nothing it contributes. |
| CalculatorProperties.NameOnlyAffectsDescriptionSignals | app/page.tsx:76-104 | Changing a task's name leaves its hours, score, count, time-saving signal and simple-solution signal alone, since those read only the system, time and frequency. |
| CalculatorProperties.GoalTieBreaks | app/page.tsx:115-117 | Client experience wins a tie with scalability once it beats time saving; a goal counter that only ties time saving never selects its goal, whatever the third counter; a three-way tie keeps the default. |
| CalculatorProperties.LabelsDistinct | app/page.tsx:114-128 | Distinct goals and distinct recommendations show distinct texts. |
| Page.AddNewTask | app/page.tsx:17-22 | The old rows are kept unchanged and in place, followed by one row with the new id, an empty name and system, 10 minutes and weekly. |
| Page.AddKeepsIdsUnique | app/page.tsx:17-22 | Adding a row with an unused id keeps the ids unique and adds exactly that id. |
| Page.AddNewTaskEffect | app/page.tsx:17-22 | The new row adds 26/3 hours a year, a score of 50, one counted task and no profile signal. |
| Page.RemoveTask | app/page.tsx:24-26 | The result is never longer than the list. |
| Page.RemoveKeepsOthers | app/page.tsx:24-26 | A row is in the result exactly when it was in the list and its id differs from the one removed. |
| Page.RemoveDistributes | app/page.tsx:24-26 | Removing from a concatenation removes from each part and keeps them in order. |
| Page.RemoveAbsent | app/page.tsx:24-26 | Removing an id not in use changes nothing. |
| Page.RemovePresent | app/page.tsx:24-26 | With unique ids, removing an id in use drops exactly one row. |
| Page.Apply | app/page.tsx:30 | `{ ...task, [field]: value }` sets the named field and keeps every other field. |
| Page.UpdateTask | app/page.tsx:28-32 | Length and order are kept; each row with the id gets the edit and every other row is unchanged. |
| Page.UpdateKeepsIds | app/page.tsx:28-32 | An edit of any field but the id keeps every id in place, so unique ids stay unique. |
| Page.UpdateAbsent | app/page.tsx:28-32 | Updating an id not in use changes nothing. |
| Page.IdEditKeepsResults | app/page.tsx:28-32 | Editing only ids changes none of the five results. |
| Page.ZeroTimeIsRemoval | app/page.tsx:24-32 | Setting a row's time to zero or less gives the same accumulators as removing the row. |
| Legacy.CalculateResults | _legacy/script.js:44-155 | The five values passed to `displayResults` are `Calculate` of the rows' tasks at the coerced rate. |
| Legacy.Accumulate | _legacy/script.js:45-129 | The eight accumulators after the `forEach` over the rows equal `Sum` of the rows' tasks. |
| Legacy.VisitRow | _legacy/script.js:60-128 | One callback raises the accumulators by the contribution of the row's task. |
| Legacy.TaskAnnualHoursOf | _legacy/script.js:73-89 | The `switch` on the raw `<select>` text gives `time / 60` times 260, 52, 12 or 4 for the four words, 0 for any other text, and agrees with `ParseFrequency`. |
| Legacy.OrZero | _legacy/script.js:58-62 | The `parseFloat` result with its fallback to 0 is 0 for `NaN` and the parsed number otherwise. |
| Legacy.RowTask | _legacy/script.js:62-66 | Definition: a row's name, system, minutes after the `parseFloat` fallback to 0, and its parsed frequency. `UnparsableTimeExcluded` shows an unparsable time gives a task that contributes nothing; `LegacyAgreesWithPage` relates it to the page's tasks. |
| Legacy.RowTasks | _legacy/script.js:57-67 | The rows become tasks one for one and in document order. |
| Legacy.LegacyAgreesWithPage | _legacy/script.js:44-155 | Rows matching the page's tasks, at the same rate, give the same five results as the current page. |
| Legacy.UnparsableTimeExcluded | _legacy/script.js:62-69 | A row whose minutes do not parse contributes nothing. |
| Legacy.UnparsableRowIgnored | _legacy/script.js:62-69 | Inserting such a row anywhere changes none of the five results. |
| Legacy.UnparsableRateNoSavings | _legacy/script.js:132 | A rate that does not parse yields zero savings. |
| Text.Lower | app/page.tsx:49-50 | ASCII `toLowerCase` keeps the length; `LowerEach`, `LowerIdempotent` and `LowerAppend` state the rest. |
| Text.LowerJoin | app/page.tsx:49-51 | Lower-casing the parts of a text whose lower-cased forms are known gives their concatenation. |
| Text.LowerEach | app/page.tsx:49-50 | Lower-casing maps each character on its own and leaves no ASCII capital. |
| Text.LowerIdempotent | app/page.tsx:49-50 | Lower-casing twice is lower-casing once. |
| Text.LowerAppend | app/page.tsx:49-51 | Lower-casing a concatenation lower-cases each part. |
| Text.Contains | app/page.tsx:77 | Definition of `includes`: the pattern occurs at some index. `NotContainedWithoutChar` and `NotContainedWhenLonger` give ways to refute it on concrete text. |
| Text.ContainsAny | app/page.tsx:77-104 | Definition of `.some(s => text.includes(s))`: some keyword of the table occurs. `ContainsAnyOfExtension` shows a match survives extending the table. |
| Text.NotContainedWithoutChar | app/page.tsx:77 | A keyword holding a character the text lacks does not occur in it. |
| Text.ContainsAnyOfExtension | app/page.tsx:77-103 | A text matching a keyword table also matches any longer table that starts with it. |
| Scenarios.CustomDashboardIsNotHard | app/page.tsx:80 | The system "custom dashboard" contains none of the hard-to-automate keywords, "custom software" included. |
| Scenarios.CustomDashboardIsCustom | app/page.tsx:104 | Whatever the name, a task on "custom dashboard" matches the custom-build table. |
| Scenarios.CustomDashboardIsNotSimple | app/page.tsx:77-103 | "custom dashboard" earns no simple-tool bonus and raises no simple-solution counter; "docs" and "crm" would have to cross its space. |
| Scenarios.CustomDashboardTask | app/page.tsx:76-106 | A counted task on "custom dashboard", in any case, scores the base 50, or 60 when it takes over 30 minutes, and counts towards a custom build but not a simple one. |
| Scenarios.PortalScenario | app/page.tsx:34-137 | 45 minutes daily on "custom dashboard" gives 195 hours, savings of 195 times the rate, score 60, the default goal and custom development. |
| Scenarios.PortalTask | app/page.tsx:34-137 | The task "Client onboarding portal" on "custom dashboard", 45 minutes daily, gives 195 hours, 195 times the rate, score 60, the default goal and custom development. |
| Scenarios.XeroIsSimple | app/page.tsx:77-103 | "Xero" lower-cases to "xero", which is a simple tool for both tables. |
| Scenarios.XeroIsNotHard | app/page.tsx:80 | "xero" is none of the hard-to-automate systems. |
| Scenarios.InvoiceTextIsNotCustom | app/page.tsx:104 | The text "create invoices xero" asks for no custom build. |
| Scenarios.InvoiceScenario | app/page.tsx:34-137 | 30 minutes weekly on a system that names a simple tool and no hard-to-automate one, with a name and system that hold no custom-build keyword, at 30 an hour, gives 26 hours, 780 saved, score 90, the default goal and simple automation. |
| Scenarios.InvoiceNameLowered | app/page.tsx:49 | The page lower-cases the name "Create invoices" to "create invoices". |
| Scenarios.InvoiceTask | app/page.tsx:34-137 | The task "Create invoices" in "Xero", 30 minutes weekly at 30 an hour, gives 26 hours, 780 saved, score 90, the default goal and simple automation. |

## Left out

- Rendering is not modelled: the React components, the report modal, the
  `mailto` link and the DOM updates of `displayResults` (_legacy/script.js:160-180),
  including the number formatting and scrolling. None of these changes a
  computed value.
- The legacy `addNewTask` (_legacy/script.js:26-39) is not modelled. It
  clones an HTML template that is not part of this model and wires a DOM
  remove button.
- Numbers are modelled as exact reals, not IEEE doubles. Rounding in
  `time / 60`, the products, the running sum `totalAnnualHours +=
  taskAnnualHours` and the mean is not modelled. The running sums are exact
  here (the integer feasibility total is exact in the source too), so `CalculatorProperties.OrderIndependent`
  and `CalculatorProperties.SumPermutation` are properties of the real-number
  model only: in the source, floating-point addition is not associative, and
  reordering the tasks can change `totalAnnualHours` and `totalSavings` in
  the last bits.
- Infinite values are not modelled. `parseFloat` gives `Infinity` for
  "Infinity" or "1e400"; the source counts such a task, with infinite hours
  for a known frequency and `NaN` hours for an unknown one, since
  `(Infinity / 60) * 0` is `NaN`. It gives `-Infinity` for "-Infinity" or
  "-1e400"; `|| 0` keeps that value and `time > 0` then skips the task, as
  the model does for any non-positive time.
- `task.time || 0` on the page is the identity here, because a `real` is
  never `NaN`.
- Legacy.OrZero: `parseFloat`'s scan of the input text is not modelled. A
  row holds either a finite number or `NaN`; a row whose minutes or rate
  parse to ±`Infinity` has no counterpart in the model.
- Text.Lower: it folds only ASCII letters and keeps the length. JavaScript's
  `toLowerCase` also folds some non-ASCII characters into ASCII ones: U+212A
  KELVIN SIGN becomes `k`, and U+0130 becomes `i` followed by U+0307, which
  also changes the length. Such characters are kept as they are here, so a
  text like "Ma\u212Ae" misses a keyword ("make") that the source matches;
  "booking", "quickbooks" and "marketing" can be missed the same way.
- The new row's id (`crypto.randomUUID()`) is a parameter of
  `Page.AddNewTask`.
- Page.RemoveTask: its own contract states only the length bound. What it
  keeps, and in what order, is stated by `Page.RemoveKeepsOthers`,
  `Page.RemoveDistributes`, `Page.RemoveAbsent` and `Page.RemovePresent`.
- `setTasks` and `setResults` are modelled by returning the new list or the
  results. React's batching and re-rendering are left out.
