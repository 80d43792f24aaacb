/** The earlier, DOM-based calculator (_legacy/script.js). Its
    `calculateResults` reads every `.task-row` of the page and the
    hourly-rate input, coerces the numbers with `parseFloat(...) || 0` and
    runs the same loop as the current page. The rows are modelled as the
    values their inputs hold; reading them from the document is not. */
module Legacy {
  import opened Text
  import opened Types
  import opened Calculator
  import opened CalculatorProperties
  import opened Page

  /** What `parseFloat` returns: a number, or `NaN` for text that does not
      start with one. How the text is scanned is not modelled. */
  datatype Parsed = Number(value: real) | NotANumber

  /** `parseFloat(...) || 0`: `NaN` (and 0) become 0, any other number is
      kept. */
  function OrZero(p: Parsed): (r: real)
    ensures p.NotANumber? ==> r == 0.0
    ensures p.Number? ==> r == p.value
  {
    match p
    case Number(v) => if v == 0.0 then 0.0 else v
    case NotANumber => 0.0
  }

  /** The values of the four inputs of one `.task-row`: name, system, the
      parsed minutes and the frequency `<select>`. */
  datatype Row = Row(name: string, system: string, time: Parsed, frequency: string)

  /** The task a row stands for. Rows carry no id; the calculator does not
      read one. */
  function RowTask(row: Row): Task
  {
    Task("", row.name, row.system, OrZero(row.time), ParseFrequency(row.frequency))
  }

  /** The rows of `taskList.querySelectorAll(".task-row")`, in document order,
      as tasks. */
  function RowTasks(rows: seq<Row>): (tasks: seq<Task>)
    ensures |tasks| == |rows|
    ensures forall i :: 0 <= i < |rows| ==> tasks[i] == RowTask(rows[i])
  {
    seq(|rows|, i requires 0 <= i < |rows| => RowTask(rows[i]))
  }

  /** `calculateResults`: the `forEach` over the rows, then the final
      metrics and the two label cascades, returned as the five values handed
      to `displayResults`. */
  method CalculateResults(rows: seq<Row>, rateInput: Parsed) returns (results: Results)
    ensures results == Calculate(RowTasks(rows), OrZero(rateInput))
  {
    var totalAnnualHours, totalFeasibility, taskCount, goalTimeSaving, goalClientExperience,
      goalScalability, solutionSimple, solutionCustom := Accumulate(rows);
    var hourlyRate := OrZero(rateInput);
    results := Summarize(totalAnnualHours, totalFeasibility, taskCount, goalTimeSaving, goalClientExperience,
                         goalScalability, solutionSimple, solutionCustom, hourlyRate);
  }

  /** The `forEach` over the rows: the eight accumulators, starting from
      zero, after every row has been visited in document order. */
  method Accumulate(rows: seq<Row>)
    returns (totalAnnualHours: real, totalFeasibility: int, taskCount: nat,
             goalTimeSaving: nat, goalClientExperience: nat, goalScalability: nat,
             solutionSimple: nat, solutionCustom: nat)
    ensures Tally(totalAnnualHours, totalFeasibility, taskCount, goalTimeSaving, goalClientExperience,
                  goalScalability, solutionSimple, solutionCustom) == Sum(RowTasks(rows))
  {
    totalAnnualHours, totalFeasibility, taskCount := 0.0, 0, 0;
    goalTimeSaving, goalClientExperience, goalScalability := 0, 0, 0;
    solutionSimple, solutionCustom := 0, 0;
    ghost var tasks := RowTasks(rows);

    for i := 0 to |rows|
      invariant Tally(totalAnnualHours, totalFeasibility, taskCount, goalTimeSaving, goalClientExperience,
                      goalScalability, solutionSimple, solutionCustom) == Sum(tasks[..i])
    {
      totalAnnualHours, totalFeasibility, taskCount, goalTimeSaving, goalClientExperience,
        goalScalability, solutionSimple, solutionCustom :=
        VisitRow(rows[i], totalAnnualHours, totalFeasibility, taskCount, goalTimeSaving, goalClientExperience,
                 goalScalability, solutionSimple, solutionCustom);
      SumPrefixStep(tasks, i);
    }
    assert tasks[..|rows|] == tasks;
  }

  /** The body of the `forEach` callback for one row. */
  method VisitRow(row: Row, totalAnnualHours: real, totalFeasibility: int, taskCount: nat,
                  goalTimeSaving: nat, goalClientExperience: nat, goalScalability: nat,
                  solutionSimple: nat, solutionCustom: nat)
    returns (totalAnnualHours': real, totalFeasibility': int, taskCount': nat,
             goalTimeSaving': nat, goalClientExperience': nat, goalScalability': nat,
             solutionSimple': nat, solutionCustom': nat)
    ensures Tally(totalAnnualHours', totalFeasibility', taskCount', goalTimeSaving', goalClientExperience',
                  goalScalability', solutionSimple', solutionCustom')
         == Plus(Tally(totalAnnualHours, totalFeasibility, taskCount, goalTimeSaving, goalClientExperience,
                       goalScalability, solutionSimple, solutionCustom), Contribution(RowTask(row)))
  {
    totalAnnualHours', totalFeasibility', taskCount' := totalAnnualHours, totalFeasibility, taskCount;
    goalTimeSaving', goalClientExperience', goalScalability' := goalTimeSaving, goalClientExperience, goalScalability;
    solutionSimple', solutionCustom' := solutionSimple, solutionCustom;

    var time := OrZero(row.time);
    var frequency := row.frequency;
    var taskName := Lower(row.name);
    var system := Lower(row.system);
    var fullTaskDesc := taskName + " " + system;

    if time > 0.0 {
      taskCount' := taskCount' + 1;

      var taskAnnualHours := TaskAnnualHoursOf(time, frequency);
      totalAnnualHours' := totalAnnualHours' + taskAnnualHours;

      var taskFeasibility := TaskFeasibilityScore(system, time);
      totalFeasibility' := totalFeasibility' + taskFeasibility;

      if taskAnnualHours > 10.0 {
        goalTimeSaving' := goalTimeSaving' + 1;
      }
      if ContainsAny(fullTaskDesc, ClientExperienceKeywords) {
        goalClientExperience' := goalClientExperience' + 1;
      }
      if ContainsAny(fullTaskDesc, ScalabilityKeywords) {
        goalScalability' := goalScalability' + 1;
      }

      if ContainsAny(system, SimpleSolutionKeywords) {
        solutionSimple' := solutionSimple' + 1;
      }
      if ContainsAny(fullTaskDesc, CustomSolutionKeywords) {
        solutionCustom' := solutionCustom' + 1;
      }
      CountedContribution(RowTask(row));
    } else {
      ContributionBounds(RowTask(row));
    }
    PlusFields(totalAnnualHours, totalFeasibility, taskCount, goalTimeSaving, goalClientExperience,
               goalScalability, solutionSimple, solutionCustom,
               totalAnnualHours', totalFeasibility', taskCount', goalTimeSaving', goalClientExperience',
               goalScalability', solutionSimple', solutionCustom', Contribution(RowTask(row)));
  }

  /** The `switch` on the raw `<select>` value and the hours-per-year
      product: "daily", "weekly", "monthly" and "quarterly" set the
      multiplier, anything else leaves it 0. */
  method TaskAnnualHoursOf(time: real, frequency: string) returns (hours: real)
    ensures hours == AnnualHours(time, ParseFrequency(frequency))
    ensures frequency == "daily" ==> hours == time / 60.0 * 260.0
    ensures frequency == "weekly" ==> hours == time / 60.0 * 52.0
    ensures frequency == "monthly" ==> hours == time / 60.0 * 12.0
    ensures frequency == "quarterly" ==> hours == time / 60.0 * 4.0
    ensures frequency !in {"daily", "weekly", "monthly", "quarterly"} ==> hours == 0.0
  {
    var multiplier := 0.0;
    if frequency == "daily" {
      multiplier := 260.0;
    } else if frequency == "weekly" {
      multiplier := 52.0;
    } else if frequency == "monthly" {
      multiplier := 12.0;
    } else if frequency == "quarterly" {
      multiplier := 4.0;
    }
    hours := (time / 60.0) * multiplier;
  }

  // Properties of the legacy calculator.

  /** A row and a task of the current page describe the same work: same
      name and system, the row's coerced time is the task's time and its
      `<select>` value reads as the task's frequency. */
  predicate Matches(row: Row, task: Task)
  {
    row.name == task.name && row.system == task.system
    && OrZero(row.time) == task.time && ParseFrequency(row.frequency) == task.frequency
  }

  /** Given the same inputs, the legacy calculator and the current page
      report the same five values. */
  lemma LegacyAgreesWithPage(rows: seq<Row>, rateInput: Parsed, tasks: seq<Task>, hourlyRate: real)
    requires |rows| == |tasks| && forall i :: 0 <= i < |rows| ==> Matches(rows[i], tasks[i])
    requires OrZero(rateInput) == hourlyRate
    ensures Calculate(RowTasks(rows), OrZero(rateInput)) == Calculate(tasks, hourlyRate)
  {
    var rt := RowTasks(rows);
    assert SameDataEach(rt, tasks) by {
      forall i | 0 <= i < |rt| ensures SameData(rt[i], tasks[i]) {
        assert rt[i] == RowTask(rows[i]) && Matches(rows[i], tasks[i]);
      }
    }
    SumIgnoresIds(rt, tasks);
  }

  /** A row whose minutes do not parse adds nothing to any accumulator. */
  lemma UnparsableTimeExcluded(row: Row)
    requires row.time.NotANumber?
    ensures Contribution(RowTask(row)) == Zero
  {
    ContributionBounds(RowTask(row));
  }

  /** Inserting a row whose minutes do not parse, anywhere in the list,
      leaves all five outputs unchanged. */
  lemma UnparsableRowIgnored(front: seq<Row>, row: Row, back: seq<Row>, rateInput: Parsed)
    requires row.time.NotANumber?
    ensures Calculate(RowTasks(front + [row] + back), OrZero(rateInput))
         == Calculate(RowTasks(front + back), OrZero(rateInput))
  {
    var f, b := RowTasks(front), RowTasks(back);
    assert RowTasks(front + [row] + back) == f + [RowTask(row)] + b;
    assert RowTasks(front + back) == f + b;
    UncountedTaskIgnored(f, RowTask(row), b, OrZero(rateInput));
  }

  /** An hourly rate that does not parse yields no savings, whatever the
      hours. */
  lemma UnparsableRateNoSavings(rows: seq<Row>, rateInput: Parsed)
    requires rateInput.NotANumber?
    ensures Calculate(RowTasks(rows), OrZero(rateInput)).totalSavings == 0.0
  {
  }
}
