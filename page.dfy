/** The current calculator page (app/page.tsx): the task-list edits that
    feed `setTasks`, and `calculateResults`, whose `forEach` over the tasks
    updates local accumulators before the two label cascades run. */
module Page {
  import opened Text
  import opened Types
  import opened Calculator
  import opened CalculatorProperties

  /** The value passed to `setResults`: the `forEach` of `calculateResults`
      over mutable accumulators, then the final metrics and the two
      reassigning if/else chains. */
  method CalculateResults(tasks: seq<Task>, hourlyRate: real) returns (results: Results)
    ensures results == Calculate(tasks, hourlyRate)
  {
    var totalAnnualHours, totalFeasibility, taskCount, goalTimeSaving, goalClientExperience,
      goalScalability, solutionSimple, solutionCustom := Accumulate(tasks);
    results := Summarize(totalAnnualHours, totalFeasibility, taskCount, goalTimeSaving, goalClientExperience,
                         goalScalability, solutionSimple, solutionCustom, hourlyRate);
  }

  /** The `forEach` of `calculateResults`: the eight accumulators, starting
      from zero, after every task has been visited in list order. */
  method Accumulate(tasks: seq<Task>)
    returns (totalAnnualHours: real, totalFeasibility: int, taskCount: nat,
             goalTimeSaving: nat, goalClientExperience: nat, goalScalability: nat,
             solutionSimple: nat, solutionCustom: nat)
    ensures Tally(totalAnnualHours, totalFeasibility, taskCount, goalTimeSaving, goalClientExperience,
                  goalScalability, solutionSimple, solutionCustom) == Sum(tasks)
  {
    totalAnnualHours, totalFeasibility, taskCount := 0.0, 0, 0;
    goalTimeSaving, goalClientExperience, goalScalability := 0, 0, 0;
    solutionSimple, solutionCustom := 0, 0;

    for i := 0 to |tasks|
      invariant Tally(totalAnnualHours, totalFeasibility, taskCount, goalTimeSaving, goalClientExperience,
                      goalScalability, solutionSimple, solutionCustom) == Sum(tasks[..i])
    {
      totalAnnualHours, totalFeasibility, taskCount, goalTimeSaving, goalClientExperience,
        goalScalability, solutionSimple, solutionCustom :=
        VisitTask(tasks[i], totalAnnualHours, totalFeasibility, taskCount, goalTimeSaving, goalClientExperience,
                  goalScalability, solutionSimple, solutionCustom);
      SumPrefixStep(tasks, i);
    }
    assert tasks[..|tasks|] == tasks;
  }

  /** What `calculateResults` does after the loop: savings, the mean
      feasibility, the two label cascades and the object handed to
      `setResults`. */
  method Summarize(totalAnnualHours: real, totalFeasibility: int, taskCount: nat,
                   goalTimeSaving: nat, goalClientExperience: nat, goalScalability: nat,
                   solutionSimple: nat, solutionCustom: nat, hourlyRate: real)
    returns (results: Results)
    ensures results == Report(Tally(totalAnnualHours, totalFeasibility, taskCount, goalTimeSaving,
                                    goalClientExperience, goalScalability, solutionSimple, solutionCustom),
                              hourlyRate)
  {
    var totalSavings := totalAnnualHours * hourlyRate;
    var avgFeasibility := if taskCount > 0 then totalFeasibility as real / taskCount as real else 0.0;
    var primaryGoal := ChoosePrimaryGoal(goalTimeSaving, goalClientExperience, goalScalability);
    var recommendedSolution := ChooseSolution(taskCount, solutionSimple, solutionCustom,
                                              goalClientExperience, goalScalability);
    results := Results(totalAnnualHours, totalSavings, avgFeasibility, primaryGoal, recommendedSolution);
  }

  /** The reassigning if/else chain that names the primary goal. */
  method ChoosePrimaryGoal(goalTimeSaving: nat, goalClientExperience: nat, goalScalability: nat)
    returns (primaryGoal: string)
    ensures primaryGoal == GoalLabel(PrimaryGoal(goalTimeSaving, goalClientExperience, goalScalability))
  {
    primaryGoal := TimeSavingGoal;
    if goalClientExperience > goalTimeSaving && goalClientExperience >= goalScalability {
      primaryGoal := ClientExperienceGoal;
    } else if goalScalability > goalTimeSaving && goalScalability > goalClientExperience {
      primaryGoal := ScalabilityGoal;
    }
  }

  /** The reassigning if/else chain that names the recommended solution. */
  method ChooseSolution(taskCount: nat, solutionSimple: nat, solutionCustom: nat,
                        goalClientExperience: nat, goalScalability: nat)
    returns (recommendedSolution: string)
    ensures recommendedSolution
         == SolutionLabel(RecommendedSolution(taskCount, solutionSimple, solutionCustom,
                                                goalClientExperience, goalScalability))
  {
    recommendedSolution := SimpleAutomation;
    if solutionCustom > solutionSimple {
      recommendedSolution := CustomDevelopment;
    } else if solutionCustom > 0 && solutionSimple > 0 {
      recommendedSolution := HybridSolution;
    } else if taskCount > 0 && solutionCustom == 0 && solutionSimple == 0
              && (goalClientExperience > 0 || goalScalability > 0) {
      recommendedSolution := ProcessReview;
    }
  }

  /** The body of the `forEach` callback: the accumulators it captures go in
      and come out updated by what the task contributes. */
  method VisitTask(task: Task, totalAnnualHours: real, totalFeasibility: int, taskCount: nat,
                   goalTimeSaving: nat, goalClientExperience: nat, goalScalability: nat,
                   solutionSimple: nat, solutionCustom: nat)
    returns (totalAnnualHours': real, totalFeasibility': int, taskCount': nat,
             goalTimeSaving': nat, goalClientExperience': nat, goalScalability': nat,
             solutionSimple': nat, solutionCustom': nat)
    ensures Tally(totalAnnualHours', totalFeasibility', taskCount', goalTimeSaving', goalClientExperience',
                  goalScalability', solutionSimple', solutionCustom')
         == Plus(Tally(totalAnnualHours, totalFeasibility, taskCount, goalTimeSaving, goalClientExperience,
                       goalScalability, solutionSimple, solutionCustom), Contribution(task))
  {
    totalAnnualHours', totalFeasibility', taskCount' := totalAnnualHours, totalFeasibility, taskCount;
    goalTimeSaving', goalClientExperience', goalScalability' := goalTimeSaving, goalClientExperience, goalScalability;
    solutionSimple', solutionCustom' := solutionSimple, solutionCustom;

    var time := task.time;
    var taskName := Lower(task.name);
    var system := Lower(task.system);
    var fullTaskDesc := taskName + " " + system;

    if time > 0.0 {
      taskCount' := taskCount' + 1;

      var taskAnnualHours := TaskAnnualHours(time, task.frequency);
      totalAnnualHours' := totalAnnualHours' + taskAnnualHours;

      var taskFeasibility := TaskFeasibilityScore(system, time);
      totalFeasibility' := totalFeasibility' + taskFeasibility;

      if taskAnnualHours > 10.0 {
        goalTimeSaving' := goalTimeSaving' + 1;
      }
      if ContainsAny(fullTaskDesc, ClientExperienceKeywords) {
        goalClientExperience' := goalClientExperience' + 1;
      }
      if ContainsAny(fullTaskDesc, ScalabilityKeywords) {
        goalScalability' := goalScalability' + 1;
      }

      if ContainsAny(system, SimpleSolutionKeywords) {
        solutionSimple' := solutionSimple' + 1;
      }
      if ContainsAny(fullTaskDesc, CustomSolutionKeywords) {
        solutionCustom' := solutionCustom' + 1;
      }
      CountedContribution(task);
    } else {
      ContributionBounds(task);
    }
    PlusFields(totalAnnualHours, totalFeasibility, taskCount, goalTimeSaving, goalClientExperience,
               goalScalability, solutionSimple, solutionCustom,
               totalAnnualHours', totalFeasibility', taskCount', goalTimeSaving', goalClientExperience',
               goalScalability', solutionSimple', solutionCustom', Contribution(task));
  }

  /** The frequency `switch` and the hours-per-year product of one task. */
  method TaskAnnualHours(time: real, frequency: Frequency) returns (hours: real)
    ensures hours == AnnualHours(time, frequency)
    ensures time >= 0.0 ==> hours >= 0.0
  {
    var multiplier := 0.0;
    match frequency {
      case Daily => multiplier := 260.0;
      case Weekly => multiplier := 52.0;
      case Monthly => multiplier := 12.0;
      case Quarterly => multiplier := 4.0;
      case Other =>
    }
    hours := (time / 60.0) * multiplier;
  }

  /** The feasibility adjustments of one task, clamped to 0..100. */
  method TaskFeasibilityScore(system: string, time: real) returns (score: int)
    ensures score == TaskFeasibility(system, time)
    ensures 0 <= score <= 100
  {
    var taskFeasibility := 50;
    if ContainsAny(system, SimpleToolKeywords) {
      taskFeasibility := taskFeasibility + 40;
    }
    if ContainsAny(system, HardSystemKeywords) {
      taskFeasibility := taskFeasibility - 20;
    }
    if time > 30.0 {
      taskFeasibility := taskFeasibility + 10;
    }
    score := Clamp(taskFeasibility);
  }

  // The task-list edits. Each returns the new list handed to `setTasks`.

  /** The blank row `addNewTask` appends; `id` stands for the fresh value of
      `crypto.randomUUID()`. */
  function BlankTask(id: string): Task
  {
    Task(id, "", "", 10.0, Weekly)
  }

  /** The ids in use. */
  function Ids(tasks: seq<Task>): set<string>
  {
    set i | 0 <= i < |tasks| :: tasks[i].id
  }

  /** No two rows share an id. */
  predicate UniqueIds(tasks: seq<Task>)
  {
    forall i, j :: 0 <= i < j < |tasks| ==> tasks[i].id != tasks[j].id
  }

  /** `addNewTask`: the old rows, then one blank row. */
  function AddNewTask(tasks: seq<Task>, newId: string): (r: seq<Task>)
    ensures |r| == |tasks| + 1
    ensures r[..|tasks|] == tasks
    ensures r[|tasks|] == Task(newId, "", "", 10.0, Weekly)
  {
    tasks + [BlankTask(newId)]
  }

  /** `removeTask`: the rows whose id differs, in their original order. */
  function RemoveTask(tasks: seq<Task>, id: string): (r: seq<Task>)
    ensures |r| <= |tasks|
  {
    if tasks == [] then []
    else (if tasks[0].id != id then [tasks[0]] else []) + RemoveTask(tasks[1..], id)
  }

  /** A change of one field, as `updateTask(id, field, value)` receives it
      from the inputs of a row. */
  datatype Edit =
    | SetId(newId: string)
    | SetName(newName: string)
    | SetSystem(newSystem: string)
    | SetTime(newTime: real)
    | SetFrequency(newFrequency: Frequency)

  /** `{ ...task, [field]: value }`: the named field takes the new value and
      every other field keeps its old one. */
  function Apply(t: Task, e: Edit): (u: Task)
    ensures u.id == (if e.SetId? then e.newId else t.id)
    ensures u.name == (if e.SetName? then e.newName else t.name)
    ensures u.system == (if e.SetSystem? then e.newSystem else t.system)
    ensures u.time == (if e.SetTime? then e.newTime else t.time)
    ensures u.frequency == (if e.SetFrequency? then e.newFrequency else t.frequency)
  {
    match e
    case SetId(v) => t.(id := v)
    case SetName(v) => t.(name := v)
    case SetSystem(v) => t.(system := v)
    case SetTime(v) => t.(time := v)
    case SetFrequency(v) => t.(frequency := v)
  }

  /** `updateTask`: every row with the given id gets the edit, every other
      row is kept; length and order do not change. */
  function UpdateTask(tasks: seq<Task>, id: string, e: Edit): (r: seq<Task>)
    ensures |r| == |tasks|
    ensures forall i :: 0 <= i < |tasks| ==> r[i] == if tasks[i].id == id then Apply(tasks[i], e) else tasks[i]
  {
    if tasks == [] then []
    else [if tasks[0].id == id then Apply(tasks[0], e) else tasks[0]] + UpdateTask(tasks[1..], id, e)
  }

  // Properties of the edits.

  /** Adding a row with an id not yet in use keeps the ids unique. */
  lemma AddKeepsIdsUnique(tasks: seq<Task>, newId: string)
    requires UniqueIds(tasks) && newId !in Ids(tasks)
    ensures UniqueIds(AddNewTask(tasks, newId))
    ensures Ids(AddNewTask(tasks, newId)) == Ids(tasks) + {newId}
  {
    var r := AddNewTask(tasks, newId);
    forall i, j | 0 <= i < j < |r| ensures r[i].id != r[j].id {
      if j == |tasks| {
        assert r[i] == tasks[i];
        assert tasks[i].id in Ids(tasks);
      }
    }
    assert forall i :: 0 <= i < |tasks| ==> r[i] == tasks[i];
    assert r[|tasks|].id == newId;
  }

  /** The blank row is counted: it adds 10 minutes weekly (26/3 hours a
      year), a feasibility score of 50 and no profile signal. */
  lemma AddNewTaskEffect(tasks: seq<Task>, newId: string)
    ensures Sum(AddNewTask(tasks, newId)) == Plus(Sum(tasks), Tally(26.0 / 3.0, 50, 1, 0, 0, 0, 0, 0))
  {
    var t := BlankTask(newId);
    BlankContribution(newId);
    SumAppend(tasks, [t]);
    SumSingleton(t);
  }

  /** What the blank row alone contributes. */
  lemma BlankContribution(newId: string)
    ensures Contribution(BlankTask(newId)) == Tally(26.0 / 3.0, 50, 1, 0, 0, 0, 0, 0)
  {
    var t := BlankTask(newId);
    BlankDescriptionMatchesNothing(newId);
    BlankWantsNoCustomSolution();
    BlankSystemMatchesNothing(newId);
    CountedContribution(t);
  }

  /** The blank row's combined description is a single space. */
  lemma BlankDescriptionMatchesNothing(newId: string)
    ensures Description(BlankTask(newId)) == " "
    ensures !ContainsAny(" ", ClientExperienceKeywords)
    ensures !ContainsAny(" ", ScalabilityKeywords)
  {
    assert Lower("") == "";
    NothingInBlank(" ", ClientExperienceKeywords);
    NothingInBlank(" ", ScalabilityKeywords);
  }

  /** Nor does a single space ask for custom software. */
  lemma BlankWantsNoCustomSolution()
    ensures !ContainsAny(" ", CustomSolutionKeywords)
  {
    NothingInBlank(" ", CustomSolutionKeywords);
  }

  /** The blank row's system is empty. */
  lemma BlankSystemMatchesNothing(newId: string)
    ensures System(BlankTask(newId)) == ""
    ensures !ContainsAny("", SimpleToolKeywords)
    ensures !ContainsAny("", HardSystemKeywords)
    ensures !ContainsAny("", SimpleSolutionKeywords)
  {
    NothingInBlank("", SimpleToolKeywords);
    NothingInBlank("", HardSystemKeywords);
    NothingInBlank("", SimpleSolutionKeywords);
  }

  /** Text of at most one space holds none of the keywords, which all have
      letters. */
  lemma NothingInBlank(s: string, keywords: seq<string>)
    requires s == "" || s == " "
    requires forall j :: 0 <= j < |keywords| ==> |keywords[j]| > 1
    ensures !ContainsAny(s, keywords)
  {
    forall j | 0 <= j < |keywords| ensures !Contains(s, keywords[j]) {
      NotContainedWhenLonger(s, keywords[j]);
    }
  }

  /** Removing keeps exactly the rows with a different id, in order:
      removing from a concatenation removes from each part. */
  lemma {:induction false} RemoveDistributes(a: seq<Task>, b: seq<Task>, id: string)
    ensures RemoveTask(a + b, id) == RemoveTask(a, id) + RemoveTask(b, id)
  {
    if a == [] {
      assert a + b == b;
    } else {
      var head := if a[0].id != id then [a[0]] else [];
      assert (a + b)[0] == a[0] && (a + b)[1..] == a[1..] + b;
      assert RemoveTask(a, id) == head + RemoveTask(a[1..], id);
      assert RemoveTask(a + b, id) == head + RemoveTask(a[1..] + b, id);
      RemoveDistributes(a[1..], b, id);
      assert head + (RemoveTask(a[1..], id) + RemoveTask(b, id))
          == (head + RemoveTask(a[1..], id)) + RemoveTask(b, id);
    }
  }

  /** A row survives the removal exactly when it was there and its id
      differs. */
  lemma {:induction false} RemoveKeepsOthers(tasks: seq<Task>, id: string)
    ensures forall t :: t in RemoveTask(tasks, id) <==> t in tasks && t.id != id
  {
    if tasks != [] {
      RemoveKeepsOthers(tasks[1..], id);
      var head := if tasks[0].id != id then [tasks[0]] else [];
      assert RemoveTask(tasks, id) == head + RemoveTask(tasks[1..], id);
      assert forall t :: t in tasks <==> t == tasks[0] || t in tasks[1..];
    }
  }

  lemma IdsOfTail(tasks: seq<Task>)
    requires tasks != []
    ensures Ids(tasks) == {tasks[0].id} + Ids(tasks[1..])
  {
    forall k | k in Ids(tasks) ensures k in {tasks[0].id} + Ids(tasks[1..]) {
      var i :| 0 <= i < |tasks| && tasks[i].id == k;
      if i > 0 {
        assert tasks[1..][i - 1].id == k;
      }
    }
    forall k | k in Ids(tasks[1..]) ensures k in Ids(tasks) {
      var i :| 0 <= i < |tasks[1..]| && tasks[1..][i].id == k;
      assert tasks[i + 1].id == k;
    }
  }

  /** Removing an id that is not in use changes nothing. */
  lemma {:induction false} RemoveAbsent(tasks: seq<Task>, id: string)
    requires id !in Ids(tasks)
    ensures RemoveTask(tasks, id) == tasks
  {
    if tasks != [] {
      IdsOfTail(tasks);
      RemoveAbsent(tasks[1..], id);
      assert [tasks[0]] + tasks[1..] == tasks;
    }
  }

  /** With unique ids, removing an id in use drops exactly one row. */
  lemma {:induction false} RemovePresent(tasks: seq<Task>, id: string)
    requires UniqueIds(tasks) && id in Ids(tasks)
    ensures |RemoveTask(tasks, id)| == |tasks| - 1
  {
    IdsOfTail(tasks);
    var rest := tasks[1..];
    assert UniqueIds(rest) by {
      forall i, j | 0 <= i < j < |rest| ensures rest[i].id != rest[j].id {
        assert rest[i] == tasks[i + 1] && rest[j] == tasks[j + 1];
      }
    }
    if tasks[0].id == id {
      assert id !in Ids(rest) by {
        forall i | 0 <= i < |rest| ensures rest[i].id != id {
          assert rest[i] == tasks[i + 1];
        }
      }
      RemoveAbsent(rest, id);
    } else {
      RemovePresent(rest, id);
    }
  }

  /** An edit that is not of the id leaves every id where it was, so unique
      ids stay unique. */
  lemma UpdateKeepsIds(tasks: seq<Task>, id: string, e: Edit)
    requires !e.SetId?
    ensures forall i :: 0 <= i < |tasks| ==> UpdateTask(tasks, id, e)[i].id == tasks[i].id
    ensures UniqueIds(tasks) ==> UniqueIds(UpdateTask(tasks, id, e))
  {
  }

  /** Updating an id that is not in use changes nothing. */
  lemma UpdateAbsent(tasks: seq<Task>, id: string, e: Edit)
    requires id !in Ids(tasks)
    ensures UpdateTask(tasks, id, e) == tasks
  {
    var r := UpdateTask(tasks, id, e);
    forall i | 0 <= i < |tasks| ensures r[i] == tasks[i] {
      assert tasks[i].id in Ids(tasks);
    }
  }

  /** Editing only an id changes none of the calculator's outputs. */
  lemma IdEditKeepsResults(tasks: seq<Task>, id: string, newId: string, hourlyRate: real)
    ensures Calculate(UpdateTask(tasks, id, SetId(newId)), hourlyRate) == Calculate(tasks, hourlyRate)
  {
    SumIgnoresIds(UpdateTask(tasks, id, SetId(newId)), tasks);
  }

  /** Setting a row's time to zero or less takes it out of the calculation
      exactly as removing it would. */
  lemma {:induction false} ZeroTimeIsRemoval(tasks: seq<Task>, id: string, time: real)
    requires time <= 0.0
    ensures Sum(UpdateTask(tasks, id, SetTime(time))) == Sum(RemoveTask(tasks, id))
  {
    if tasks != [] {
      var t, rest := tasks[0], tasks[1..];
      ZeroTimeIsRemoval(rest, id, time);
      var u := if t.id == id then Apply(t, SetTime(time)) else t;
      var kept := if t.id != id then [t] else [];
      assert UpdateTask(tasks, id, SetTime(time)) == [u] + UpdateTask(rest, id, SetTime(time));
      assert RemoveTask(tasks, id) == kept + RemoveTask(rest, id);
      SumAppend([u], UpdateTask(rest, id, SetTime(time)));
      SumAppend(kept, RemoveTask(rest, id));
      SumSingleton(u);
      if t.id == id {
        ContributionBounds(u);
        PlusZero(Sum(RemoveTask(rest, id)));
        assert Sum(kept) == Zero;
      } else {
        SumSingleton(t);
      }
    }
  }
}
