/** What the calculator promises, proved about the specification in module
    Calculator: which tasks count, the totals as plain sums, the bounds of
    the feasibility mean, order independence and the decision cascades. */
module CalculatorProperties {
  import opened Text
  import opened Types
  import opened Calculator

  // Reference definitions: the totals written as sums from the front.

  /** Annual hours summed over the counted tasks. */
  function TotalHours(tasks: seq<Task>): real
  {
    if tasks == [] then 0.0
    else (if Counted(tasks[0]) then AnnualHours(tasks[0].time, tasks[0].frequency) else 0.0) + TotalHours(tasks[1..])
  }

  /** Number of tasks with a positive time. */
  function CountedTasks(tasks: seq<Task>): nat
  {
    if tasks == [] then 0 else Flag(Counted(tasks[0])) + CountedTasks(tasks[1..])
  }

  /** Number of counted tasks taking more than 10 hours a year. */
  function LongTasks(tasks: seq<Task>): nat
  {
    if tasks == [] then 0
    else Flag(Counted(tasks[0]) && AnnualHours(tasks[0].time, tasks[0].frequency) > 10.0) + LongTasks(tasks[1..])
  }

  /** Per-task feasibility scores summed over the counted tasks. */
  function FeasibilityTotal(tasks: seq<Task>): int
  {
    if tasks == [] then 0
    else (if Counted(tasks[0]) then TaskFeasibility(System(tasks[0]), tasks[0].time) else 0) + FeasibilityTotal(tasks[1..])
  }

  // Sum is a fold of a commutative monoid.

  lemma SumSingleton(t: Task)
    ensures Sum([t]) == Contribution(t)
  {
    assert [t][..0] == [];
    assert Sum([t]) == Plus(Zero, Contribution(t));
    PlusZero(Contribution(t));
  }

  lemma PlusZero(x: Tally)
    ensures Plus(x, Zero) == x && Plus(Zero, x) == x
  {
  }

  lemma PlusAssociative(x: Tally, y: Tally, z: Tally)
    ensures Plus(Plus(x, y), z) == Plus(x, Plus(y, z))
  {
  }

  /** One step of `Sum` on a concatenation peels off the last task of `b`. */
  lemma SumAppendStep(a: seq<Task>, b: seq<Task>)
    requires b != []
    ensures Sum(a + b) == Plus(Sum(a + b[..|b| - 1]), Contribution(b[|b| - 1]))
  {
    assert (a + b)[..|a + b| - 1] == a + b[..|b| - 1];
  }

  /** Accumulating over a concatenation adds the two tallies. */
  lemma {:induction false} SumAppend(a: seq<Task>, b: seq<Task>)
    ensures Sum(a + b) == Plus(Sum(a), Sum(b))
    decreases |b|
  {
    if b == [] {
      assert a + b == a;
      PlusZero(Sum(a));
    } else {
      var n := |b| - 1;
      SumAppendStep(a, b);
      SumAppend(a, b[..n]);
      PlusAssociative(Sum(a), Sum(b[..n]), Contribution(b[n]));
    }
  }

  /** What one task adds: one counted task or nothing, non-negative hours,
      a feasibility score in [30, 100] when counted, and each profile
      counter raised at most once. */
  lemma ContributionBounds(t: Task)
    ensures Contribution(t).count == Flag(Counted(t))
    ensures !Counted(t) ==> Contribution(t) == Zero
    ensures Contribution(t).hours >= 0.0
    ensures 30 * Contribution(t).count <= Contribution(t).feasibility <= 100 * Contribution(t).count
    ensures WithinCount(Contribution(t))
  {
  }

  /** Every profile counter is at most the number of counted tasks. */
  predicate WithinCount(t: Tally)
  {
    t.timeSaving <= t.count && t.clientExperience <= t.count && t.scalability <= t.count
    && t.simple <= t.count && t.custom <= t.count
  }

  /** Over a whole list: at most one counted task per entry, non-negative
      hours, feasibility between 30 and 100 per counted task, and each
      profile counter at most the number of counted tasks. */
  lemma {:induction false} SumBounds(tasks: seq<Task>)
    ensures Sum(tasks).count <= |tasks|
    ensures Sum(tasks).hours >= 0.0
    ensures 30 * Sum(tasks).count <= Sum(tasks).feasibility <= 100 * Sum(tasks).count
    ensures WithinCount(Sum(tasks))
  {
    if tasks != [] {
      var n := |tasks| - 1;
      SumBounds(tasks[..n]);
      ContributionBounds(tasks[n]);
    }
  }

  /** Eight accumulators each raised by the matching field of `c` are the
      tally raised by `c`. It takes the accumulators one by one, as the loop
      bodies hold them, so that those bodies reason field by field and not
      about the whole record. */
  lemma PlusFields(hours: real, feasibility: int, count: nat, timeSaving: nat,
                   clientExperience: nat, scalability: nat, simple: nat, custom: nat,
                   hours': real, feasibility': int, count': nat, timeSaving': nat,
                   clientExperience': nat, scalability': nat, simple': nat, custom': nat, c: Tally)
    requires hours' == hours + c.hours && feasibility' == feasibility + c.feasibility
    requires count' == count + c.count && timeSaving' == timeSaving + c.timeSaving
    requires clientExperience' == clientExperience + c.clientExperience
    requires scalability' == scalability + c.scalability
    requires simple' == simple + c.simple && custom' == custom + c.custom
    ensures Tally(hours', feasibility', count', timeSaving', clientExperience', scalability', simple', custom')
         == Plus(Tally(hours, feasibility, count, timeSaving, clientExperience, scalability, simple, custom), c)
  {
  }

  /** One more task visited: the tally of a prefix one longer. */
  lemma SumPrefixStep(tasks: seq<Task>, i: nat)
    requires i < |tasks|
    ensures Sum(tasks[..i + 1]) == Plus(Sum(tasks[..i]), Contribution(tasks[i]))
  {
    assert tasks[..i + 1][..i] == tasks[..i];
  }

  /** The contribution of a counted task, field by field. */
  lemma CountedContribution(t: Task)
    requires Counted(t)
    ensures Contribution(t) == Tally(
      AnnualHours(t.time, t.frequency),
      TaskFeasibility(System(t), t.time),
      1,
      Flag(AnnualHours(t.time, t.frequency) > 10.0),
      Flag(ContainsAny(Description(t), ClientExperienceKeywords)),
      Flag(ContainsAny(Description(t), ScalabilityKeywords)),
      Flag(ContainsAny(System(t), SimpleSolutionKeywords)),
      Flag(ContainsAny(Description(t), CustomSolutionKeywords)))
  {
  }

  /** Moving one task to the end of the list leaves the accumulators alone. */
  lemma SumMoveToEnd(front: seq<Task>, x: Task, back: seq<Task>)
    ensures Sum(front + [x] + back) == Plus(Sum(front + back), Contribution(x))
  {
    var sf, sb, cx := Sum(front), Sum(back), Contribution(x);
    assert Sum(front + [x]) == Plus(sf, cx) by {
      SumAppend(front, [x]);
      SumSingleton(x);
    }
    assert Sum(front + [x] + back) == Plus(Plus(sf, cx), sb) by {
      SumAppend(front + [x], back);
    }
    assert Sum(front + back) == Plus(sf, sb) by {
      SumAppend(front, back);
    }
    PlusSwap(sf, sb, cx);
  }

  /** Taking the same element out of two permutations of each other leaves
      two permutations of each other. */
  lemma RemoveFromPermutation(a: seq<Task>, b: seq<Task>, i: nat)
    requires multiset(a) == multiset(b) && a != [] && i < |b| && b[i] == a[|a| - 1]
    ensures multiset(a[..|a| - 1]) == multiset(b[..i] + b[i + 1..])
  {
    var n, x := |a| - 1, a[|a| - 1];
    assert a == a[..n] + [x];
    assert b == b[..i] + [x] + b[i + 1..];
    assert multiset(b) == multiset(b[..i]) + multiset{x} + multiset(b[i + 1..]);
    assert multiset(b[..i] + b[i + 1..]) == multiset(b[..i]) + multiset(b[i + 1..]);
    assert multiset(a) == multiset(a[..n]) + multiset{x};
    assert multiset(a[..n]) == multiset(a) - multiset{x};
    assert multiset(b[..i] + b[i + 1..]) == multiset(b) - multiset{x};
  }

  /** Any reordering of the task list gives the same accumulators. */
  lemma {:induction false} SumPermutation(a: seq<Task>, b: seq<Task>)
    requires multiset(a) == multiset(b)
    ensures Sum(a) == Sum(b)
    decreases |a|
  {
    if a == [] {
      assert |b| == |multiset(b)| == 0;
    } else {
      var n := |a| - 1;
      var x := a[n];
      assert x in multiset(b) by {
        assert x in multiset(a);
      }
      var i :| 0 <= i < |b| && b[i] == x;
      RemoveFromPermutation(a, b, i);
      SumPermutation(a[..n], b[..i] + b[i + 1..]);
      SumMoveToEnd(b[..i], x, b[i + 1..]);
      SplitAt(b, i);
    }
  }

  lemma SplitAt(b: seq<Task>, i: nat)
    requires i < |b|
    ensures b == b[..i] + [b[i]] + b[i + 1..]
  {
  }

  lemma PlusSwap(x: Tally, y: Tally, z: Tally)
    ensures Plus(Plus(x, y), z) == Plus(Plus(x, z), y)
  {
  }

  /** Permuting the task list changes none of the five outputs. */
  lemma {:induction false} OrderIndependent(a: seq<Task>, b: seq<Task>, hourlyRate: real)
    requires multiset(a) == multiset(b)
    ensures Calculate(a, hourlyRate) == Calculate(b, hourlyRate)
  {
    SumPermutation(a, b);
  }

  /** A task whose time is zero or negative may be dropped from anywhere in
      the list without changing any output. */
  lemma {:induction false} UncountedTaskIgnored(a: seq<Task>, t: Task, b: seq<Task>, hourlyRate: real)
    requires t.time <= 0.0
    ensures Calculate(a + [t] + b, hourlyRate) == Calculate(a + b, hourlyRate)
  {
    assert Sum(a + [t]) == Sum(a) by {
      SumAppend(a, [t]);
      SumSingleton(t);
      ContributionBounds(t);
      PlusZero(Sum(a));
    }
    SumAppend(a + [t], b);
    SumAppend(a, b);
  }

  /** The fields of one task's contribution, as the reference sums count them. */
  lemma ContributionFields(t: Task)
    ensures Contribution(t).hours == if Counted(t) then AnnualHours(t.time, t.frequency) else 0.0
    ensures Contribution(t).count == Flag(Counted(t))
    ensures Contribution(t).timeSaving == Flag(Counted(t) && AnnualHours(t.time, t.frequency) > 10.0)
    ensures Contribution(t).feasibility == if Counted(t) then TaskFeasibility(System(t), t.time) else 0
  {
  }

  /** The accumulators agree with the reference sums. */
  lemma {:induction false} SumMatchesReference(tasks: seq<Task>)
    ensures Sum(tasks).hours == TotalHours(tasks)
    ensures Sum(tasks).count == CountedTasks(tasks)
    ensures Sum(tasks).timeSaving == LongTasks(tasks)
    ensures Sum(tasks).feasibility == FeasibilityTotal(tasks)
  {
    if tasks != [] {
      var t, rest := tasks[0], tasks[1..];
      SumMatchesReference(rest);
      var c, sr := Contribution(t), Sum(rest);
      assert Sum(tasks) == Plus(c, sr) by {
        assert tasks == [t] + rest;
        SumAppend([t], rest);
        SumSingleton(t);
      }
      ContributionFields(t);
      assert TotalHours(tasks) == c.hours + TotalHours(rest);
      assert CountedTasks(tasks) == c.count + CountedTasks(rest);
      assert LongTasks(tasks) == c.timeSaving + LongTasks(rest);
      assert FeasibilityTotal(tasks) == c.feasibility + FeasibilityTotal(rest);
    }
  }

  /** Two tasks that differ at most in their ids. */
  predicate SameData(t: Task, u: Task)
  {
    t.name == u.name && t.system == u.system && t.time == u.time && t.frequency == u.frequency
  }

  /** Lists that agree entry by entry on everything but the ids. */
  predicate SameDataEach(a: seq<Task>, b: seq<Task>)
  {
    |a| == |b| && forall i :: 0 <= i < |a| ==> SameData(a[i], b[i])
  }

  /** The calculator never looks at task ids. */
  lemma {:induction false} SumIgnoresIds(a: seq<Task>, b: seq<Task>)
    requires SameDataEach(a, b)
    ensures Sum(a) == Sum(b)
  {
    if a != [] {
      var n := |a| - 1;
      assert SameDataEach(a[..n], b[..n]) by {
        assert forall i :: 0 <= i < n ==> a[..n][i] == a[i] && b[..n][i] == b[i];
      }
      SumIgnoresIds(a[..n], b[..n]);
      assert Contribution(a[n]) == Contribution(b[n]) by {
        assert SameData(a[n], b[n]);
      }
    }
  }

  /** The number of counted tasks never exceeds the length of the list. */
  lemma {:induction false} CountedTasksBounded(tasks: seq<Task>)
    ensures CountedTasks(tasks) <= |tasks|
    ensures CountedTasks(tasks) == |tasks| <==> forall i :: 0 <= i < |tasks| ==> Counted(tasks[i])
  {
    if tasks != [] {
      CountedTasksBounded(tasks[1..]);
      assert forall i :: 1 <= i < |tasks| ==> tasks[i] == tasks[1..][i - 1];
    }
  }

  /** Total hours are the sum over counted tasks of minutes / 60 times the
      annual multiplier, never negative; savings are hours times the rate,
      never negative for a non-negative rate. */
  lemma {:induction false} HoursAndSavings(tasks: seq<Task>, hourlyRate: real)
    ensures Calculate(tasks, hourlyRate).totalAnnualHours == TotalHours(tasks)
    ensures TotalHours(tasks) >= 0.0
    ensures Calculate(tasks, hourlyRate).totalSavings == TotalHours(tasks) * hourlyRate
    ensures hourlyRate >= 0.0 ==> Calculate(tasks, hourlyRate).totalSavings >= 0.0
  {
    SumMatchesReference(tasks);
    SumBounds(tasks);
  }

  lemma MeanBounds(total: int, n: nat, lo: int, hi: int)
    requires n > 0 && lo * n <= total <= hi * n
    ensures lo as real <= total as real / n as real <= hi as real
  {
    var m := total as real / n as real;
    assert m * n as real == total as real;
    assert m <= hi as real;
    assert lo as real <= m;
  }

  /** The feasibility score is 0 when no task is counted and otherwise the
      mean of the per-task scores of the counted tasks; it lies in [0, 100]
      and, when some task is counted, even in [30, 100]. */
  lemma {:induction false} FeasibilityIsMean(tasks: seq<Task>, hourlyRate: real)
    ensures CountedTasks(tasks) == 0 ==> Calculate(tasks, hourlyRate).feasibilityScore == 0.0
    ensures CountedTasks(tasks) > 0 ==>
      Calculate(tasks, hourlyRate).feasibilityScore == FeasibilityTotal(tasks) as real / CountedTasks(tasks) as real
    ensures CountedTasks(tasks) > 0 ==> 30.0 <= Calculate(tasks, hourlyRate).feasibilityScore <= 100.0
    ensures 0.0 <= Calculate(tasks, hourlyRate).feasibilityScore <= 100.0
  {
    SumMatchesReference(tasks);
    SumBounds(tasks);
    var t := Sum(tasks);
    if t.count > 0 {
      MeanBounds(t.feasibility, t.count, 30, 100);
    }
  }

  /** The unclamped score already lies in [30, 100], so the clamp to
      [0, 100] never changes it. */
  lemma ClampNeverBinds(system: string, time: real)
    ensures 30 <= RawFeasibility(system, time) <= 100
    ensures TaskFeasibility(system, time) == RawFeasibility(system, time)
  {
  }

  /** With no tasks every total is 0 and both labels are the defaults. */
  lemma EmptyList(hourlyRate: real)
    ensures Calculate([], hourlyRate) == Results(0.0, 0.0, 0.0, TimeSavingGoal, SimpleAutomation)
  {
  }

  /** The `taskCount > 0` conjunct of the consultation rule is implied by
      the goal-counter conjunct, because every counter is bounded by the
      number of counted tasks. */
  lemma {:induction false} ConsultationCountGuardImplied(tasks: seq<Task>)
    ensures var t := Sum(tasks);
      RecommendedSolution(t.count, t.simple, t.custom, t.clientExperience, t.scalability) == ProcessConsultation <==>
        t.custom == 0 && t.simple == 0 && (t.clientExperience > 0 || t.scalability > 0)
  {
    SumBounds(tasks);
  }

  /** A system that earns the simple-tool feasibility bonus also raises the
      simple-solution counter: the second table extends the first. */
  lemma SimpleToolIsSimpleSolution(t: Task)
    requires Counted(t) && ContainsAny(System(t), SimpleToolKeywords)
    ensures Contribution(t).simple == 1
  {
    assert SimpleSolutionKeywords == SimpleToolKeywords + ["make", "airtable"];
    ContainsAnyOfExtension(System(t), SimpleToolKeywords, ["make", "airtable"]);
  }

  /** Upper or lower case in a task's name and system makes no difference. */
  lemma CaseInsensitive(t: Task)
    ensures Contribution(t.(name := Lower(t.name), system := Lower(t.system))) == Contribution(t)
  {
    LowerIdempotent(t.name);
    LowerIdempotent(t.system);
  }
  /** The name only feeds the goal and custom-build keywords: hours,
      feasibility, the count, the time-saving signal and the simple-tool
      signal depend on the system, the time and the frequency alone. */
  lemma NameOnlyAffectsDescriptionSignals(t: Task, name: string)
    ensures var u := t.(name := name);
      Contribution(u).hours == Contribution(t).hours
      && Contribution(u).feasibility == Contribution(t).feasibility
      && Contribution(u).count == Contribution(t).count
      && Contribution(u).timeSaving == Contribution(t).timeSaving
      && Contribution(u).simple == Contribution(t).simple
  {
    var u := t.(name := name);
    assert System(u) == System(t);
  }

  /** The tie-breaks of the goal cascade: client experience wins a tie with
      scalability once it beats time saving, but a goal counter that only
      ties time saving never selects its goal, whatever the third counter. */
  lemma GoalTieBreaks(timeSaving: nat, clientExperience: nat, scalability: nat)
    ensures clientExperience == scalability > timeSaving ==>
      PrimaryGoal(timeSaving, clientExperience, scalability) == ClientExperience
    ensures clientExperience == timeSaving ==>
      PrimaryGoal(timeSaving, clientExperience, scalability) != ClientExperience
    ensures scalability == timeSaving ==>
      PrimaryGoal(timeSaving, clientExperience, scalability) != ScalabilityAndGrowth
    ensures timeSaving == clientExperience == scalability ==>
      PrimaryGoal(timeSaving, clientExperience, scalability) == TimeAndCostSaving
  {
  }

  /** Distinct goals and distinct recommendations show distinct labels, so
      the reported text determines the decision. */
  lemma LabelsDistinct(g: Goal, h: Goal, s: Solution, r: Solution)
    ensures GoalLabel(g) == GoalLabel(h) <==> g == h
    ensures SolutionLabel(s) == SolutionLabel(r) <==> s == r
  {
    assert |TimeSavingGoal| == 18 && |ClientExperienceGoal| == 27 && |ScalabilityGoal| == 20;
    assert |SimpleAutomation| == 35 && |CustomDevelopment| == 30;
    assert |HybridSolution| == 33 && |ProcessReview| == 29;
  }
}
