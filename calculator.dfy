/** The automation feasibility calculator as one pure specification:
    the keyword tables, the per-task scoring, the accumulated totals and the
    two decision cascades that `calculateResults` in app/page.tsx and in
    _legacy/script.js both carry out. The loops of those two files are in
    modules Page and Legacy and are proved to compute `Calculate`. */
module Calculator {
  import opened Text
  import opened Types

  // Keyword tables. All matching is substring containment on lower-cased text.

  /** Tools whose presence in `system` raises feasibility by 40. */
  const SimpleToolKeywords: seq<string> := ["email", "sheets", "docs", "xero", "quickbooks", "crm", "zapier"]
  /** Hard-to-automate systems, lowering feasibility by 20. */
  const HardSystemKeywords: seq<string> := ["bespoke", "custom software", "paper", "filing"]
  /** Signals, in the combined description, of a client-experience goal. */
  const ClientExperienceKeywords: seq<string> := ["client", "onboard", "form", "portal", "booking", "support", "contact"]
  /** Signals, in the combined description, of a scalability goal. */
  const ScalabilityKeywords: seq<string> := ["sale", "invoice", "ecommerce", "report", "scale", "growth", "data", "marketing"]
  /** Tools in `system` that an off-the-shelf automation can drive. */
  const SimpleSolutionKeywords: seq<string> := ["email", "sheets", "docs", "xero", "quickbooks", "crm", "zapier", "make", "airtable"]
  /** Signals, in the combined description, that custom software is wanted. */
  const CustomSolutionKeywords: seq<string> := ["custom", "bespoke", "portal", "wizard", "dashboard", "web app", "website", "next.js", "wordpress"]

  // The labels the two cascades choose from.

  const TimeSavingGoal: string := "Time & Cost Saving"
  const ClientExperienceGoal: string := "Improving Client Experience"
  const ScalabilityGoal: string := "Scalability & Growth"

  const SimpleAutomation: string := "Simple Automation (Scripts, Zapier)"
  const CustomDevelopment: string := "Custom Application Development"
  const HybridSolution: string := "Hybrid Solution (Simple + Custom)"
  const ProcessReview: string := "Process Review & Consultation"

  /** Occurrences per year; the `switch` leaves 0 for an unknown frequency. */
  function Multiplier(f: Frequency): (m: real)
    ensures m >= 0.0
    ensures m > 0.0 <==> f != Other
  {
    match f
    case Daily => 260.0
    case Weekly => 52.0
    case Monthly => 12.0
    case Quarterly => 4.0
    case Other => 0.0
  }

  /** Hours per year spent on a task taking `time` minutes per occurrence. */
  function AnnualHours(time: real, f: Frequency): real
  {
    (time / 60.0) * Multiplier(f)
  }

  /** `Math.max(0, Math.min(100, x))`. */
  function Clamp(x: int): (r: int)
    ensures 0 <= r <= 100
    ensures 0 <= x <= 100 ==> r == x
    ensures x < 0 ==> r == 0
    ensures x > 100 ==> r == 100
  {
    if x < 0 then 0 else if x > 100 then 100 else x
  }

  /** The feasibility score before clamping: base 50, +40 for a simple tool,
      -20 for a hard-to-automate system, +10 for a task over 30 minutes. */
  function RawFeasibility(system: string, time: real): int
  {
    var score := 50;
    var score := if ContainsAny(system, SimpleToolKeywords) then score + 40 else score;
    var score := if ContainsAny(system, HardSystemKeywords) then score - 20 else score;
    if time > 30.0 then score + 10 else score
  }

  /** The per-task feasibility score added to the running total. */
  function TaskFeasibility(system: string, time: real): (r: int)
    ensures 0 <= r <= 100
  {
    Clamp(RawFeasibility(system, time))
  }

  /** The accumulators of one calculation: total annual hours, summed
      feasibility, counted tasks and the five profile counters. */
  datatype Tally = Tally(
    hours: real,
    feasibility: int,
    count: nat,
    timeSaving: nat,
    clientExperience: nat,
    scalability: nat,
    simple: nat,
    custom: nat)

  const Zero: Tally := Tally(0.0, 0, 0, 0, 0, 0, 0, 0)

  /** Field-wise sum of two tallies. */
  function Plus(a: Tally, b: Tally): Tally
  {
    Tally(a.hours + b.hours, a.feasibility + b.feasibility, a.count + b.count,
          a.timeSaving + b.timeSaving, a.clientExperience + b.clientExperience,
          a.scalability + b.scalability, a.simple + b.simple, a.custom + b.custom)
  }

  function Flag(b: bool): nat
  {
    if b then 1 else 0
  }

  /** Only tasks with a positive time are counted. */
  predicate Counted(t: Task)
  {
    t.time > 0.0
  }

  /** The lower-cased `name + " " + system`, matched by the goal keywords and
      the custom-solution keywords. */
  function Description(t: Task): string
  {
    Lower(t.name) + " " + Lower(t.system)
  }

  /** The lower-cased `system`, matched by the feasibility keywords and the
      simple-solution keywords. */
  function System(t: Task): string
  {
    Lower(t.system)
  }

  /** What one task adds to the accumulators. */
  function Contribution(t: Task): Tally
  {
    if !Counted(t) then Zero
    else
      var hours := AnnualHours(t.time, t.frequency);
      Tally(hours,
            TaskFeasibility(System(t), t.time),
            1,
            Flag(hours > 10.0),
            Flag(ContainsAny(Description(t), ClientExperienceKeywords)),
            Flag(ContainsAny(Description(t), ScalabilityKeywords)),
            Flag(ContainsAny(System(t), SimpleSolutionKeywords)),
            Flag(ContainsAny(Description(t), CustomSolutionKeywords)))
  }

  /** The accumulators after visiting `tasks` in order, as the `forEach` does. */
  function Sum(tasks: seq<Task>): Tally
  {
    if tasks == [] then Zero
    else Plus(Sum(tasks[..|tasks| - 1]), Contribution(tasks[|tasks| - 1]))
  }

  /** The primary goals the profile can name. */
  datatype Goal = TimeAndCostSaving | ClientExperience | ScalabilityAndGrowth

  /** The recommendations the profile can make. */
  datatype Solution = SimpleScripts | CustomApplication | Hybrid | ProcessConsultation

  /** The text shown for each goal. */
  function GoalLabel(g: Goal): string
  {
    match g
    case TimeAndCostSaving => TimeSavingGoal
    case ClientExperience => ClientExperienceGoal
    case ScalabilityAndGrowth => ScalabilityGoal
  }

  /** The text shown for each recommendation. */
  function SolutionLabel(s: Solution): string
  {
    match s
    case SimpleScripts => SimpleAutomation
    case CustomApplication => CustomDevelopment
    case Hybrid => HybridSolution
    case ProcessConsultation => ProcessReview
  }

  /** The primary-goal cascade: default, then client experience, then
      scalability, first match wins. */
  function PrimaryGoal(timeSaving: nat, clientExperience: nat, scalability: nat): (g: Goal)
    ensures g == ClientExperience <==> clientExperience > timeSaving && clientExperience >= scalability
    ensures g == ScalabilityAndGrowth <==> scalability > timeSaving && scalability > clientExperience
  {
    if clientExperience > timeSaving && clientExperience >= scalability then ClientExperience
    else if scalability > timeSaving && scalability > clientExperience then ScalabilityAndGrowth
    else TimeAndCostSaving
  }

  /** The recommended-solution cascade, first match wins. */
  function RecommendedSolution(count: nat, simple: nat, custom: nat, clientExperience: nat, scalability: nat): (s: Solution)
    ensures s == CustomApplication <==> custom > simple
    ensures s == Hybrid <==> 0 < custom <= simple
    ensures s == ProcessConsultation <==> count > 0 && custom == 0 && simple == 0 && (clientExperience > 0 || scalability > 0)
    ensures s == SimpleScripts <==> custom == 0 && (simple > 0 || count == 0 || (clientExperience == 0 && scalability == 0))
  {
    if custom > simple then CustomApplication
    else if custom > 0 && simple > 0 then Hybrid
    else if count > 0 && custom == 0 && simple == 0 && (clientExperience > 0 || scalability > 0) then ProcessConsultation
    else SimpleScripts
  }

  /** Mean feasibility over the counted tasks, 0 when none was counted. */
  function Average(total: int, count: nat): real
  {
    if count > 0 then total as real / count as real else 0.0
  }

  /** The final metrics and labels computed from the accumulators. */
  function Report(t: Tally, hourlyRate: real): Results
  {
    Results(t.hours,
            t.hours * hourlyRate,
            Average(t.feasibility, t.count),
            GoalLabel(PrimaryGoal(t.timeSaving, t.clientExperience, t.scalability)),
            SolutionLabel(RecommendedSolution(t.count, t.simple, t.custom, t.clientExperience, t.scalability)))
  }

  /** The calculator: the report over all tasks at the given hourly rate. */
  function Calculate(tasks: seq<Task>, hourlyRate: real): Results
  {
    Report(Sum(tasks), hourlyRate)
  }
}
