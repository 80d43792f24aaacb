/** The records the calculator consumes and produces (types/index.ts). */
module Types {

  /** How often a task recurs. The declared type admits only the first four;
      `Other` stands for any other text a form field can deliver, which the
      calculator's `switch` lets fall through with multiplier 0. */
  datatype Frequency = Daily | Weekly | Monthly | Quarterly | Other

  /** The `<select>` value (or any string) read as a frequency. */
  function ParseFrequency(s: string): (f: Frequency)
    ensures f == Daily <==> s == "daily"
    ensures f == Weekly <==> s == "weekly"
    ensures f == Monthly <==> s == "monthly"
    ensures f == Quarterly <==> s == "quarterly"
  {
    if s == "daily" then Daily
    else if s == "weekly" then Weekly
    else if s == "monthly" then Monthly
    else if s == "quarterly" then Quarterly
    else Other
  }

  /** One row of the task list; `time` is minutes per occurrence. */
  datatype Task = Task(id: string, name: string, system: string, time: real, frequency: Frequency)

  /** What one calculation reports. */
  datatype Results = Results(
    totalAnnualHours: real,
    totalSavings: real,
    feasibilityScore: real,
    primaryGoal: string,
    recommendedSolution: string)
}
