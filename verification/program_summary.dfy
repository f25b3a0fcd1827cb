/** `ProgramSummary`: the figures the calculator derives from a program. */
module Summaries {
  import opened Calendar

  /**
   * `start`/`end` are the normalised range; `minutesByMonth` is keyed by
   * calendar month and `minutesByWeek` by program week, week 1 beginning at
   * `start`. Java's TreeMaps iterate in key order, which a Dafny map leaves to
   * the keys themselves.
   */
  datatype ProgramSummary = ProgramSummary(
    start: Date,
    end: Date,
    selectedDays: int,
    totalMinutes: int,
    weeksInRange: int,
    weeksWithTraining: int,
    minutesByMonth: map<YearMonth, int>,
    minutesByWeek: map<int, int>)
}
