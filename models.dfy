/** The plain records shared by the calendar and the engine (core/models.py). */
module Models {
  /** A trading date, as a day number counted from 1970-01-01 (day 0, a Thursday). */
  type Date = int

  /** Dates in non-decreasing order. */
  predicate Sorted(s: seq<Date>) {
    forall i, j :: 0 <= i <= j < |s| ==> s[i] <= s[j]
  }

  /** Dates in strictly increasing order: sorted, with no date repeated. */
  predicate StrictlyIncreasing(s: seq<Date>) {
    forall i, j :: 0 <= i < j < |s| ==> s[i] < s[j]
  }

  /** The failures the core raises; each corresponds to a `ValueError` of the source. */
  datatype Error =
    | InvalidSchedule  // schedule is not daily, weekly or monthly
    | ConfigMismatch   // thresholds_pct and deploy_fractions differ in length
    | InvalidWindow    // the rolling window is shorter than one observation

  /** What a backtest reports, derived from the terminal state of both strategies. */
  datatype BacktestSummary = BacktestSummary(
    totalContributed: real,
    sipFinal: real,
    dipFinal: real,
    sipXirr: real,
    dipXirr: real,
    alphaXirr: real,
    sipTrades: int,
    dipTrades: int)
}
