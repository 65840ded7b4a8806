/**
 * The contribution schedule (core/calendar.py): which trading days are
 * contribution days, and how a monthly amount is rescaled per contribution.
 */
module Calendar {
  import opened Wrappers
  import opened Models

  predicate IsSchedule(schedule: string) {
    schedule == "daily" || schedule == "weekly" || schedule == "monthly"
  }

  /** The calendar periods a schedule can group trading days by. */
  datatype Period = Week | Month

  /** Weeks run Monday to Sunday; day -3 (1969-12-29) is the Monday of week 0. */
  function WeekKey(d: Date): (w: int)
    ensures 7 * w - 3 <= d <= 7 * w + 3
  {
    (d + 3) / 7
  }

  /** Year of the 400-year era and day of that year, both counted from March 1 (doe: day of era). */
  function YearOfEra(doe: int): int {
    (doe - doe / 1460 + doe / 36524 - doe / 146096) / 365
  }

  function DayOfYear(doe: int, yoe: int): int {
    doe - (365 * yoe + yoe / 4 - yoe / 100)
  }

  /** year * 12 + (month - 1) of the proleptic Gregorian date of day number d. */
  function MonthKey(d: Date): int {
    var z := d + 719468;             // days since 0000-03-01
    var era := z / 146097;           // 400-year eras, rounded down
    var doe := z - era * 146097;     // day of era, 0 .. 146096
    var yoe := YearOfEra(doe);
    var mp := (5 * DayOfYear(doe, yoe) + 2) / 153;  // month counted from March, 0 .. 11
    var month := if mp < 10 then mp + 3 else mp - 9;
    var year := yoe + era * 400 + (if month <= 2 then 1 else 0);
    year * 12 + (month - 1)
  }

  function PeriodKey(per: Period, d: Date): int {
    match per
    case Week => WeekKey(d)
    case Month => MonthKey(d)
  }

  /** d is the latest of the given days that falls in d's own period. */
  predicate IsPeriodEnd(days: seq<Date>, per: Period, d: Date) {
    forall e :: e in days && PeriodKey(per, e) == PeriodKey(per, d) ==> e <= d
  }

  /** The days of `rest`, in order, that are the last of `all` in their period. */
  function PeriodEndsOf(all: seq<Date>, rest: seq<Date>, per: Period): (r: seq<Date>)
    ensures forall d :: d in r <==> d in rest && IsPeriodEnd(all, per, d)
  {
    if rest == [] then []
    else
      (if IsPeriodEnd(all, per, rest[0]) then [rest[0]] else [])
      + PeriodEndsOf(all, rest[1..], per)
  }

  /** The last trading day of every period that has one. */
  function PeriodEnds(days: seq<Date>, per: Period): seq<Date> {
    PeriodEndsOf(days, days, per)
  }

  /**
   * Reference for a group-by-period maximum: the largest of d and of the
   * days that share d's period.
   */
  function GroupMax(days: seq<Date>, per: Period, d: Date): (r: Date)
    ensures r == d || r in days
    ensures PeriodKey(per, r) == PeriodKey(per, d)
    ensures d <= r
    ensures forall e :: e in days && PeriodKey(per, e) == PeriodKey(per, d) ==> e <= r
  {
    if days == [] then d
    else
      var rest := GroupMax(days[1..], per, d);
      if PeriodKey(per, days[0]) == PeriodKey(per, d) && days[0] > rest then days[0] else rest
  }

  /** The contribution days of a schedule, or InvalidSchedule for an unknown one. */
  function MakeContributionDates(days: seq<Date>, schedule: string): (r: Result<seq<Date>, Error>)
    ensures r.Err? <==> !IsSchedule(schedule)
    ensures r.Err? ==> r.error == InvalidSchedule
    ensures schedule == "daily" ==> r == Ok(days)
    ensures schedule == "weekly" ==> r == Ok(PeriodEnds(days, Week))
    ensures schedule == "monthly" ==> r == Ok(PeriodEnds(days, Month))
    ensures r.Ok? ==> forall d :: d in r.value ==> d in days
  {
    if schedule == "daily" then Ok(days)
    else if schedule == "weekly" then Ok(PeriodEnds(days, Week))
    else if schedule == "monthly" then Ok(PeriodEnds(days, Month))
    else Err(InvalidSchedule)
  }

  /** Contribution events per year: the divisor the monthly amount is spread over. */
  function EventsPerYear(schedule: string): real
    requires IsSchedule(schedule)
  {
    if schedule == "monthly" then 12.0 else if schedule == "weekly" then 52.0 else 252.0
  }

  /** The per-contribution amount that keeps the annual total at 12 monthly amounts. */
  function ScaleAmountForSchedule(monthlyAmount: real, schedule: string): (r: Result<real, Error>)
    ensures r.Err? <==> !IsSchedule(schedule)
    ensures r.Err? ==> r.error == InvalidSchedule
    ensures r.Ok? ==> r.value * EventsPerYear(schedule) == 12.0 * monthlyAmount
  {
    if schedule == "monthly" then Ok(monthlyAmount)
    else if schedule == "weekly" then Ok(monthlyAmount * 12.0 / 52.0)
    else if schedule == "daily" then Ok(monthlyAmount * 12.0 / 252.0)
    else Err(InvalidSchedule)
  }

  /** Weekly and monthly schedules keep exactly the group-by-period maxima of the input. */
  lemma PeriodEndsAreGroupMaxima(days: seq<Date>, per: Period)
    ensures forall d :: d in days ==> GroupMax(days, per, d) in PeriodEnds(days, per)
    ensures forall r :: r in PeriodEnds(days, per) ==> r == GroupMax(days, per, r)
  {
    forall d | d in days
      ensures GroupMax(days, per, d) in PeriodEnds(days, per)
    {
      var g := GroupMax(days, per, d);
      assert IsPeriodEnd(days, per, g);
    }
    forall r | r in PeriodEnds(days, per)
      ensures r == GroupMax(days, per, r)
    {
      var g := GroupMax(days, per, r);
      assert g in days;
    }
  }

  /** Every period present in the input has a contribution day in it, no earlier than any of its days. */
  lemma EveryPeriodHasAnEnd(days: seq<Date>, per: Period, d: Date)
    requires d in days
    ensures exists r :: r in PeriodEnds(days, per) && PeriodKey(per, r) == PeriodKey(per, d) && d <= r
  {
    PeriodEndsAreGroupMaxima(days, per);
    var g := GroupMax(days, per, d);
    assert g in PeriodEnds(days, per);
  }

  /** No period has two contribution days. */
  lemma OneEndPerPeriod(days: seq<Date>, per: Period, r1: Date, r2: Date)
    requires r1 in PeriodEnds(days, per) && r2 in PeriodEnds(days, per)
    requires PeriodKey(per, r1) == PeriodKey(per, r2)
    ensures r1 == r2
  {
  }

  /** On sorted input the final trading day is always a contribution day. */
  lemma LastTradingDayIsPeriodEnd(days: seq<Date>, per: Period)
    requires |days| > 0 && Sorted(days)
    ensures days[|days| - 1] in PeriodEnds(days, per)
  {
    var last := days[|days| - 1];
    forall e | e in days && PeriodKey(per, e) == PeriodKey(per, last)
      ensures e <= last
    {
      var j :| 0 <= j < |days| && days[j] == e;
    }
  }

  /** For every schedule, sorted non-empty input keeps its last trading day. */
  lemma ContributionDatesKeepLastDay(days: seq<Date>, schedule: string)
    requires |days| > 0 && Sorted(days) && IsSchedule(schedule)
    ensures days[|days| - 1] in MakeContributionDates(days, schedule).value
  {
    if schedule == "weekly" {
      LastTradingDayIsPeriodEnd(days, Week);
    } else if schedule == "monthly" {
      LastTradingDayIsPeriodEnd(days, Month);
    }
  }

  /** 52 weekly, 252 daily or 12 monthly contributions add up to the same annual total. */
  lemma AnnualTotalInvariant(monthlyAmount: real)
    ensures 52.0 * ScaleAmountForSchedule(monthlyAmount, "weekly").value
         == 252.0 * ScaleAmountForSchedule(monthlyAmount, "daily").value
    ensures 252.0 * ScaleAmountForSchedule(monthlyAmount, "daily").value
         == 12.0 * ScaleAmountForSchedule(monthlyAmount, "monthly").value
  {
  }

  /** The rescaling is linear (so zero maps to zero) and monotone in the monthly amount. */
  lemma ScaleAmountLinearMonotone(a: real, b: real, c: real, schedule: string)
    requires IsSchedule(schedule)
    ensures ScaleAmountForSchedule(a + b, schedule).value
         == ScaleAmountForSchedule(a, schedule).value + ScaleAmountForSchedule(b, schedule).value
    ensures ScaleAmountForSchedule(c * a, schedule).value == c * ScaleAmountForSchedule(a, schedule).value
    ensures ScaleAmountForSchedule(0.0, schedule).value == 0.0
    ensures a <= b ==> ScaleAmountForSchedule(a, schedule).value <= ScaleAmountForSchedule(b, schedule).value
  {
  }

  /** Week 0 runs from Monday 1969-12-29 (day -3) to Sunday 1970-01-04 (day 3). */
  lemma WeekKeyAnchors()
    ensures WeekKey(-3) == WeekKey(3) == 0 && WeekKey(-4) == -1 && WeekKey(4) == 1
  {
  }

  /** 1970-01-31 (day 30) falls in January 1970. */
  lemma MonthKeyJanuary()
    ensures MonthKey(30) == 1970 * 12
  {
    assert 719498 / 146097 == 4;
    assert YearOfEra(135110) == 369;
    assert DayOfYear(135110, 369) == 336;
    assert (5 * 336 + 2) / 153 == 10;
  }

  /** 1970-02-01 (day 31) falls in February 1970. */
  lemma MonthKeyFebruary()
    ensures MonthKey(31) == 1970 * 12 + 1
  {
    assert 719499 / 146097 == 4;
    assert YearOfEra(135111) == 369;
    assert DayOfYear(135111, 369) == 337;
    assert (5 * 337 + 2) / 153 == 11;
  }

  /** 2000-02-29 (day 11016), the last day of a 400-year era, falls in February 2000. */
  lemma MonthKeyLeapDay()
    ensures MonthKey(11016) == 2000 * 12 + 1
  {
    assert 730484 / 146097 == 4;
    assert 730484 - 4 * 146097 == 146096;
    assert YearOfEra(146096) == 399;
    assert DayOfYear(146096, 399) == 365;
    assert (5 * 365 + 2) / 153 == 11;
  }
}
