/**
 * The backtest engine (core/engine.py): price-series normalisation, rolling
 * high and drawdown, the drawdown band, and the day-by-day simulation of the
 * Standard SIP and the Dip-SIP strategies.
 *
 * Each day is specified by the function StepDay; SimAfter(m, p, n) is the state
 * of both strategies and the ledger after the first n trading days. The method
 * RunBacktest runs the source's loop over mutable locals and is proved equal to
 * the specification BacktestOf; the properties of the simulation are lemmas about
 * SimAfter in module EngineProperties.
 */
module Engine {
  import opened Wrappers
  import opened Models
  import Calendar

  // ---------------------------------------------------------------- price series

  /** One input row: a date and a close that may be missing. */
  datatype RawRow = RawRow(date: Date, close: Option<real>)

  datatype PricePoint = PricePoint(date: Date, price: real)

  function Dates(s: seq<PricePoint>): (r: seq<Date>)
    ensures |r| == |s| && forall i :: 0 <= i < |s| ==> r[i] == s[i].date
  {
    seq(|s|, i requires 0 <= i < |s| => s[i].date)
  }

  function Closes(s: seq<PricePoint>): (r: seq<real>)
    ensures |r| == |s| && forall i :: 0 <= i < |s| ==> r[i] == s[i].price
  {
    seq(|s|, i requires 0 <= i < |s| => s[i].price)
  }

  predicate RowsSorted(rows: seq<RawRow>) {
    forall i, j :: 0 <= i <= j < |rows| ==> rows[i].date <= rows[j].date
  }

  predicate PointsSorted(ps: seq<PricePoint>) {
    forall i, j :: 0 <= i <= j < |ps| ==> ps[i].date <= ps[j].date
  }

  predicate PointsStrictlyIncreasing(ps: seq<PricePoint>) {
    forall i, j :: 0 <= i < j < |ps| ==> ps[i].date < ps[j].date
  }

  /** The number of rows before index i whose close is present. */
  function PresentBefore(rows: seq<RawRow>, i: nat): (k: nat)
    requires i <= |rows|
    ensures k <= i
  {
    if i == 0 then 0 else PresentBefore(rows, i - 1) + (if rows[i - 1].close.Some? then 1 else 0)
  }

  /** Counting present rows before i looks only at the rows before i. */
  lemma {:induction false} PresentBeforePrefix(rows: seq<RawRow>, n: nat, i: nat)
    requires i <= n <= |rows|
    ensures PresentBefore(rows[..n], i) == PresentBefore(rows, i)
  {
    if i > 0 {
      PresentBeforePrefix(rows, n, i - 1);
      assert rows[..n][i - 1] == rows[i - 1];
    }
  }

  /**
   * The rows whose close is present, in input order: the present row i is
   * point number PresentBefore(rows, i), and every point is such a row.
   */
  function DropMissing(rows: seq<RawRow>): (r: seq<PricePoint>)
    ensures |r| == PresentBefore(rows, |rows|)
    ensures forall i :: 0 <= i < |rows| && rows[i].close.Some? ==>
      PresentBefore(rows, i) < |r| && r[PresentBefore(rows, i)] == PricePoint(rows[i].date, rows[i].close.value)
  {
    if rows == [] then []
    else
      var n := |rows| - 1;
      var rest := DropMissing(rows[..n]);
      PresentBeforePrefix(rows, n, n);
      forall i | 0 <= i < n ensures PresentBefore(rows[..n], i) == PresentBefore(rows, i) {
        PresentBeforePrefix(rows, n, i);
      }
      assert forall i :: 0 <= i < n ==> rows[..n][i] == rows[i];
      match rows[n].close
      case None => rest
      case Some(c) => rest + [PricePoint(rows[n].date, c)]
  }

  /** Every point of DropMissing(rows) is a present row. */
  lemma {:induction false} DropMissingCovers(rows: seq<RawRow>, a: nat)
    requires a < |DropMissing(rows)|
    ensures exists i :: 0 <= i < |rows| && rows[i].close.Some? && PresentBefore(rows, i) == a
  {
    var n := |rows| - 1;
    if a < PresentBefore(rows, n) {
      PresentBeforePrefix(rows, n, n);
      DropMissingCovers(rows[..n], a);
      var i :| 0 <= i < n && rows[..n][i].close.Some? && PresentBefore(rows[..n], i) == a;
      PresentBeforePrefix(rows, n, i);
      assert rows[i] == rows[..n][i];
    } else {
      assert rows[n].close.Some? && PresentBefore(rows, n) == a;
    }
  }

  /** Of each run of equal dates keep the last point. */
  function DedupKeepLast(ps: seq<PricePoint>): (r: seq<PricePoint>)
    ensures forall q :: q in r ==> q in ps
  {
    if |ps| <= 1 then ps
    else if ps[0].date == ps[1].date then DedupKeepLast(ps[1..])
    else [ps[0]] + DedupKeepLast(ps[1..])
  }

  /**
   * The normalised series: missing closes dropped, then one point per date,
   * the last one. The input is taken in date order.
   */
  function NormalizePriceSeries(rows: seq<RawRow>): (r: seq<PricePoint>)
    requires RowsSorted(rows)
    ensures forall q :: q in r ==> exists i :: 0 <= i < |rows| && rows[i].date == q.date && rows[i].close == Some(q.price)
  {
    var ps := DropMissing(rows);
    forall q | q in DedupKeepLast(ps)
      ensures exists i :: 0 <= i < |rows| && rows[i].date == q.date && rows[i].close == Some(q.price)
    {
      var a :| 0 <= a < |ps| && ps[a] == q;
      DropMissingCovers(rows, a);
    }
    DedupKeepLast(ps)
  }

  // ---------------------------------------------------------- rolling high

  /** The largest element of a non-empty window. */
  function WindowMax(s: seq<real>): (r: real)
    requires |s| > 0
    ensures forall k :: 0 <= k < |s| ==> s[k] <= r
    ensures exists k :: 0 <= k < |s| && s[k] == r
  {
    if |s| == 1 then s[0]
    else
      var rest := WindowMax(s[1..]);
      assert forall k :: 1 <= k < |s| ==> s[k] == s[1..][k - 1];
      if s[0] >= rest then s[0] else rest
  }

  /** First index of the trailing window of `lookback` observations ending at i, clipped at 0. */
  function WindowStart(i: nat, lookback: int): nat {
    if i + 1 - lookback < 0 then 0 else i + 1 - lookback
  }

  datatype Drawdowns = Drawdowns(dd: seq<real>, rollMax: seq<real>)

  predicate AllPositive(prices: seq<real>) {
    forall i :: 0 <= i < |prices| ==> prices[i] > 0.0
  }

  /** Drawdown in percent of a price below its rolling high. */
  function DrawdownPct(price: real, high: real): real
    requires high > 0.0
  {
    (price / high - 1.0) * 100.0
  }

  /** The maximum of the trailing window of `lookback` prices ending at day i. */
  function RollingHigh(prices: seq<real>, lookback: int, i: nat): (r: real)
    requires lookback >= 1 && i < |prices|
    ensures forall k :: WindowStart(i, lookback) <= k <= i ==> prices[k] <= r
  {
    var lo := WindowStart(i, lookback);
    var w := prices[lo..i + 1];
    assert forall k :: lo <= k <= i ==> prices[k] == w[k - lo];
    WindowMax(w)
  }

  /** The rolling high is one of the prices of its window. */
  lemma RollingHighAttained(prices: seq<real>, lookback: int, i: nat)
    requires lookback >= 1 && i < |prices|
    ensures exists k :: WindowStart(i, lookback) <= k <= i && prices[k] == RollingHigh(prices, lookback, i)
  {
    var lo := WindowStart(i, lookback);
    var w := prices[lo..i + 1];
    var j :| 0 <= j < |w| && w[j] == WindowMax(w);
    assert prices[lo + j] == w[j];
  }

  /**
   * Rolling maximum over the trailing window (at least one observation) and
   * the drawdown from it; a window shorter than one observation is refused.
   */
  function DrawdownFromRollingHigh(prices: seq<real>, lookback: int): (r: Result<Drawdowns, Error>)
    requires AllPositive(prices)
    ensures r.Err? <==> lookback < 1
    ensures r.Err? ==> r.error == InvalidWindow
    ensures r.Ok? ==> |r.value.dd| == |prices| && |r.value.rollMax| == |prices|
  {
    if lookback < 1 then Err(InvalidWindow)
    else
      var high := seq(|prices|, i requires 0 <= i < |prices| => RollingHigh(prices, lookback, i));
      assert forall i :: 0 <= i < |prices| ==> high[i] >= prices[i] > 0.0;
      Ok(Drawdowns(seq(|prices|, i requires 0 <= i < |prices| => DrawdownPct(prices[i], high[i])), high))
  }

  /**
   * Day i's rolling high is the maximum of its window, at least that day's
   * price, and the drawdown is the percentage of the price below it.
   */
  lemma DrawdownAt(prices: seq<real>, lookback: int, i: nat)
    requires AllPositive(prices) && lookback >= 1 && i < |prices|
    ensures var r := DrawdownFromRollingHigh(prices, lookback).value;
      && r.rollMax[i] == RollingHigh(prices, lookback, i)
      && r.rollMax[i] >= prices[i]
      && r.dd[i] == DrawdownPct(prices[i], r.rollMax[i])
  {
  }

  // ---------------------------------------------------------- drawdown band

  /**
   * The band a drawdown falls in: the last index, in list order, whose
   * threshold the drawdown breaches (dd <= -threshold), or -1 for none.
   */
  function Band(thresholds: seq<real>, dd: real): (level: int)
    ensures -1 <= level < |thresholds|
    ensures level >= 0 ==> dd <= -thresholds[level]
    ensures forall j :: level < j < |thresholds| ==> dd > -thresholds[j]
  {
    if |thresholds| == 0 then -1
    else if dd <= -thresholds[|thresholds| - 1] then |thresholds| - 1
    else Band(thresholds[..|thresholds| - 1], dd)
  }

  /** The source's scan over the thresholds, keeping the last index breached. */
  method BandFromDd(thresholds: seq<real>, dd: real) returns (level: int)
    ensures level == Band(thresholds, dd)
  {
    level := -1;
    for i := 0 to |thresholds|
      invariant level == Band(thresholds[..i], dd)
    {
      if dd <= -thresholds[i] {
        level := i;
      }
      assert thresholds[..i + 1][..i] == thresholds[..i];
    }
    assert thresholds[..|thresholds|] == thresholds;
  }

  // ---------------------------------------------------------- simulation state

  datatype Cashflow = Cashflow(date: Date, amount: real)

  /** One ledger row per trading day, in the source's column order. */
  datatype LedgerRow = LedgerRow(
    date: Date,
    price: real,
    rollingHigh: real,
    drawdownPct: real,
    contribution: real,
    sipBuy: real,
    dipBaseBuy: real,
    dipTriggerBuy: real,
    dipCash: real,
    sipValue: real,
    dipValue: real)

  /**
   * The engine's configuration. dailyGrowth is the per-calendar-day growth
   * factor of held cash, (1 + cash_rate_annual) ** (1 / 365.25).
   */
  datatype Params = Params(
    schedule: string,
    amountPerContrib: real,
    lookbackDays: int,
    baseFraction: real,
    thresholdsPct: seq<real>,
    deployFractions: seq<real>,
    allowDailyDipBuys: bool,
    transactionCostBps: real,
    dailyGrowth: real)

  datatype SipState = SipState(units: real, total: real, trades: nat, cfs: seq<Cashflow>)

  /** minBand is the deepest band entered since the last re-arm, -1 for none. */
  datatype DipState = DipState(units: real, cash: real, total: real, trades: nat, cfs: seq<Cashflow>, minBand: int)

  datatype Sim = Sim(sip: SipState, dip: DipState, rows: seq<LedgerRow>)

  /** The precomputed inputs of the daily loop. */
  datatype Market = Market(dates: seq<Date>, prices: seq<real>, rollMax: seq<real>, dd: seq<real>, contrib: set<Date>)

  predicate ValidMarket(m: Market) {
    && |m.dates| > 0
    && |m.prices| == |m.dates| && |m.rollMax| == |m.dates| && |m.dd| == |m.dates|
    && StrictlyIncreasing(m.dates)
    && AllPositive(m.prices)
  }

  predicate ValidParams(p: Params) {
    |p.thresholdsPct| == |p.deployFractions|
  }

  /** A drawdown at or above this (i.e. a fresh rolling high) re-arms the bands. */
  const RearmTolerance: real := 0.000000000001

  function Pow(x: real, n: nat): (r: real)
    ensures x >= 0.0 ==> r >= 0.0
  {
    if n == 0 then 1.0 else x * Pow(x, n - 1)
  }

  /** Units bought with `amount` at `price` after a fee of `bps` basis points. */
  function NetUnits(amount: real, bps: real, price: real): real
    requires price > 0.0
  {
    (amount - amount * (bps / 10000.0)) / price
  }

  function InitialSim(): Sim {
    Sim(SipState(0.0, 0.0, 0, []), DipState(0.0, 0.0, 0.0, 0, [], -1), [])
  }

  /** The date processed before day i (day 0 counts as its own predecessor). */
  function PrevDate(m: Market, i: nat): Date
    requires i < |m.dates|
  {
    if i == 0 then m.dates[0] else m.dates[i - 1]
  }

  function Contribution(m: Market, p: Params, i: nat): real
    requires i < |m.dates|
  {
    if m.dates[i] in m.contrib then p.amountPerContrib else 0.0
  }

  function SipDay(s: SipState, d: Date, price: real, contribution: real, bps: real): SipState
    requires price > 0.0
  {
    if contribution > 0.0 then
      SipState(s.units + NetUnits(contribution, bps, price), s.total + contribution, s.trades + 1,
               s.cfs + [Cashflow(d, -contribution)])
    else s
  }

  /** Held cash compounds over the elapsed calendar days, only when positive. */
  function Accrue(s: DipState, growth: real, days: int): (r: DipState)
    ensures r.units == s.units && r.total == s.total && r.trades == s.trades && r.cfs == s.cfs && r.minBand == s.minBand
    ensures days <= 0 || s.cash <= 0.0 ==> r.cash == s.cash
    ensures growth >= 0.0 && s.cash >= 0.0 ==> r.cash >= 0.0
  {
    if days > 0 && s.cash > 0.0 then s.(cash := s.cash * Pow(growth, days)) else s
  }

  function Deposit(s: DipState, d: Date, contribution: real): DipState {
    if contribution > 0.0 then
      s.(cash := s.cash + contribution, total := s.total + contribution, cfs := s.cfs + [Cashflow(d, -contribution)])
    else s
  }

  function Rearm(s: DipState, dd: real): DipState {
    if dd >= -RearmTolerance then s.(minBand := -1) else s
  }

  /** Move `amount` of held cash into units, one trade. */
  function Purchase(s: DipState, amount: real, bps: real, price: real): DipState
    requires price > 0.0
  {
    s.(units := s.units + NetUnits(amount, bps, price), cash := s.cash - amount, trades := s.trades + 1)
  }

  predicate BaseFires(p: Params, s: DipState, contribution: real) {
    contribution > 0.0 && p.baseFraction > 0.0 && s.cash > 0.0
  }

  function BaseAmount(p: Params, s: DipState, contribution: real): real {
    if BaseFires(p, s, contribution) then s.cash * p.baseFraction else 0.0
  }

  predicate ActionDay(m: Market, p: Params, i: nat)
    requires i < |m.dates|
  {
    p.allowDailyDipBuys || m.dates[i] in m.contrib
  }

  predicate TriggerFires(p: Params, s: DipState, actionDay: bool, dd: real) {
    actionDay && s.cash > 0.0 && Band(p.thresholdsPct, dd) > s.minBand
  }

  function TriggerAmount(p: Params, s: DipState, actionDay: bool, dd: real): real
    requires ValidParams(p) && s.minBand >= -1
  {
    if TriggerFires(p, s, actionDay, dd) then s.cash * p.deployFractions[Band(p.thresholdsPct, dd)] else 0.0
  }

  /** The baseline buy: a fraction of held cash, on a contribution day. */
  function BaseStep(p: Params, s: DipState, contribution: real, price: real): DipState
    requires price > 0.0
  {
    if BaseFires(p, s, contribution) then
      Purchase(s, BaseAmount(p, s, contribution), p.transactionCostBps, price)
    else s
  }

  /** The trigger buy: a band's fraction of held cash, on entering a deeper band. */
  function TriggerStep(p: Params, s: DipState, actionDay: bool, dd: real, price: real): DipState
    requires ValidParams(p) && s.minBand >= -1 && price > 0.0
  {
    if TriggerFires(p, s, actionDay, dd) then
      Purchase(s, TriggerAmount(p, s, actionDay, dd), p.transactionCostBps, price).(minBand := Band(p.thresholdsPct, dd))
    else s
  }

  /** Dip-SIP on day i before its trigger buy: accrual, deposit, re-arm, baseline buy. */
  function DipBeforeTrigger(m: Market, p: Params, s: DipState, i: nat): DipState
    requires ValidMarket(m) && i < |m.dates|
  {
    var contribution := Contribution(m, p, i);
    BaseStep(p, Rearm(Deposit(Accrue(s, p.dailyGrowth, m.dates[i] - PrevDate(m, i)), m.dates[i], contribution), m.dd[i]),
             contribution, m.prices[i])
  }

  /** Dip-SIP at the end of day i. */
  function DipDay(m: Market, p: Params, s: DipState, i: nat): DipState
    requires ValidMarket(m) && ValidParams(p) && i < |m.dates| && s.minBand >= -1
  {
    TriggerStep(p, DipBeforeTrigger(m, p, s, i), ActionDay(m, p, i), m.dd[i], m.prices[i])
  }

  /** Market value of the Standard SIP's holding. */
  function SipValue(s: SipState, price: real): real {
    s.units * price
  }

  /** Market value of the Dip-SIP: its holding plus its held cash. */
  function DipValue(s: DipState, price: real): real {
    s.units * price + s.cash
  }

  /** Both strategies at the end of trading day i, and that day's ledger row. */
  datatype DayResult = DayResult(sip: SipState, dip: DipState, row: LedgerRow)

  function StepDay(m: Market, p: Params, sip: SipState, dip: DipState, i: nat): (r: DayResult)
    requires ValidMarket(m) && ValidParams(p) && i < |m.dates| && dip.minBand >= -1
    // the row records the day's market data and contribution
    ensures r.row.date == m.dates[i] && r.row.price == m.prices[i]
    ensures r.row.rollingHigh == m.rollMax[i] && r.row.drawdownPct == m.dd[i]
    ensures r.row.contribution == Contribution(m, p, i)
    ensures r.row.sipBuy == (if Contribution(m, p, i) > 0.0 then Contribution(m, p, i) else 0.0)
    // the Standard SIP invests exactly the day's sip_buy, as one trade
    ensures r.sip.units == sip.units + NetUnits(r.row.sipBuy, p.transactionCostBps, m.prices[i])
    ensures r.sip.total == sip.total + r.row.sipBuy
    ensures r.sip.trades == sip.trades + (if r.row.sipBuy > 0.0 then 1 else 0)
    ensures r.sip.cfs == sip.cfs + (if r.row.sipBuy > 0.0 then [Cashflow(m.dates[i], -r.row.sipBuy)] else [])
    // the baseline buy invests base_fraction of the accrued cash plus the deposit, on a contribution day
    ensures r.row.dipBaseBuy
         == BaseAmount(p, Rearm(Deposit(Accrue(dip, p.dailyGrowth, m.dates[i] - PrevDate(m, i)), m.dates[i], Contribution(m, p, i)), m.dd[i]),
                       Contribution(m, p, i))
    // the trigger buy deploys the breached band's fraction of the cash left after the baseline buy
    ensures r.row.dipTriggerBuy == TriggerAmount(p, DipBeforeTrigger(m, p, dip, i), ActionDay(m, p, i), m.dd[i])
    // the Dip-SIP's cash: accrued cash plus the deposit less both buys, all of it into units
    ensures r.dip == DipDay(m, p, dip, i)
    ensures r.dip.cash == Accrue(dip, p.dailyGrowth, m.dates[i] - PrevDate(m, i)).cash
                          + r.row.sipBuy - r.row.dipBaseBuy - r.row.dipTriggerBuy
    ensures r.dip.units == dip.units + NetUnits(r.row.dipBaseBuy, p.transactionCostBps, m.prices[i])
                           + NetUnits(r.row.dipTriggerBuy, p.transactionCostBps, m.prices[i])
    // the closing columns value the new states at the day's price
    ensures r.row.dipCash == r.dip.cash
    ensures r.row.sipValue == SipValue(r.sip, m.prices[i]) && r.row.dipValue == DipValue(r.dip, m.prices[i])
  {
    var d, price := m.dates[i], m.prices[i];
    var contribution := Contribution(m, p, i);
    var sip' := SipDay(sip, d, price, contribution, p.transactionCostBps);
    var accrued := Accrue(dip, p.dailyGrowth, d - PrevDate(m, i));
    var rearmed := Rearm(Deposit(accrued, d, contribution), m.dd[i]);
    var base := BaseAmount(p, rearmed, contribution);
    var before := DipBeforeTrigger(m, p, dip, i);
    var trigger := TriggerAmount(p, before, ActionDay(m, p, i), m.dd[i]);
    var dip' := DipDay(m, p, dip, i);
    assert rearmed.cash == accrued.cash + (if contribution > 0.0 then contribution else 0.0);
    assert rearmed.units == dip.units;
    assert before.cash == rearmed.cash - base;
    assert before.units == rearmed.units + NetUnits(base, p.transactionCostBps, price);
    assert dip'.cash == before.cash - trigger;
    assert dip'.units == before.units + NetUnits(trigger, p.transactionCostBps, price);
    var row := LedgerRow(
      d, price, m.rollMax[i], m.dd[i], contribution,
      if contribution > 0.0 then contribution else 0.0,
      base, trigger, dip'.cash, SipValue(sip', price), DipValue(dip', price));
    DayResult(sip', dip', row)
  }

  /** The state after the first n trading days. */
  function SimAfter(m: Market, p: Params, n: nat): (r: Sim)
    requires ValidMarket(m) && ValidParams(p) && n <= |m.dates|
    ensures |r.rows| == n
    ensures -1 <= r.dip.minBand < |p.thresholdsPct|
  {
    if n == 0 then InitialSim()
    else
      var s := SimAfter(m, p, n - 1);
      var r := StepDay(m, p, s.sip, s.dip, n - 1);
      Sim(r.sip, r.dip, s.rows + [r.row])
  }

  datatype Backtest = Backtest(summary: BacktestSummary, ledger: seq<LedgerRow>)

  /** The Dip-SIP's annualised return in excess of the Standard SIP's. */
  function Alpha(dipXirr: real, sipXirr: real): real {
    dipXirr - sipXirr
  }

  /** Liquidate both strategies at the last price; the terminal value is the last cashflow. */
  function Finish(m: Market, s: Sim, xirr: seq<Cashflow> -> real): (r: Backtest)
    requires ValidMarket(m)
    ensures var last := |m.dates| - 1;
      && r.ledger == s.rows
      && r.summary.totalContributed == s.sip.total
      && r.summary.sipFinal == SipValue(s.sip, m.prices[last])
      && r.summary.dipFinal == DipValue(s.dip, m.prices[last])
      && r.summary.sipXirr == xirr(s.sip.cfs + [Cashflow(m.dates[last], r.summary.sipFinal)])
      && r.summary.dipXirr == xirr(s.dip.cfs + [Cashflow(m.dates[last], r.summary.dipFinal)])
      && r.summary.alphaXirr == r.summary.dipXirr - r.summary.sipXirr
      && r.summary.sipTrades == s.sip.trades && r.summary.dipTrades == s.dip.trades
  {
    var last := |m.dates| - 1;
    var sipFinal := SipValue(s.sip, m.prices[last]);
    var dipFinal := DipValue(s.dip, m.prices[last]);
    var sipCfs := s.sip.cfs + [Cashflow(m.dates[last], sipFinal)];
    var dipCfs := s.dip.cfs + [Cashflow(m.dates[last], dipFinal)];
    Backtest(
      BacktestSummary(s.sip.total, sipFinal, dipFinal, xirr(sipCfs), xirr(dipCfs),
                      Alpha(xirr(dipCfs), xirr(sipCfs)), s.sip.trades, s.dip.trades),
      s.rows)
  }

  /** A normalised series: non-empty, dates strictly increasing, closes positive. */
  predicate ValidSeries(series: seq<PricePoint>) {
    |series| > 0 && PointsStrictlyIncreasing(series) && AllPositive(Closes(series))
  }

  /** The market of a series, or the error the source raises while building it. */
  function MakeMarket(series: seq<PricePoint>, p: Params): (r: Result<Market, Error>)
    requires ValidSeries(series)
    ensures r.Ok? ==> ValidMarket(r.value) && r.value.dates == Dates(series) && r.value.prices == Closes(series)
    ensures r.Ok? <==> Calendar.IsSchedule(p.schedule) && p.lookbackDays >= 1
    // the contribution set is the calendar's dates, the drawdowns are the rolling-high ones
    ensures r.Ok? ==> r.value.contrib == (set x | x in Calendar.MakeContributionDates(Dates(series), p.schedule).value)
    ensures r.Ok? ==> DrawdownFromRollingHigh(Closes(series), p.lookbackDays) == Ok(Drawdowns(r.value.dd, r.value.rollMax))
  {
    match Calendar.MakeContributionDates(Dates(series), p.schedule)
    case Err(e) => Err(e)
    case Ok(cd) =>
      match DrawdownFromRollingHigh(Closes(series), p.lookbackDays)
      case Err(e) => Err(e)
      case Ok(dd) => Ok(Market(Dates(series), Closes(series), dd.rollMax, dd.dd, set x | x in cd))
  }

  /** What run_backtest returns or raises. */
  function BacktestOf(series: seq<PricePoint>, p: Params, xirr: seq<Cashflow> -> real): (r: Result<Backtest, Error>)
    requires ValidSeries(series)
    ensures !ValidParams(p) ==> r == Err(ConfigMismatch)
    ensures ValidParams(p) && !Calendar.IsSchedule(p.schedule) ==> r == Err(InvalidSchedule)
    ensures ValidParams(p) && Calendar.IsSchedule(p.schedule) && p.lookbackDays < 1 ==> r == Err(InvalidWindow)
    ensures ValidParams(p) && Calendar.IsSchedule(p.schedule) && p.lookbackDays >= 1 ==> r.Ok?
    ensures r.Ok? ==> |r.value.ledger| == |series|
  {
    if !ValidParams(p) then Err(ConfigMismatch)
    else
      match MakeMarket(series, p)
      case Err(e) => Err(e)
      case Ok(m) => Ok(Finish(m, SimAfter(m, p, |series|), xirr))
  }

  /** Baseline buy: on a contribution day, a fixed fraction of held cash is invested. */
  method BaselineBuy(p: Params, dip: DipState, contribution: real, price: real)
    returns (dip': DipState, invest: real)
    requires price > 0.0
    ensures dip' == BaseStep(p, dip, contribution, price)
    ensures invest == BaseAmount(p, dip, contribution)
  {
    dip', invest := dip, 0.0;
    if contribution > 0.0 && p.baseFraction > 0.0 && dip.cash > 0.0 {
      invest := dip.cash * p.baseFraction;
      var fee := invest * (p.transactionCostBps / 10000.0);
      dip' := dip.(units := dip.units + (invest - fee) / price, cash := dip.cash - invest, trades := dip.trades + 1);
    }
  }

  /** Trigger buy: on entering a band deeper than any since the last re-arm. */
  method TriggerBuy(p: Params, dip: DipState, isActionDay: bool, curDd: real, price: real)
    returns (dip': DipState, deployAmt: real)
    requires ValidParams(p) && dip.minBand >= -1 && price > 0.0
    ensures dip' == TriggerStep(p, dip, isActionDay, curDd, price)
    ensures deployAmt == TriggerAmount(p, dip, isActionDay, curDd)
  {
    dip', deployAmt := dip, 0.0;
    if isActionDay && dip.cash > 0.0 {
      var level := BandFromDd(p.thresholdsPct, curDd);
      if level > dip.minBand {
        deployAmt := dip.cash * p.deployFractions[level];
        assert TriggerFires(p, dip, isActionDay, curDd);
        var fee := deployAmt * (p.transactionCostBps / 10000.0);
        dip' := dip.(units := dip.units + (deployAmt - fee) / price, cash := dip.cash - deployAmt,
                     trades := dip.trades + 1, minBand := level);
      }
    }
  }

  /** One trading day of run_backtest's loop: both strategies' updates and the ledger row. */
  method SimulateDay(m: Market, p: Params, sip: SipState, dip: DipState, lastDate: Date, i: nat)
    returns (sip': SipState, dip': DipState, row: LedgerRow)
    requires ValidMarket(m) && ValidParams(p) && i < |m.dates| && dip.minBand >= -1
    requires lastDate == PrevDate(m, i)
    ensures DayResult(sip', dip', row) == StepDay(m, p, sip, dip, i)
  {
    var d, price := m.dates[i], m.prices[i];

    // accrue held cash over the calendar days since the last date
    dip' := dip;
    var days := d - lastDate;
    if days > 0 && dip'.cash > 0.0 {
      dip' := dip'.(cash := dip'.cash * Pow(p.dailyGrowth, days));
    }
    assert dip' == Accrue(dip, p.dailyGrowth, d - PrevDate(m, i));

    var contribution := if d in m.contrib then p.amountPerContrib else 0.0;
    assert contribution == Contribution(m, p, i);

    // Standard SIP buys at once; Dip-SIP deposits the contribution
    sip' := sip;
    var sipBuy := 0.0;
    if contribution > 0.0 {
      var fee := contribution * (p.transactionCostBps / 10000.0);
      sip' := SipState(sip.units + (contribution - fee) / price, sip.total + contribution, sip.trades + 1,
                       sip.cfs + [Cashflow(d, -contribution)]);
      sipBuy := contribution;
      dip' := dip'.(cash := dip'.cash + contribution, total := dip'.total + contribution,
                    cfs := dip'.cfs + [Cashflow(d, -contribution)]);
    }

    // re-arm at a rolling high
    var curDd := m.dd[i];
    if curDd >= -RearmTolerance {
      dip' := dip'.(minBand := -1);
    }

    assert sip' == SipDay(sip, d, price, contribution, p.transactionCostBps);
    assert dip' == Rearm(Deposit(Accrue(dip, p.dailyGrowth, d - PrevDate(m, i)), d, contribution), m.dd[i]);

    var dipBaseBuy, dipTriggerBuy;
    dip', dipBaseBuy := BaselineBuy(p, dip', contribution, price);
    assert dip' == DipBeforeTrigger(m, p, dip, i);
    var isActionDay := if p.allowDailyDipBuys then true else d in m.contrib;
    assert isActionDay == ActionDay(m, p, i);
    dip', dipTriggerBuy := TriggerBuy(p, dip', isActionDay, curDd, price);
    assert dip' == DipDay(m, p, dip, i);

    row := LedgerRow(d, price, m.rollMax[i], curDd, contribution, sipBuy, dipBaseBuy, dipTriggerBuy,
                     dip'.cash, SipValue(sip', price), DipValue(dip', price));
  }

  /** The daily loop of run_backtest over a prepared market. */
  method Simulate(m: Market, p: Params) returns (sip: SipState, dip: DipState, rows: seq<LedgerRow>)
    requires ValidMarket(m) && ValidParams(p)
    ensures Sim(sip, dip, rows) == SimAfter(m, p, |m.dates|)
  {
    sip := SipState(0.0, 0.0, 0, []);
    dip := DipState(0.0, 0.0, 0.0, 0, [], -1);  // minBand -1: no band entered yet
    var lastDate := m.dates[0];
    rows := [];
    var i := 0;
    while i < |m.dates|
      invariant 0 <= i <= |m.dates|
      invariant i < |m.dates| ==> lastDate == PrevDate(m, i)
      invariant Sim(sip, dip, rows) == SimAfter(m, p, i)
    {
      var row;
      sip, dip, row := SimulateDay(m, p, sip, dip, lastDate, i);
      rows := rows + [row];
      lastDate := m.dates[i];
      i := i + 1;
    }
  }

  /** The daily loop over a prepared market, then liquidation at the last price. */
  method RunOnMarket(m: Market, p: Params, xirr: seq<Cashflow> -> real) returns (b: Backtest)
    requires ValidMarket(m) && ValidParams(p)
    ensures b == Finish(m, SimAfter(m, p, |m.dates|), xirr)
  {
    var sip, dip, rows := Simulate(m, p);

    var last := |m.dates| - 1;
    var sipFinal := SipValue(sip, m.prices[last]);
    var dipFinal := DipValue(dip, m.prices[last]);
    var sipCfs := sip.cfs + [Cashflow(m.dates[last], sipFinal)];
    var dipCfs := dip.cfs + [Cashflow(m.dates[last], dipFinal)];
    var sipXirr, dipXirr := xirr(sipCfs), xirr(dipCfs);
    var summary := BacktestSummary(sip.total, sipFinal, dipFinal, sipXirr, dipXirr,
                                   Alpha(dipXirr, sipXirr), sip.trades, dip.trades);
    b := Backtest(summary, rows);
  }

  /**
   * run_backtest: validates the configuration, prepares the contribution
   * dates and drawdowns, runs the daily loop and liquidates at the last price.
   */
  method RunBacktest(series: seq<PricePoint>, p: Params, xirr: seq<Cashflow> -> real)
    returns (res: Result<Backtest, Error>)
    requires ValidSeries(series)
    ensures res == BacktestOf(series, p, xirr)
  {
    if |p.thresholdsPct| != |p.deployFractions| {
      return Err(ConfigMismatch);
    }
    var dates, prices := Dates(series), Closes(series);
    var contribDates := Calendar.MakeContributionDates(dates, p.schedule);
    if contribDates.Err? {
      assert MakeMarket(series, p) == Err(contribDates.error);
      return Err(contribDates.error);
    }
    var drawdowns := DrawdownFromRollingHigh(prices, p.lookbackDays);
    if drawdowns.Err? {
      assert MakeMarket(series, p) == Err(drawdowns.error);
      return Err(drawdowns.error);
    }
    var m := Market(dates, prices, drawdowns.value.rollMax, drawdowns.value.dd, set x | x in contribDates.value);
    assert m == MakeMarket(series, p).value;

    var backtest := RunOnMarket(m, p, xirr);
    res := Ok(backtest);
  }
}
