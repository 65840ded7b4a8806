/**
 * Properties of the backtest simulation (core/engine.py, run_backtest): the
 * shape of the ledger, conservation of contributions, non-negative held
 * cash, the band state machine and trade counts. All are lemmas about the
 * specification SimAfter, which RunBacktest is proved to compute.
 */
module EngineProperties {
  import opened Wrappers
  import opened Models
  import opened Engine

  // ------------------------------------------------------------- one day

  /** The Dip-SIP's book-keeping on one day: the deposit is the only change to total and cashflows. */
  lemma DipDayBookkeeping(m: Market, p: Params, dip: DipState, i: nat)
    requires ValidMarket(m) && ValidParams(p) && i < |m.dates| && dip.minBand >= -1
    ensures var c := Contribution(m, p, i);
      var d := DipDay(m, p, dip, i);
      && d.total == dip.total + (if c > 0.0 then c else 0.0)
      && d.cfs == dip.cfs + (if c > 0.0 then [Cashflow(m.dates[i], -c)] else [])
      && dip.trades <= d.trades <= dip.trades + 2
  {
    var c := Contribution(m, p, i);
    var dep := Deposit(Accrue(dip, p.dailyGrowth, m.dates[i] - PrevDate(m, i)), m.dates[i], c);
    var before := DipBeforeTrigger(m, p, dip, i);
    assert before.total == dep.total && before.cfs == dep.cfs && before.trades <= dip.trades + 1;
  }

  /** The minimum band in force just before the trigger check: -1 after a re-arm, else unchanged. */
  lemma ArmedBand(m: Market, p: Params, dip: DipState, i: nat)
    requires ValidMarket(m) && i < |m.dates|
    ensures DipBeforeTrigger(m, p, dip, i).minBand == (if m.dd[i] >= -RearmTolerance then -1 else dip.minBand)
  {
  }

  // ------------------------------------------------------------- the ledger

  /** One more day appends that day's row to the ledger. */
  lemma SimAfterNext(m: Market, p: Params, n: nat)
    requires ValidMarket(m) && ValidParams(p) && n < |m.dates|
    ensures var s := SimAfter(m, p, n);
      var r := StepDay(m, p, s.sip, s.dip, n);
      SimAfter(m, p, n + 1) == Sim(r.sip, r.dip, s.rows + [r.row])
  {
  }

  /** Rows already written are never rewritten: row k is fixed once day k is done. */
  lemma {:induction false} RowsPrefix(m: Market, p: Params, n: nat, k: nat)
    requires ValidMarket(m) && ValidParams(p) && k < n <= |m.dates|
    ensures SimAfter(m, p, n).rows[k] == SimAfter(m, p, k + 1).rows[k]
  {
    if n > k + 1 {
      RowsPrefix(m, p, n - 1, k);
      var prev := SimAfter(m, p, n - 1);
      assert SimAfter(m, p, n).rows[k] == prev.rows[k];
    }
  }

  /**
   * Row k of the ledger describes day k: its date, price, rolling high and
   * drawdown, the contribution, and both strategies valued at that day's
   * price with the state at the end of that day.
   */
  lemma RowAt(m: Market, p: Params, n: nat, k: nat)
    requires ValidMarket(m) && ValidParams(p) && k < n <= |m.dates|
    ensures var r := SimAfter(m, p, n).rows[k];
      var s := SimAfter(m, p, k + 1);
      && r.date == m.dates[k] && r.price == m.prices[k]
      && r.rollingHigh == m.rollMax[k] && r.drawdownPct == m.dd[k]
      && r.contribution == Contribution(m, p, k)
      && r.dipBaseBuy == StepDay(m, p, SimAfter(m, p, k).sip, SimAfter(m, p, k).dip, k).row.dipBaseBuy
      && r.dipTriggerBuy == StepDay(m, p, SimAfter(m, p, k).sip, SimAfter(m, p, k).dip, k).row.dipTriggerBuy
      && r.dipCash == s.dip.cash
      && r.sipValue == SipValue(s.sip, m.prices[k])
      && r.dipValue == DipValue(s.dip, m.prices[k])
  {
    RowsPrefix(m, p, n, k);
    var prev := SimAfter(m, p, k);
  }

  // ------------------------------------------------------------- conservation

  /** The sum of the ledger's sip_buy column. */
  function SumSipBuy(rows: seq<LedgerRow>): real {
    if rows == [] then 0.0 else SumSipBuy(rows[..|rows| - 1]) + rows[|rows| - 1].sipBuy
  }

  /** The sum of the ledger's contribution column. */
  function SumContribution(rows: seq<LedgerRow>): real {
    if rows == [] then 0.0 else SumContribution(rows[..|rows| - 1]) + rows[|rows| - 1].contribution
  }

  lemma SumsAppend(rows: seq<LedgerRow>, r: LedgerRow)
    ensures SumSipBuy(rows + [r]) == SumSipBuy(rows) + r.sipBuy
    ensures SumContribution(rows + [r]) == SumContribution(rows) + r.contribution
  {
    assert (rows + [r])[..|rows|] == rows;
  }

  /** Both totals grow by the day's sip_buy: they stay equal to the column's sum. */
  lemma {:induction false} TotalsMatchSipBuys(m: Market, p: Params, n: nat)
    requires ValidMarket(m) && ValidParams(p) && n <= |m.dates|
    ensures var s := SimAfter(m, p, n);
      s.sip.total == s.dip.total == SumSipBuy(s.rows)
  {
    if n > 0 {
      TotalsMatchSipBuys(m, p, n - 1);
      var s := SimAfter(m, p, n - 1);
      var r := StepDay(m, p, s.sip, s.dip, n - 1);
      DipDayBookkeeping(m, p, s.dip, n - 1);
      SumsAppend(s.rows, r.row);
      var s' := SimAfter(m, p, n);
      assert s' == Sim(r.sip, r.dip, s.rows + [r.row]);
      assert s'.sip.total == s.sip.total + r.row.sipBuy;
      assert s'.dip.total == s.dip.total + r.row.sipBuy;
    }
  }

  /** Both strategies record the same contribution cashflows, one per Standard SIP trade. */
  lemma {:induction false} SameCashflows(m: Market, p: Params, n: nat)
    requires ValidMarket(m) && ValidParams(p) && n <= |m.dates|
    ensures var s := SimAfter(m, p, n);
      s.sip.cfs == s.dip.cfs && |s.sip.cfs| == s.sip.trades
  {
    if n > 0 {
      SameCashflows(m, p, n - 1);
      var s := SimAfter(m, p, n - 1);
      DipDayBookkeeping(m, p, s.dip, n - 1);
    }
  }

  /** With a non-negative amount the sip_buy and contribution columns have the same sum. */
  lemma {:induction false} ContributionColumn(m: Market, p: Params, n: nat)
    requires ValidMarket(m) && ValidParams(p) && n <= |m.dates|
    requires p.amountPerContrib >= 0.0
    ensures var s := SimAfter(m, p, n);
      SumContribution(s.rows) == SumSipBuy(s.rows)
  {
    if n > 0 {
      ContributionColumn(m, p, n - 1);
      var s := SimAfter(m, p, n - 1);
      var r := StepDay(m, p, s.sip, s.dip, n - 1);
      SumsAppend(s.rows, r.row);
    }
  }

  /**
   * Every contribution reaches both strategies alike: the two totals are equal
   * and equal the sum of the sip_buy column, both record the same cashflows,
   * one per Standard SIP trade; with a non-negative amount the totals also
   * equal the sum of the contribution column.
   */
  lemma ContributionConservation(m: Market, p: Params, n: nat)
    requires ValidMarket(m) && ValidParams(p) && n <= |m.dates|
    ensures var s := SimAfter(m, p, n);
      && s.sip.total == s.dip.total == SumSipBuy(s.rows)
      && s.sip.cfs == s.dip.cfs
      && |s.sip.cfs| == s.sip.trades
      && (p.amountPerContrib >= 0.0 ==> SumContribution(s.rows) == s.sip.total)
  {
    TotalsMatchSipBuys(m, p, n);
    SameCashflows(m, p, n);
    if p.amountPerContrib >= 0.0 {
      ContributionColumn(m, p, n);
    }
  }

  /** With a non-negative amount each row's sip_buy is its contribution. */
  lemma SipBuyIsContribution(m: Market, p: Params, n: nat, k: nat)
    requires ValidMarket(m) && ValidParams(p) && k < n <= |m.dates|
    requires p.amountPerContrib >= 0.0
    ensures SimAfter(m, p, n).rows[k].sipBuy == SimAfter(m, p, n).rows[k].contribution
  {
    RowsPrefix(m, p, n, k);
    var prev := SimAfter(m, p, k);
  }

  // ------------------------------------------------------------- held cash

  /** Spending a fraction at most 1 of non-negative cash leaves non-negative cash. */
  lemma SpendFraction(cash: real, f: real)
    requires cash >= 0.0 && f <= 1.0
    ensures cash - cash * f >= 0.0
  {
    assert cash - cash * f == cash * (1.0 - f);
  }

  /** No buy spends more than all of the held cash. */
  predicate FractionsAtMostOne(p: Params) {
    p.baseFraction <= 1.0 && forall j :: 0 <= j < |p.deployFractions| ==> p.deployFractions[j] <= 1.0
  }

  lemma DipDayCash(m: Market, p: Params, dip: DipState, i: nat)
    requires ValidMarket(m) && ValidParams(p) && i < |m.dates| && dip.minBand >= -1
    requires FractionsAtMostOne(p) && p.dailyGrowth >= 0.0 && dip.cash >= 0.0
    ensures DipDay(m, p, dip, i).cash >= 0.0
  {
    var c := Contribution(m, p, i);
    var accrued := Accrue(dip, p.dailyGrowth, m.dates[i] - PrevDate(m, i));
    assert accrued.cash >= 0.0 by {
      if m.dates[i] - PrevDate(m, i) > 0 && dip.cash > 0.0 {
        var g := Pow(p.dailyGrowth, m.dates[i] - PrevDate(m, i));
        assert g >= 0.0;
        SpendFraction(dip.cash, 1.0 - g);
      }
    }
    var armed := Rearm(Deposit(accrued, m.dates[i], c), m.dd[i]);
    var before := DipBeforeTrigger(m, p, dip, i);
    assert before.cash >= 0.0 by {
      if BaseFires(p, armed, c) {
        SpendFraction(armed.cash, p.baseFraction);
      }
    }
    var act := ActionDay(m, p, i);
    if TriggerFires(p, before, act, m.dd[i]) {
      SpendFraction(before.cash, p.deployFractions[Band(p.thresholdsPct, m.dd[i])]);
    }
  }

  /**
   * With the base fraction and every deploy fraction at most 1 and a
   * non-negative growth factor, the Dip-SIP's held cash is never negative.
   */
  lemma {:induction false} CashNonNegative(m: Market, p: Params, n: nat)
    requires ValidMarket(m) && ValidParams(p) && n <= |m.dates|
    requires FractionsAtMostOne(p) && p.dailyGrowth >= 0.0
    ensures SimAfter(m, p, n).dip.cash >= 0.0
  {
    if n > 0 {
      CashNonNegative(m, p, n - 1);
      DipDayCash(m, p, SimAfter(m, p, n - 1).dip, n - 1);
    }
  }

  // ------------------------------------------------------------- the bands

  /** Day k is at a fresh rolling high, which re-arms the bands. */
  predicate Rearms(m: Market, k: nat)
    requires k < |m.dd|
  {
    m.dd[k] >= -RearmTolerance
  }

  /** The Dip-SIP makes a trigger buy on day n. */
  predicate TriggeredOn(m: Market, p: Params, n: nat)
    requires ValidMarket(m) && ValidParams(p) && n < |m.dates|
  {
    TriggerFires(p, DipBeforeTrigger(m, p, SimAfter(m, p, n).dip, n), ActionDay(m, p, n), m.dd[n])
  }

  /**
   * How min_band moves on day n: a re-arm first resets it to -1; a trigger
   * buy fires exactly when the day's band is deeper than that, is a breached
   * band with a deploy fraction, and becomes the new min_band; otherwise it
   * stays.
   */
  lemma MinBandStep(m: Market, p: Params, n: nat)
    requires ValidMarket(m) && ValidParams(p) && n < |m.dates|
    ensures var before := SimAfter(m, p, n).dip.minBand;
      var armed := if Rearms(m, n) then -1 else before;
      var after := SimAfter(m, p, n + 1).dip.minBand;
      var level := Band(p.thresholdsPct, m.dd[n]);
      && (TriggeredOn(m, p, n) ==> 0 <= level && level > armed && after == level && m.dd[n] <= -p.thresholdsPct[level])
      && (!TriggeredOn(m, p, n) ==> after == armed)
  {
    var s := SimAfter(m, p, n);
    ArmedBand(m, p, s.dip, n);
  }

  /** Without a re-arm a day can only deepen min_band. */
  lemma MinBandKeptWithoutRearm(m: Market, p: Params, n: nat)
    requires ValidMarket(m) && ValidParams(p) && n < |m.dates|
    requires !Rearms(m, n)
    ensures SimAfter(m, p, n).dip.minBand <= SimAfter(m, p, n + 1).dip.minBand
  {
    MinBandStep(m, p, n);
  }

  /** Between re-arms min_band never decreases. */
  lemma {:induction false} MinBandNonDecreasing(m: Market, p: Params, i: nat, j: nat)
    requires ValidMarket(m) && ValidParams(p) && i <= j <= |m.dates|
    requires forall k :: i <= k < j ==> !Rearms(m, k)
    ensures SimAfter(m, p, i).dip.minBand <= SimAfter(m, p, j).dip.minBand
  {
    if i < j {
      var a := SimAfter(m, p, i).dip.minBand;
      var b := SimAfter(m, p, j - 1).dip.minBand;
      var c := SimAfter(m, p, j).dip.minBand;
      MinBandNonDecreasing(m, p, i, j - 1);
      assert a <= b;
      MinBandKeptWithoutRearm(m, p, j - 1);
      assert b <= c;
    }
  }

  /**
   * Once a band has triggered, neither it nor a shallower band triggers again
   * until the next re-arm.
   */
  lemma NoRetriggerWithinEpisode(m: Market, p: Params, i: nat, j: nat)
    requires ValidMarket(m) && ValidParams(p) && i < j < |m.dates|
    requires TriggeredOn(m, p, i)
    requires forall k :: i < k <= j ==> !Rearms(m, k)
    requires Band(p.thresholdsPct, m.dd[j]) <= Band(p.thresholdsPct, m.dd[i])
    ensures !TriggeredOn(m, p, j)
  {
    MinBandStep(m, p, i);
    MinBandNonDecreasing(m, p, i + 1, j);
    MinBandStep(m, p, j);
  }

  /** From a re-arm until the next trigger buy, min_band stays at -1. */
  lemma {:induction false} StaysArmed(m: Market, p: Params, r: nat, j: nat)
    requires ValidMarket(m) && ValidParams(p) && r < j <= |m.dates|
    requires Rearms(m, r)
    requires forall k :: r <= k < j ==> !TriggeredOn(m, p, k)
    ensures SimAfter(m, p, j).dip.minBand == -1
  {
    if r < j - 1 {
      StaysArmed(m, p, r, j - 1);
    }
    assert !TriggeredOn(m, p, j - 1);
    assert Rearms(m, j - 1) || SimAfter(m, p, j - 1).dip.minBand == -1;
    MinBandStep(m, p, j - 1);
  }

  /**
   * After a re-arm every band may trigger again: on the re-arming day r, and
   * on any later day n with no trigger buy since r, a trigger buy fires
   * exactly when n is an action day, cash is held and some band is breached.
   */
  lemma RearmAllowsRetrigger(m: Market, p: Params, r: nat, n: nat)
    requires ValidMarket(m) && ValidParams(p) && r <= n < |m.dates|
    requires Rearms(m, r)
    requires forall k :: r <= k < n ==> !TriggeredOn(m, p, k)
    ensures TriggeredOn(m, p, n) <==>
      ActionDay(m, p, n) && DipBeforeTrigger(m, p, SimAfter(m, p, n).dip, n).cash > 0.0
      && Band(p.thresholdsPct, m.dd[n]) >= 0
  {
    if r < n {
      StaysArmed(m, p, r, n);
    }
    ArmedBand(m, p, SimAfter(m, p, n).dip, n);
  }

  /** Unless daily dip buys are allowed, trigger buys happen only on contribution dates. */
  lemma TriggerOnlyOnContributionDays(m: Market, p: Params, n: nat)
    requires ValidMarket(m) && ValidParams(p) && n < |m.dates|
    requires !p.allowDailyDipBuys && TriggeredOn(m, p, n)
    ensures m.dates[n] in m.contrib
  {
  }

  // ------------------------------------------------------------- trade counts

  /** The number of contribution dates among the first n trading days. */
  function CountContribDays(m: Market, n: nat): nat
    requires n <= |m.dates|
  {
    if n == 0 then 0 else CountContribDays(m, n - 1) + (if m.dates[n - 1] in m.contrib then 1 else 0)
  }

  /**
   * The Standard SIP trades once per contribution date when the amount is
   * positive, and never otherwise.
   */
  lemma {:induction false} SipTradesCount(m: Market, p: Params, n: nat)
    requires ValidMarket(m) && ValidParams(p) && n <= |m.dates|
    ensures SimAfter(m, p, n).sip.trades == if p.amountPerContrib > 0.0 then CountContribDays(m, n) else 0
  {
    if n > 0 {
      SipTradesCount(m, p, n - 1);
      var s := SimAfter(m, p, n - 1);
    }
  }

  /** The Dip-SIP makes at most two trades a day: the baseline buy and the trigger buy. */
  lemma {:induction false} DipTradesBound(m: Market, p: Params, n: nat)
    requires ValidMarket(m) && ValidParams(p) && n <= |m.dates|
    ensures SimAfter(m, p, n).dip.trades <= 2 * n
  {
    if n > 0 {
      DipTradesBound(m, p, n - 1);
      var s := SimAfter(m, p, n - 1);
      DipDayBookkeeping(m, p, s.dip, n - 1);
    }
  }

  /** With no baseline buys and no band ever breached, the Dip-SIP never trades. */
  lemma {:induction false} NoBreachNoDipTrades(m: Market, p: Params, n: nat)
    requires ValidMarket(m) && ValidParams(p) && n <= |m.dates|
    requires p.baseFraction <= 0.0
    requires forall k :: 0 <= k < n ==> Band(p.thresholdsPct, m.dd[k]) == -1
    ensures SimAfter(m, p, n).dip.trades == 0 && SimAfter(m, p, n).dip.units == 0.0
  {
    if n > 0 {
      NoBreachNoDipTrades(m, p, n - 1);
      var s := SimAfter(m, p, n - 1);
      ArmedBand(m, p, s.dip, n - 1);
      var r := StepDay(m, p, s.sip, s.dip, n - 1);
      assert r.row.dipBaseBuy == 0.0 && r.row.dipTriggerBuy == 0.0;
      assert NetUnits(0.0, p.transactionCostBps, m.prices[n - 1]) == 0.0;
    }
  }
  // ------------------------------------------------------------- the result

  /**
   * What run_backtest returns: one ledger row per input day with that day's
   * date and price; the final values are the last row's valuations; the
   * total contributed is the sum of the sip_buy column; the trade counts are
   * as above; alpha is the Dip-SIP's XIRR minus the Standard SIP's.
   */
  lemma BacktestSummaryFacts(series: seq<PricePoint>, p: Params, xirr: seq<Cashflow> -> real)
    requires ValidSeries(series) && BacktestOf(series, p, xirr).Ok?
    ensures var b := BacktestOf(series, p, xirr).value;
      var last := b.ledger[|b.ledger| - 1];
      && (forall k :: 0 <= k < |series| ==> b.ledger[k].date == series[k].date && b.ledger[k].price == series[k].price)
      && b.summary.sipFinal == last.sipValue
      && b.summary.dipFinal == last.dipValue
      && b.summary.totalContributed == SumSipBuy(b.ledger)
      && b.summary.sipTrades == (if p.amountPerContrib > 0.0 then CountContribDays(MakeMarket(series, p).value, |series|) else 0)
      && b.summary.dipTrades <= 2 * |series|
      && b.summary.alphaXirr == b.summary.dipXirr - b.summary.sipXirr
  {
    var m := MakeMarket(series, p).value;
    var n := |series|;
    assert BacktestOf(series, p, xirr).value == Finish(m, SimAfter(m, p, n), xirr);
    forall k | 0 <= k < n
      ensures SimAfter(m, p, n).rows[k].date == series[k].date && SimAfter(m, p, n).rows[k].price == series[k].price
    {
      RowAt(m, p, n, k);
    }
    RowAt(m, p, n, n - 1);
    TotalsMatchSipBuys(m, p, n);
    SipTradesCount(m, p, n);
    DipTradesBound(m, p, n);
  }

  /**
   * A market given directly rather than derived from a series: a 10% fall
   * from the rolling high on day 1, and day 0 the only contribution day.
   */
  function ScenarioMarket(): Market {
    Market([0, 1], [100.0, 90.0], [100.0, 100.0], [0.0, -10.0], {0})
  }

  /** 1200 per contribution day, no baseline buys, one band at 10% deploying half, no fees, no interest. */
  function ScenarioParams(): Params {
    Params("monthly", 1200.0, 2, 0.0, [10.0], [0.5], true, 0.0, 1.0)
  }

  lemma ScenarioDay0(m: Market, p: Params, sip: SipState, dip: DipState)
    requires m == ScenarioMarket() && p == ScenarioParams() && ValidMarket(m) && ValidParams(p)
    requires dip == DipState(0.0, 0.0, 0.0, 0, [], -1)
    ensures var r := StepDay(m, p, sip, dip, 0);
      && r.dip == DipState(0.0, 1200.0, 1200.0, 0, [Cashflow(0, -1200.0)], -1)
      && r.row.contribution == 1200.0 && r.row.dipTriggerBuy == 0.0
  {
    assert Band([10.0], 0.0) == -1;
    assert Contribution(m, p, 0) == 1200.0;
    var b0 := DipBeforeTrigger(m, p, dip, 0);
    assert b0 == DipState(0.0, 1200.0, 1200.0, 0, [Cashflow(0, -1200.0)], -1);
    assert !TriggerFires(p, b0, ActionDay(m, p, 0), 0.0);
  }

  lemma ScenarioDay1(m: Market, p: Params, sip: SipState, dip: DipState)
    requires m == ScenarioMarket() && p == ScenarioParams() && ValidMarket(m) && ValidParams(p)
    requires dip == DipState(0.0, 1200.0, 1200.0, 0, [Cashflow(0, -1200.0)], -1)
    ensures var r := StepDay(m, p, sip, dip, 1);
      && r.row.dipTriggerBuy == 600.0 && r.row.dipCash == 600.0
      && r.dip.trades == 1 && r.dip.minBand == 0
  {
    assert Band([10.0], -10.0) == 0;
    assert Contribution(m, p, 1) == 0.0;
    assert Pow(1.0, 1) == 1.0;
    assert DipBeforeTrigger(m, p, dip, 1) == dip;
  }

  /** The first two days of any market of at least two days, one step at a time. */
  lemma TwoDays(m: Market, p: Params)
    requires ValidMarket(m) && ValidParams(p) && |m.dates| >= 2
    ensures var s1, s := SimAfter(m, p, 1), SimAfter(m, p, 2);
      var r0 := StepDay(m, p, InitialSim().sip, InitialSim().dip, 0);
      var r1 := StepDay(m, p, s1.sip, s1.dip, 1);
      && s1.dip == r0.dip && s.dip == r1.dip
      && s.rows[0] == r0.row && s.rows[1] == r1.row
  {
  }

  /**
   * A worked example: 1200 deposited on day 0 at a rolling high, then a 10%
   * drawdown on day 1 enters band 0, whose deploy fraction 0.5 invests 600
   * of the held cash; the band is then the deepest entered.
   */
  lemma ScenarioTriggerBuy(m: Market, p: Params)
    requires m == ScenarioMarket() && p == ScenarioParams() && ValidMarket(m) && ValidParams(p)
    ensures var s := SimAfter(m, p, 2);
      && s.rows[0].contribution == 1200.0 && s.rows[0].dipTriggerBuy == 0.0
      && s.rows[1].dipTriggerBuy == 600.0 && s.rows[1].dipCash == 600.0
      && s.dip.trades == 1 && s.dip.minBand == 0
  {
    TwoDays(m, p);
    ScenarioDay0(m, p, InitialSim().sip, InitialSim().dip);
    ScenarioDay1(m, p, SimAfter(m, p, 1).sip, SimAfter(m, p, 1).dip);
  }

  // ------------------------------------------------------------- drawdown

  lemma RatioBelowOne(price: real, high: real)
    requires 0.0 < price <= high
    ensures DrawdownPct(price, high) <= 0.0
    ensures DrawdownPct(price, high) == 0.0 <==> price == high
  {
    assert price / high * high == price;
    if price / high > 1.0 {
      assert price / high * high > high;
    }
    if DrawdownPct(price, high) == 0.0 {
      assert price / high == 1.0;
    }
  }

  /**
   * The drawdown is never positive, and it is zero exactly on the days
   * whose price is the maximum of its trailing window.
   */
  lemma DrawdownNonPositive(prices: seq<real>, lookback: int, i: nat)
    requires AllPositive(prices) && lookback >= 1 && i < |prices|
    ensures var r := DrawdownFromRollingHigh(prices, lookback).value;
      && r.dd[i] <= 0.0
      && (r.dd[i] == 0.0 <==> prices[i] == r.rollMax[i])
      && (prices[i] == r.rollMax[i] <==> forall k :: WindowStart(i, lookback) <= k <= i ==> prices[k] <= prices[i])
  {
    var r := DrawdownFromRollingHigh(prices, lookback).value;
    DrawdownAt(prices, lookback, i);
    RatioBelowOne(prices[i], r.rollMax[i]);
    RollingHighAttained(prices, lookback, i);
  }

  // ------------------------------------------------------------- normalisation

  /** Every point kept comes after all earlier points' dates: a date-sorted input dedups to strictly increasing dates. */
  lemma {:induction false} DedupStrictlyIncreasing(ps: seq<PricePoint>)
    requires PointsSorted(ps)
    ensures PointsStrictlyIncreasing(DedupKeepLast(ps))
    ensures |ps| > 0 ==> |DedupKeepLast(ps)| > 0 && DedupKeepLast(ps)[0].date >= ps[0].date
  {
    if |ps| > 1 {
      assert PointsSorted(ps[1..]);
      DedupStrictlyIncreasing(ps[1..]);
      var rest := DedupKeepLast(ps[1..]);
      if ps[0].date != ps[1].date {
        forall q | q in rest ensures ps[0].date < q.date {
          assert q in ps[1..];
        }
        assert forall j :: 0 < j < |[ps[0]] + rest| ==> ([ps[0]] + rest)[j] == rest[j - 1];
      }
    }
  }

  /** Of every run of equal dates the last point is the one kept. */
  lemma {:induction false} DedupKeepsLast(ps: seq<PricePoint>)
    ensures forall q :: q in DedupKeepLast(ps) ==>
      exists i :: 0 <= i < |ps| && ps[i] == q && (i == |ps| - 1 || ps[i + 1].date != q.date)
  {
    if |ps| > 1 {
      DedupKeepsLast(ps[1..]);
      forall q | q in DedupKeepLast(ps)
        ensures exists i :: 0 <= i < |ps| && ps[i] == q && (i == |ps| - 1 || ps[i + 1].date != q.date)
      {
        if q in DedupKeepLast(ps[1..]) {
          var i :| 0 <= i < |ps[1..]| && ps[1..][i] == q && (i == |ps[1..]| - 1 || ps[1..][i + 1].date != q.date);
          assert ps[i + 1] == q;
        } else {
          assert q == ps[0] && ps[1].date != q.date;
        }
      }
    }
  }

  /** No date is lost: every date of the input has a point in the result. */
  lemma {:induction false} DedupCoversDate(ps: seq<PricePoint>, i: nat)
    requires i < |ps|
    ensures exists q :: q in DedupKeepLast(ps) && q.date == ps[i].date
  {
    if |ps| <= 1 {
      assert ps[i] in DedupKeepLast(ps);
    } else if i == 0 && ps[0].date != ps[1].date {
      assert ps[0] in DedupKeepLast(ps);
    } else {
      var j := if i == 0 then 0 else i - 1;
      assert ps[1..][j].date == ps[i].date;
      DedupCoversDate(ps[1..], j);
      var q :| q in DedupKeepLast(ps[1..]) && q.date == ps[1..][j].date;
      assert q in DedupKeepLast(ps);
    }
  }

  /** A present row i is counted before every later index. */
  lemma {:induction false} PresentBeforeGrows(rows: seq<RawRow>, i: nat, j: nat)
    requires i < j <= |rows|
    ensures PresentBefore(rows, i) + (if rows[i].close.Some? then 1 else 0) <= PresentBefore(rows, j)
  {
    if j > i + 1 {
      PresentBeforeGrows(rows, i, j - 1);
    }
  }

  /** Date-sorted rows give date-sorted points: DropMissing keeps the input order. */
  lemma DropMissingSorted(rows: seq<RawRow>)
    requires RowsSorted(rows)
    ensures PointsSorted(DropMissing(rows))
  {
    var r := DropMissing(rows);
    forall a, b | 0 <= a <= b < |r| ensures r[a].date <= r[b].date {
      DropMissingCovers(rows, a);
      DropMissingCovers(rows, b);
      var i :| 0 <= i < |rows| && rows[i].close.Some? && PresentBefore(rows, i) == a;
      var j :| 0 <= j < |rows| && rows[j].close.Some? && PresentBefore(rows, j) == b;
      if j < i {
        PresentBeforeGrows(rows, j, i);
      }
    }
  }

  /**
   * Dropping missing closes keeps exactly the present rows, in input order,
   * so date-sorted rows give date-sorted points.
   */
  lemma DropMissingFacts(rows: seq<RawRow>)
    ensures var r := DropMissing(rows);
      && (forall q :: q in r <==> exists i :: 0 <= i < |rows| && rows[i].close == Some(q.price) && rows[i].date == q.date)
      && (RowsSorted(rows) ==> PointsSorted(r))
  {
    var r := DropMissing(rows);
    forall q | q in r
      ensures exists i :: 0 <= i < |rows| && rows[i].close == Some(q.price) && rows[i].date == q.date
    {
      var a :| 0 <= a < |r| && r[a] == q;
      DropMissingCovers(rows, a);
    }
    if RowsSorted(rows) {
      DropMissingSorted(rows);
    }
  }

  /**
   * A point that ends its run of equal dates in DropMissing(rows) comes from a
   * row after which no row of the same date has a present close.
   */
  lemma {:induction false} RunEndIsLastPresentRow(rows: seq<RawRow>, a: nat, i: nat)
    requires PointsSorted(DropMissing(rows))
    requires i < |rows| && rows[i].close.Some? && PresentBefore(rows, i) == a
    requires var ps := DropMissing(rows); a == |ps| - 1 || ps[a + 1].date != ps[a].date
    ensures forall j :: i < j < |rows| && rows[j].date == rows[i].date ==> rows[j].close.None?
  {
    var ps := DropMissing(rows);
    forall j | i < j < |rows| && rows[j].date == rows[i].date ensures rows[j].close.None? {
      if rows[j].close.Some? {
        PresentBeforeGrows(rows, i, j);
        assert false;
      }
    }
  }

  /** Each normalised point is the last row of its date whose close is present. */
  lemma NormalizeKeepsLast(rows: seq<RawRow>, q: PricePoint)
    requires RowsSorted(rows) && q in NormalizePriceSeries(rows)
    ensures exists i :: (0 <= i < |rows| && rows[i].date == q.date && rows[i].close == Some(q.price)
      && forall j :: i < j < |rows| && rows[j].date == q.date ==> rows[j].close.None?)
  {
    var ps := DropMissing(rows);
    assert exists a :: 0 <= a < |ps| && ps[a] == q && (a == |ps| - 1 || ps[a + 1].date != q.date) by {
      DedupKeepsLast(ps);
    }
    var a :| 0 <= a < |ps| && ps[a] == q && (a == |ps| - 1 || ps[a + 1].date != q.date);
    DropMissingCovers(rows, a);
    var i :| 0 <= i < |rows| && rows[i].close.Some? && PresentBefore(rows, i) == a;
    DropMissingSorted(rows);
    RunEndIsLastPresentRow(rows, a, i);
  }

  /**
   * normalize_price_series on date-sorted rows: strictly increasing dates;
   * every point is the last row of its date with a present close; every date
   * with a present close is kept.
   */
  lemma NormalizeFacts(rows: seq<RawRow>)
    requires RowsSorted(rows)
    ensures var r := NormalizePriceSeries(rows);
      && PointsStrictlyIncreasing(r)
      && (forall q :: q in r ==>
            exists i :: (0 <= i < |rows| && rows[i].date == q.date && rows[i].close == Some(q.price)
              && forall j :: i < j < |rows| && rows[j].date == q.date ==> rows[j].close.None?))
      && (forall i :: 0 <= i < |rows| && rows[i].close.Some? ==> exists q :: q in r && q.date == rows[i].date)
  {
    var ps := DropMissing(rows);
    DropMissingFacts(rows);
    DedupStrictlyIncreasing(ps);
    forall q | q in NormalizePriceSeries(rows)
      ensures exists i :: (0 <= i < |rows| && rows[i].date == q.date && rows[i].close == Some(q.price)
        && forall j :: i < j < |rows| && rows[j].date == q.date ==> rows[j].close.None?)
    {
      NormalizeKeepsLast(rows, q);
    }
    forall i | 0 <= i < |rows| && rows[i].close.Some?
      ensures exists q :: q in NormalizePriceSeries(rows) && q.date == rows[i].date
    {
      DedupCoversDate(ps, PresentBefore(rows, i));
    }
  }
}
