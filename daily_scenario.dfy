/**
 * A worked example run end to end through BacktestOf: closes of 100 and 90
 * on consecutive days, a daily schedule of 1200, a two-day window and one
 * band at 10% that deploys half of the held cash.
 */
module DailyScenario {
  import opened Wrappers
  import opened Models
  import opened Engine
  import Calendar
  import opened EngineProperties

  function Series(): seq<PricePoint> {
    [PricePoint(0, 100.0), PricePoint(1, 90.0)]
  }

  /** 1200 every trading day, no baseline buys, one band at 10% deploying half, no fees, no interest. */
  function DailyParams(): Params {
    Params("daily", 1200.0, 2, 0.0, [10.0], [0.5], true, 0.0, 1.0)
  }

  /** What the engine derives from the series: a 10% fall from the high on day 1, every day a contribution day. */
  function DailyMarket(): Market {
    Market([0, 1], [100.0, 90.0], [100.0, 100.0], [0.0, -10.0], {0, 1})
  }

  /** The two-day rolling high stays at 100 and day 1 sits 10% below it. */
  lemma DailyDrawdowns(prices: seq<real>)
    requires prices == [100.0, 90.0]
    ensures DrawdownFromRollingHigh(prices, 2) == Ok(Drawdowns([0.0, -10.0], [100.0, 100.0]))
  {
    assert prices[0..1] == [100.0];
    assert prices[0..2] == prices;
    assert prices[1..][1..] == [] && prices[1..] == [90.0];
    assert RollingHigh(prices, 2, 0) == 100.0;
    assert RollingHigh(prices, 2, 1) == 100.0;
    assert DrawdownPct(90.0, 100.0) == -10.0;
    var dd := DrawdownFromRollingHigh(prices, 2).value;
    assert dd.rollMax == [100.0, 100.0];
    assert dd.dd == [0.0, -10.0];
  }

  lemma DaysAsSet(ds: seq<Date>)
    requires ds == [0, 1]
    ensures (set x | x in ds) == {0, 1}
  {
    assert ds[0] == 0 && ds[1] == 1;
  }

  /** With a daily schedule every trading day is a contribution day. */
  lemma DailyMarketBuilt(series: seq<PricePoint>, p: Params)
    requires series == Series() && p == DailyParams() && ValidSeries(series)
    ensures MakeMarket(series, p) == Ok(DailyMarket())
  {
    var ds, cs := Dates(series), Closes(series);
    assert ds == [0, 1];
    assert cs == [100.0, 90.0];
    assert Calendar.MakeContributionDates(ds, p.schedule) == Ok(ds);
    DailyDrawdowns(cs);
    DaysAsSet(ds);
  }

  /** Day 0 sits at the rolling high: 1200 is deposited and nothing triggers. */
  lemma DailyDay0(m: Market, p: Params, sip: SipState, dip: DipState)
    requires m == DailyMarket() && p == DailyParams() && ValidMarket(m) && ValidParams(p)
    requires sip.total == 0.0 && dip == DipState(0.0, 0.0, 0.0, 0, [], -1)
    ensures var r := StepDay(m, p, sip, dip, 0);
      && r.dip == DipState(0.0, 1200.0, 1200.0, 0, [Cashflow(0, -1200.0)], -1)
      && r.sip.total == 1200.0
      && r.row.contribution == 1200.0 && r.row.dipTriggerBuy == 0.0
  {
    assert Band([10.0], 0.0) == -1;
    assert Contribution(m, p, 0) == 1200.0;
    var b0 := DipBeforeTrigger(m, p, dip, 0);
    assert b0 == DipState(0.0, 1200.0, 1200.0, 0, [Cashflow(0, -1200.0)], -1);
    assert !TriggerFires(p, b0, ActionDay(m, p, 0), 0.0);
  }

  /** Day 1 deposits another 1200 and the 10% band deploys half of the 2400 held. */
  lemma DailyDay1(m: Market, p: Params, sip: SipState, dip: DipState)
    requires m == DailyMarket() && p == DailyParams() && ValidMarket(m) && ValidParams(p)
    requires sip.total == 1200.0 && dip == DipState(0.0, 1200.0, 1200.0, 0, [Cashflow(0, -1200.0)], -1)
    ensures var r := StepDay(m, p, sip, dip, 1);
      && r.sip.total == 2400.0
      && r.row.contribution == 1200.0
      && r.row.dipTriggerBuy == 1200.0 && r.row.dipCash == 1200.0
      && r.dip.trades == 1 && r.dip.minBand == 0
  {
    assert Band([10.0], -10.0) == 0;
    assert Contribution(m, p, 1) == 1200.0;
    assert Pow(1.0, 1) == 1.0;
    var b1 := DipBeforeTrigger(m, p, dip, 1);
    assert b1 == DipState(0.0, 2400.0, 2400.0, 0, [Cashflow(0, -1200.0), Cashflow(1, -1200.0)], -1);
  }

  /** The first two days of any market, one step at a time, for both strategies. */
  lemma DailyTwoDays(m: Market, p: Params)
    requires ValidMarket(m) && ValidParams(p) && |m.dates| == 2
    ensures var s1, s := SimAfter(m, p, 1), SimAfter(m, p, 2);
      var r0 := StepDay(m, p, InitialSim().sip, InitialSim().dip, 0);
      var r1 := StepDay(m, p, s1.sip, s1.dip, 1);
      && s1.sip == r0.sip && s1.dip == r0.dip && s.sip == r1.sip
      && s.rows == [r0.row, r1.row]
  {
  }

  /**
   * The backtest of the series succeeds; the Dip-SIP deploys 1200 of its
   * 2400 on day 1, and 2400 is contributed in all.
   */
  lemma DailyBacktest(series: seq<PricePoint>, p: Params, xirr: seq<Cashflow> -> real)
    requires series == Series() && p == DailyParams() && ValidSeries(series)
    ensures BacktestOf(series, p, xirr).Ok?
    ensures var b := BacktestOf(series, p, xirr).value;
      && b.summary.totalContributed == 2400.0
      && b.ledger[0].contribution == 1200.0 && b.ledger[0].dipTriggerBuy == 0.0
      && b.ledger[1].contribution == 1200.0
      && b.ledger[1].dipTriggerBuy == 1200.0 && b.ledger[1].dipCash == 1200.0
  {
    var m := DailyMarket();
    DailyMarketBuilt(series, p);
    assert BacktestOf(series, p, xirr) == Ok(Finish(m, SimAfter(m, p, 2), xirr));
    DailyTwoDays(m, p);
    DailyDay0(m, p, InitialSim().sip, InitialSim().dip);
    DailyDay1(m, p, SimAfter(m, p, 1).sip, SimAfter(m, p, 1).dip);
  }
}
