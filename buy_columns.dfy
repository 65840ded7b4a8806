/**
 * The two Dip-SIP buy columns of one ledger row (core/engine.py, run_backtest),
 * written out in terms of the day's inputs.
 */
module BuyColumns {
  import opened Models
  import opened Engine

  /**
   * dip_base_buy is base_fraction of the accrued cash plus the deposit, on a
   * contribution day with cash held; dip_trigger_buy is the breached band's
   * deploy fraction of the cash left after it, when that band is deeper than
   * min_band (reset to -1 at a fresh high) on an action day with cash held.
   */
  lemma BuyColumnsOfDay(m: Market, p: Params, sip: SipState, dip: DipState, i: nat)
    requires ValidMarket(m) && ValidParams(p) && i < |m.dates| && dip.minBand >= -1
    ensures var r := StepDay(m, p, sip, dip, i);
      var held := Accrue(dip, p.dailyGrowth, m.dates[i] - PrevDate(m, i)).cash + r.row.sipBuy;
      r.row.dipBaseBuy == (if Contribution(m, p, i) > 0.0 && p.baseFraction > 0.0 && held > 0.0 then held * p.baseFraction else 0.0)
    ensures var r := StepDay(m, p, sip, dip, i);
      var left := DipBeforeTrigger(m, p, dip, i).cash;
      var band := Band(p.thresholdsPct, m.dd[i]);
      var armed := if m.dd[i] >= -RearmTolerance then -1 else dip.minBand;
      r.row.dipTriggerBuy == (if ActionDay(m, p, i) && left > 0.0 && band > armed then left * p.deployFractions[band] else 0.0)
  {
    var r := StepDay(m, p, sip, dip, i);
    var contribution := Contribution(m, p, i);
    var accrued := Accrue(dip, p.dailyGrowth, m.dates[i] - PrevDate(m, i));
    var rearmed := Rearm(Deposit(accrued, m.dates[i], contribution), m.dd[i]);
    assert rearmed.cash == accrued.cash + r.row.sipBuy;
    var before := DipBeforeTrigger(m, p, dip, i);
    assert before.minBand == rearmed.minBand;
  }
}
