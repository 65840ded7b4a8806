/**
 * Interest on the Dip-SIP's held cash (core/engine.py, run_backtest): when
 * nothing is bought, held cash is the sum of the contributions so far, each
 * compounded at the daily growth factor over the calendar days it was held.
 */
module HeldCash {
  import opened Models
  import opened Engine
  import opened EngineProperties

  /** x grown for k days at the daily factor g. */
  function Grow(x: real, g: real, k: nat): real {
    x * Pow(g, k)
  }

  /** Growing for a + b days is growing for a days, then for b more. */
  lemma {:induction false} GrowAdd(x: real, g: real, a: nat, b: nat)
    ensures Grow(x, g, a + b) == Grow(Grow(x, g, a), g, b)
  {
    if b > 0 {
      GrowAdd(x, g, a, b - 1);
      assert Grow(x, g, a + b) == g * Grow(x, g, a + (b - 1)) by {
        assert a + b - 1 == a + (b - 1);
      }
      assert Grow(Grow(x, g, a), g, b) == g * Grow(Grow(x, g, a), g, b - 1);
    }
  }

  /** GrowAdd with the total written as it arises. */
  lemma GrowSplit(x: real, g: real, k: nat, a: nat, b: nat)
    requires k == a + b
    ensures Grow(x, g, k) == Grow(Grow(x, g, a), g, b)
  {
    GrowAdd(x, g, a, b);
  }

  /** Growth distributes over a sum. */
  lemma GrowSum(x: real, y: real, g: real, k: nat)
    ensures Grow(x + y, g, k) == Grow(x, g, k) + Grow(y, g, k)
  {
  }

  lemma GrowZero(g: real, k: nat)
    ensures Grow(0.0, g, k) == 0.0
  {
  }

  /** Nothing grows in zero days. */
  lemma GrowNone(x: real, g: real, k: nat)
    requires k == 0
    ensures Grow(x, g, k) == x
  {
  }

  /** The first n trading days all fall on or before calendar day t. */
  predicate HeldBy(m: Market, n: nat, t: Date) {
    n <= |m.dates| && forall k :: 0 <= k < n ==> m.dates[k] <= t
  }

  /**
   * Reference value of held cash on calendar day t when nothing has been
   * bought: each contribution of the first n days, grown by the daily factor
   * for every calendar day from its own date to t.
   */
  function CompoundedContributions(m: Market, p: Params, n: nat, t: Date): real
    requires HeldBy(m, n, t)
  {
    if n == 0 then 0.0
    else CompoundedContributions(m, p, n - 1, t) + Grow(Contribution(m, p, n - 1), p.dailyGrowth, t - m.dates[n - 1])
  }

  /** Holding the whole sum d more days, from t to u, grows it by d days. */
  lemma {:induction false} CompoundShift(m: Market, p: Params, n: nat, t: Date, u: Date, d: nat)
    requires HeldBy(m, n, t) && HeldBy(m, n, u) && u == t + d
    ensures CompoundedContributions(m, p, n, u) == Grow(CompoundedContributions(m, p, n, t), p.dailyGrowth, d)
  {
    if n > 0 {
      CompoundShift(m, p, n - 1, t, u, d);
      GrowSplit(Contribution(m, p, n - 1), p.dailyGrowth, u - m.dates[n - 1], t - m.dates[n - 1], d);
      GrowSum(CompoundedContributions(m, p, n - 1, t),
              Grow(Contribution(m, p, n - 1), p.dailyGrowth, t - m.dates[n - 1]), p.dailyGrowth, d);
    } else {
      GrowZero(p.dailyGrowth, d);
    }
  }

  /** A day with no baseline buy and no breached band only accrues and deposits. */
  lemma QuietDayCash(m: Market, p: Params, dip: DipState, i: nat)
    requires ValidMarket(m) && ValidParams(p) && i < |m.dates| && dip.minBand >= -1
    requires p.baseFraction <= 0.0 && p.amountPerContrib >= 0.0 && Band(p.thresholdsPct, m.dd[i]) == -1
    ensures DipDay(m, p, dip, i).cash == Accrue(dip, p.dailyGrowth, m.dates[i] - PrevDate(m, i)).cash + Contribution(m, p, i)
  {
    var before := DipBeforeTrigger(m, p, dip, i);
    ArmedBand(m, p, dip, i);
    assert !TriggerFires(p, before, ActionDay(m, p, i), m.dd[i]);
  }

  /**
   * Held cash that matched the sum on day t matches it on a later day u:
   * accrual grows positive cash and leaves zero cash at zero.
   */
  lemma AccrueCompounds(m: Market, p: Params, n: nat, dip: DipState, t: Date, u: Date)
    requires HeldBy(m, n, t) && HeldBy(m, n, u) && t < u && p.dailyGrowth >= 0.0
    requires dip.cash == CompoundedContributions(m, p, n, t) && dip.cash >= 0.0
    ensures Accrue(dip, p.dailyGrowth, u - t).cash == CompoundedContributions(m, p, n, u)
    ensures Accrue(dip, p.dailyGrowth, u - t).cash >= 0.0
  {
    CompoundShift(m, p, n, t, u, u - t);
    if dip.cash == 0.0 {
      GrowZero(p.dailyGrowth, u - t);
    }
  }

  /** Trading days are increasing, so the first n of them fall on or before the n-th. */
  lemma MarketHeldBy(m: Market, n: nat, t: Date)
    requires ValidMarket(m) && 0 < n <= |m.dates| && m.dates[n - 1] <= t
    ensures HeldBy(m, n, t)
  {
  }

  /** The Dip-SIP after day n is that day's DipDay of its state before it. */
  lemma DipAfter(m: Market, p: Params, n: nat)
    requires ValidMarket(m) && ValidParams(p) && 0 < n <= |m.dates|
    ensures SimAfter(m, p, n).dip == DipDay(m, p, SimAfter(m, p, n - 1).dip, n - 1)
  {
  }

  /** Day n's held cash: what day n - 1 left, accrued, plus the day's contribution. */
  lemma QuietDayAfter(m: Market, p: Params, n: nat)
    requires ValidMarket(m) && ValidParams(p) && 0 < n <= |m.dates|
    requires p.baseFraction <= 0.0 && p.amountPerContrib >= 0.0 && Band(p.thresholdsPct, m.dd[n - 1]) == -1
    ensures SimAfter(m, p, n).dip.cash
         == Accrue(SimAfter(m, p, n - 1).dip, p.dailyGrowth, m.dates[n - 1] - PrevDate(m, n - 1)).cash + Contribution(m, p, n - 1)
  {
    DipAfter(m, p, n);
    QuietDayCash(m, p, SimAfter(m, p, n - 1).dip, n - 1);
  }

  /**
   * Without baseline buys and with no band ever breached, the Dip-SIP's
   * held cash is exactly its contributions so far, each compounded at the
   * daily growth factor for the calendar days it has been held.
   */
  lemma {:induction false} HeldCashCompounds(m: Market, p: Params, n: nat)
    requires ValidMarket(m) && ValidParams(p) && 0 < n <= |m.dates|
    requires p.baseFraction <= 0.0 && p.amountPerContrib >= 0.0 && p.dailyGrowth >= 0.0
    requires forall k :: 0 <= k < n ==> Band(p.thresholdsPct, m.dd[k]) == -1
    ensures SimAfter(m, p, n).dip.cash == CompoundedContributions(m, p, n, m.dates[n - 1])
    ensures SimAfter(m, p, n).dip.cash >= 0.0
  {
    MarketHeldBy(m, n, m.dates[n - 1]);
    assert Accrue(SimAfter(m, p, n - 1).dip, p.dailyGrowth, m.dates[n - 1] - PrevDate(m, n - 1)).cash
        == CompoundedContributions(m, p, n - 1, m.dates[n - 1]) >= 0.0 by {
      if n > 1 {
        MarketHeldBy(m, n - 1, m.dates[n - 2]);
        HeldCashCompounds(m, p, n - 1);
        AccrueCompounds(m, p, n - 1, SimAfter(m, p, n - 1).dip, m.dates[n - 2], m.dates[n - 1]);
      }
    }
    QuietDayAfter(m, p, n);
    GrowNone(Contribution(m, p, n - 1), p.dailyGrowth, m.dates[n - 1] - m.dates[n - 1]);
  }
}
