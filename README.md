# Dip-SIP backtest engine, modelled in Dafny

This project models the backtest core of a tool that compares two ways of
investing a fixed contribution over a daily price series:

- the **Standard SIP** buys units at once on every contribution date;
- the **Dip-SIP** holds its contributions as cash. On contribution dates it
  invests a fixed base fraction of that cash. When the drawdown from the
  rolling price high enters a drawdown band deeper than any entered since the
  last fresh high, it invests that band's deploy fraction. A fresh high
  "re-arms" the bands. Held cash earns interest between trading dates.

Modules:

- `Calendar` (`calendar.dfy`): contribution dates (daily, or the last trading
  day of each week or month) and the rescaling of a monthly amount.
- `Engine` (`engine.dfy`) has three parts.
  - Price-series normalisation and the rolling high and drawdown.
  - The band function and its loop `BandFromDd`.
  - The day-by-day simulation. The function `StepDay` specifies one day,
    `SimAfter` the state after n days and `BacktestOf` the whole result.
    The method `RunBacktest` updates local state in a loop, as the source
    does, through `SimulateDay` and `Simulate`. It is proved to return
    exactly `BacktestOf`.
- `EngineProperties` (`engine_properties.dfy`): lemmas about `SimAfter` and
  `BacktestOf` (conservation, cash, bands, trade counts, ledger shape) and
  about normalisation and drawdown.
- `HeldCash` (`held_cash.dfy`): interest on the Dip-SIP's held cash. The
  Dip-SIP's held cash equals the reference sum `CompoundedContributions`,
  which is every contribution so far grown at the daily factor for the
  calendar days it has been held. This holds when:
  - the base fraction is zero or less;
  - the contribution amount and the growth factor are non-negative;
  - no band is breached on any day so far.
- `BuyColumns` (`buy_columns.dfy`): the ledger's dip_base_buy and
  dip_trigger_buy columns of one day, written out in terms of the day's
  inputs.
- `DailyScenario` (`daily_scenario.dfy`): a two-day example run end to end
  from a price series through `MakeMarket` and `BacktestOf`.
- `Models` and `Wrappers`: shared records, the error type, `Option` and
  `Result`.

Representation:

- Dates are day numbers counted from 1970-01-01.
- Prices and amounts are exact reals.
- A `ValueError` of the source is an `Err` value: `ConfigMismatch`,
  `InvalidSchedule` or `InvalidWindow`.

Where the code and its documentation differ, the model follows the code:

- Weekly and monthly contribution dates come back in input order, not as an
  ordered set. The engine only uses them as a set.
- `base_fraction` in [0,1] is not checked by the engine. The cash lemma
  states the bound as its own hypothesis.

## Model

| member | source | states |
|---|---|---|
| Calendar.MakeContributionDates | core/calendar.py:6-16 | fails exactly for a schedule other than daily, weekly or monthly (InvalidSchedule); daily returns the trading days unchanged, weekly and monthly the last trading day of each week or month (PeriodEnds); every returned date is a trading day |
| Calendar.PeriodEndsOf | core/calendar.py:10-15 | a date is kept exactly when it is an input date and no input date of its week/month is later |
| Calendar.GroupMax | core/calendar.py:12 | the group-by-period maximum: an input date (or d) of d's period, at least d and at least every input date of that period |
| Calendar.PeriodEndsAreGroupMaxima | core/calendar.py:10-15 | weekly/monthly dates are exactly the per-period maxima: every input date's period maximum is kept and every kept date is its period's maximum |
| Calendar.EveryPeriodHasAnEnd | core/calendar.py:10-15 | every week/month present in the input has a contribution date, no earlier than any of its trading days |
| Calendar.OneEndPerPeriod | core/calendar.py:10-15 | no week or month has two contribution dates |
| Calendar.LastTradingDayIsPeriodEnd | core/calendar.py:10-15 | on sorted input the final trading day is a weekly/monthly contribution date |
| Calendar.ContributionDatesKeepLastDay | core/calendar.py:6-15 | for every valid schedule the final trading day is a contribution date |
| Calendar.WeekKey | core/calendar.py:12 | the weekly key `to_period('W')`: week w covers the seven days 7w-3 .. 7w+3 |
| Calendar.WeekKeyAnchors | core/calendar.py:12 | weekly periods run Monday to Sunday (1969-12-29 .. 1970-01-04 is one week, its neighbours differ) |
| Calendar.MonthKeyJanuary | core/calendar.py:15 | 1970-01-31 falls in January 1970 |
| Calendar.MonthKeyFebruary | core/calendar.py:15 | 1970-02-01 falls in February 1970 |
| Calendar.MonthKeyLeapDay | core/calendar.py:15 | 2000-02-29, the last day of a 400-year era, falls in February 2000 |
| Calendar.ScaleAmountForSchedule | core/calendar.py:19-27 | fails exactly for an unknown schedule; otherwise the amount times the schedule's events per year (12, 52, 252) is 12 monthly amounts |
| Calendar.AnnualTotalInvariant | core/calendar.py:20-26 | 52 weekly, 252 daily and 12 monthly amounts give the same annual total |
| Calendar.ScaleAmountLinearMonotone | core/calendar.py:19-26 | the rescaling is additive, homogeneous, maps zero to zero and is monotone |
| Engine.DropMissing | core/engine.py:14 | present row i becomes point number PresentBefore(rows, i), so the rows with a present close are kept in input order; the length is the number of present rows |
| Engine.DropMissingCovers | core/engine.py:14 | every point of the result comes from a row with a present close |
| Engine.DedupKeepLast | core/engine.py:19 | every kept point is an input point |
| Engine.NormalizePriceSeries | core/engine.py:11-19 | every point of the normalised series is an input row with that date and a present close equal to its price |
| Engine.WindowMax | core/engine.py:23 | the window maximum bounds every element and is one of them |
| Engine.RollingHigh | core/engine.py:23 | the rolling high bounds every price of the trailing window clipped at index 0 |
| Engine.RollingHighAttained | core/engine.py:23 | the rolling high is a price of its window |
| Engine.DrawdownFromRollingHigh | core/engine.py:22-25 | fails exactly for a window shorter than one observation; otherwise one rolling high and one drawdown per price |
| Engine.DrawdownAt | core/engine.py:22-25 | day i's rolling high is its window maximum and at least the price, and its drawdown is (price/high - 1)*100 |
| Engine.Band | core/engine.py:68-73 | the last index in list order whose threshold is breached, or -1: in [-1, len), breached, and no later threshold breached |
| Engine.BandFromDd | core/engine.py:68-73 | the loop returns exactly the band of the drawdown |
| Engine.Accrue | core/engine.py:79-81 | accrual changes only held cash; cash is unchanged when no days elapsed or it is not positive; non-negative cash stays non-negative at a non-negative growth factor |
| Engine.StepDay | core/engine.py:76-141 | one day: the row records the day's market data and contribution; sip_buy is the positive contribution; the Standard SIP adds exactly that buy as one trade and one cashflow; the Dip-SIP is that day's DipDay, and its cash is the accrued cash plus the deposit less both buys; dip_base_buy is BaseAmount of the accrued, deposited and re-armed state and dip_trigger_buy is TriggerAmount of the state after the baseline buy, each in its own column |
| Engine.SimAfter | core/engine.py:75-141 | after n days the ledger has n rows and min_band lies in [-1, len(thresholds)) |
| Engine.MakeMarket | core/engine.py:45-47 | succeeds exactly for a known schedule and a window of at least one observation; the market is valid, carries the series' own dates and prices, its contribution set is the calendar's contribution dates, and its drawdowns and rolling highs are DrawdownFromRollingHigh's |
| Engine.BacktestOf | core/engine.py:40-47 | a threshold/deploy length mismatch fails before anything else, then an invalid schedule, then an invalid window; with none of these the backtest succeeds, with one ledger row per price |
| Engine.Finish | core/engine.py:143-158 | the summary: total contributed is the SIP total; each final value is the holding at the last price (plus held cash for the Dip-SIP) and ends that strategy's cashflows passed to xirr; alpha is the XIRR difference; the trade counts and the ledger are the simulation's |
| Engine.BaselineBuy | core/engine.py:105-113 | the in-place baseline buy leaves exactly the state of the specification BaseStep (a second statement of the same update) |
| Engine.TriggerBuy | core/engine.py:115-127 | the in-place trigger buy leaves exactly the state of the specification TriggerStep (a second statement of the same update) |
| Engine.SimulateDay | core/engine.py:76-141 | one pass of the loop body computes exactly the specified day: both new states and the ledger row |
| Engine.Simulate | core/engine.py:49-75 | the loop from the initial states yields exactly the state after all days |
| Engine.RunOnMarket | core/engine.py:49-158 | the loop and liquidation over a prepared market return exactly Finish of the state after all days |
| Engine.RunBacktest | core/engine.py:28-158 | the imperative run returns exactly the specified result or error |
| EngineProperties.DipDayBookkeeping | core/engine.py:84-127 | the deposit is the only change to Dip-SIP's total and cashflows; at most two trades per day |
| EngineProperties.ArmedBand | core/engine.py:101-103 | a fresh high resets min_band to -1 before the trigger check, otherwise it is kept (by unfolding the definitions) |
| EngineProperties.SimAfterNext | core/engine.py:129 | each day appends exactly its row to the ledger (by unfolding SimAfter) |
| EngineProperties.RowsPrefix | core/engine.py:129 | a written ledger row is never changed by later days |
| EngineProperties.RowAt | core/engine.py:129-141 | ledger row k belongs to day k: its market data, contribution and both buy columns are day k's, and it values both strategies at day k's price with the state after day k |
| BuyColumns.BuyColumnsOfDay | core/engine.py:105-127 | dip_base_buy is base_fraction of the accrued cash plus the deposit on a contribution day with cash held, else 0; dip_trigger_buy is deploy[level] of the cash left after it when an action day with cash held breaches a band deeper than min_band (reset to -1 at a fresh high), else 0 |
| EngineProperties.TotalsMatchSipBuys | core/engine.py:91-96 | both strategies' totals are equal and equal the sum of the sip_buy column |
| EngineProperties.SameCashflows | core/engine.py:93-97 | both strategies record identical contribution cashflows, one per SIP trade |
| EngineProperties.ContributionColumn | core/engine.py:84-94 | with a non-negative amount the contribution and sip_buy columns have equal sums |
| EngineProperties.ContributionConservation | core/engine.py:84-97 | the combined conservation facts, including total = sum of the contribution column |
| EngineProperties.SipBuyIsContribution | core/engine.py:84-94 | with a non-negative amount every row's sip_buy equals its contribution |
| EngineProperties.DipDayCash | core/engine.py:79-124 | one day keeps held cash non-negative when the fractions are at most 1 and growth is non-negative |
| EngineProperties.CashNonNegative | core/engine.py:79-124 | held cash is never negative on any day, under the same hypotheses |
| EngineProperties.MinBandStep | core/engine.py:101-127 | min_band resets at a fresh high; a trigger fires exactly into a breached band deeper than it and becomes the new min_band; otherwise it is unchanged |
| EngineProperties.MinBandKeptWithoutRearm | core/engine.py:101-127 | a day that does not re-arm never lowers min_band |
| EngineProperties.MinBandNonDecreasing | core/engine.py:119-127 | between re-arms min_band never decreases |
| EngineProperties.NoRetriggerWithinEpisode | core/engine.py:119-127 | after a trigger, the same or a shallower band does not trigger again before the next re-arm |
| EngineProperties.StaysArmed | core/engine.py:101-127 | from a re-arming day until the next trigger buy, min_band stays -1 |
| EngineProperties.RearmAllowsRetrigger | core/engine.py:101-127 | on a re-arming day and on every later day before the next trigger buy, a trigger fires exactly when it is an action day, cash is held and some band is breached |
| EngineProperties.TriggerOnlyOnContributionDays | core/engine.py:117 | without daily dip buys a trigger happens only on a contribution date (by unfolding the definitions) |
| EngineProperties.SipTradesCount | core/engine.py:88-92 | SIP trades equal the number of contribution dates when the amount is positive, else zero |
| EngineProperties.DipTradesBound | core/engine.py:107-125 | Dip-SIP makes at most two trades per day |
| EngineProperties.NoBreachNoDipTrades | core/engine.py:105-127 | with no base fraction and no band ever breached, the Dip-SIP never trades or holds units |
| EngineProperties.BacktestSummaryFacts | core/engine.py:139-158 | the ledger follows the input's dates and prices; the final values are the last row's valuations; total contributed is the sum of sip_buy; trade counts are bounded as above; alpha is the difference of the XIRRs |
| EngineProperties.ScenarioDay0 | core/engine.py:84-103 | in a hand-built market whose only contribution day is day 0, day 0 deposits 1200 and no band triggers |
| EngineProperties.ScenarioDay1 | core/engine.py:115-127 | in the same market day 1 enters band 0 and deploys 600 of 1200 |
| EngineProperties.TwoDays | core/engine.py:75-141 | the first two days of a market are two steps of StepDay from the initial state (by unfolding SimAfter) |
| EngineProperties.ScenarioTriggerBuy | core/engine.py:75-141 | the two days of that market: one band-0 trigger buy of 600, leaving 600 cash |
| EngineProperties.DrawdownNonPositive | core/engine.py:22-25 | drawdown is at most 0, and 0 exactly when the price is its window's maximum |
| EngineProperties.DedupStrictlyIncreasing | core/engine.py:14-19 | date-sorted input de-duplicates to strictly increasing dates |
| EngineProperties.DedupKeepsLast | core/engine.py:19 | each kept point is the last of its run of equal dates |
| EngineProperties.DedupCoversDate | core/engine.py:19 | every input date keeps a point with that date |
| EngineProperties.PresentBeforeGrows | core/engine.py:14 | the count of present rows before an index grows past every present row |
| EngineProperties.DropMissingSorted | core/engine.py:14 | dropping missing closes keeps date-sorted rows sorted |
| EngineProperties.DropMissingFacts | core/engine.py:14 | the points are exactly the rows with a present close, and sorted rows give sorted points |
| EngineProperties.RunEndIsLastPresentRow | core/engine.py:14-19 | a point that ends its run of equal dates comes from a row after which no row of that date has a present close |
| EngineProperties.NormalizeKeepsLast | core/engine.py:11-19 | each normalised point is the last row of its date with a present close (last duplicate wins) |
| EngineProperties.NormalizeFacts | core/engine.py:11-19 | the normalised series is strictly increasing; every point is the last row of its date with a present close; no date with a present close is lost |
| HeldCash.GrowAdd | core/engine.py:79-81 | compounding over a + b days equals compounding over a days and then over b more |
| HeldCash.CompoundShift | core/engine.py:79-81 | holding the reference sum d more days grows it by exactly d days of compounding |
| HeldCash.QuietDayCash | core/engine.py:79-127 | a day with no baseline buy and no breached band only accrues the held cash and adds the contribution |
| HeldCash.AccrueCompounds | core/engine.py:79-81 | cash equal to the reference sum on one trading day accrues to the reference sum on a later one, and stays non-negative |
| HeldCash.HeldCashCompounds | core/engine.py:79-127 | with no baseline buys and no band ever breached, held cash after n days equals the reference sum: every contribution compounded for the calendar days it was held |
| DailyScenario.DailyDrawdowns | core/engine.py:22-25 | for closes 100, 90 and a two-day window, the rolling high is 100, 100 and the drawdown 0, -10 |
| DailyScenario.DailyMarketBuilt | core/engine.py:45-47 | with a daily schedule the prepared market has every trading day as a contribution day |
| DailyScenario.DailyDay0 | core/engine.py:84-127 | day 0 of the daily example deposits 1200 into both strategies and no band triggers |
| DailyScenario.DailyDay1 | core/engine.py:84-127 | day 1 deposits another 1200 and band 0 deploys half of the 2400 held: a trigger buy of 1200, leaving 1200 |
| DailyScenario.DailyBacktest | core/engine.py:28-158 | run through BacktestOf, the example succeeds with 2400 contributed, no trigger on day 0, and a 1200 trigger buy leaving 1200 cash on day 1 |

## Left out

- `xirr` (core/xirr.py) is a Newton iteration over real exponents and
  floating-point NaN. It is a function parameter of `RunBacktest` and
  `BacktestOf`. Its NaN for fewer than two cashflows is not modelled.
- The daily cash rate `(1 + cash_rate_annual) ** (1/365.25) - 1` needs a real
  exponent. It is the parameter `dailyGrowth`, the factor `1 + daily_rate`.
  The integer power over elapsed days is modelled.
- Floating-point rounding, `float()` and `int()` conversions: the model
  computes with exact reals and integer parameters.
- Date parsing (`pd.to_datetime`) and the ledger's ISO date string: dates are
  day numbers and the ledger keeps the day number.
- Pandas sorting in `normalize_price_series`: `sort_values` uses an unstable
  sort by default, so pandas guarantees no order among rows of equal date,
  even on input already in date order. Which duplicate survives is then
  unspecified.
- NormalizePriceSeries: requires date-sorted rows instead of sorting them.
  Of each run of equal dates it keeps the last row in input order, as a
  stable sort would.
- The order of weekly/monthly contribution dates: the model returns them in
  input order, pandas in period order. Only membership is used.
- RunBacktest requires a non-empty series with strictly increasing dates and
  positive closes. An empty series makes the source raise an index error at
  core/engine.py:63. A zero close raises a division by zero at
  core/engine.py:90, 110 or 123 on any day that buys. On a day without a
  buy the source accepts it, with a drawdown of -100 when the rolling high is
  positive and NaN when the whole window is zero. Duplicate dates make
  `prices.loc[d]` ambiguous.
- Negative closes are accepted by the source. The model excludes them, since
  `AllPositive` is part of the valid series.
- Calendar.MonthKey: specified only at chosen dates (`MonthKeyJanuary`,
  `MonthKeyFebruary`, `MonthKeyLeapDay`). That it is non-decreasing in the
  day number is not proved.
- DrawdownFromRollingHigh: its contract states only the error case and the
  lengths. The per-day values are stated by `DrawdownAt`, which keeps the
  day-by-day proofs small.
- The dashboard, authentication, storage, data providers and jobs are not
  part of this model.
