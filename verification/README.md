# Verified model of the backtest engine, rate limiter and refresh tokens

A Dafny model of the three parts of the backend whose correctness is hardest to see from the code: the backtest engine
(`internal/engine`), the per-(route, ip) rate limiter (`internal/middleware/rate_limit.go`) and refresh-token rotation
(`internal/storage/refresh_tokens.go`, `internal/services/auth_service.go`).

Verify everything with `dafny verify dfyconfig.toml`.

## How it is organised

Code that updates state in loops is a method or a class method with loop invariants; each is proved equal to a
reference function over histories, and the properties are lemmas about those functions.

| module | content |
|---|---|
| `Types`, `Rounding`, `Series` | candles, signals, trades, results; half-away-from-zero rounding; sums and Wilder averages |
| `Indicators`, `Trend` | SMA, EMA, RSI; ATR, Supertrend, rolling VWAP |
| `Evaluator`, `Alternation` | the five signal evaluators; when their signals alternate |
| `Scheduler` | the two-pointer merge of signals and trade bars |
| `Positions`, `Engine`, `Charges` | the position state machine on prices alone; the loop with sizing, charges and the account; the cost stack |
| `Bounds`, `Runs`, `Causality`, `Accounting`, `Guarantees` | loss bounds, order and queue, no look-ahead, money, and the same carried to whole backtests |
| `IndicatorFacts`, `SignalFacts`, `RunFacts`, `TradeFacts`, `ChargeFacts`, `ReportFacts` | the meaning of indicators, signals, schedule and result, trades, charges, charts and statistics, told bar by bar and trade by trade |
| `Exits`, `LastBar`, `LastBarExamples` | on which bar every position ends; exactly when the loss bounds hold without exception, and backtests at the edge |
| `Charts`, `Stats` | the chart series and its agreement with the engine's drawdown; trade statistics |
| `RateLimiter` | the limiter class, eviction, the rolling bound |
| `TokenStore`, `AuthService`, `TokenProtocol` | the token table; refresh, login and logout; every interleaving of them |

A theorem about a whole backtest is about `Engine.Backtest`, which `Engine.RunBacktest` is proved to return. It splits
into `Engine.Decisions`, the round trips that depend on candles and strategy only, and `Engine.Summary`, which prices
and adds them up. The split is what makes the two-run comparisons (lots, slippage, charge calculators) short.

## What is abstracted

- `float64` is `real`: no rounding error, overflow or infinities. The explicit `math.Round` steps are kept. `NaN` is
  `Option`'s `None`; comparisons with it are false, as in the source.
- `time.Time` and `time.Duration` are unbounded `int` nanoseconds, so `Sub` does not saturate. Quantities are
  unbounded `int`.
- `OrderSide` is `Buy` or `Sell`; other strings are not modelled. Signal and exit reason texts are datatypes; there is
  one text per evaluator and side.
- The locals of `RunBacktest` (open trade, queue index, equity, peak, drawdown) are the fields of class
  `Engine.Session`. Long loops are split into a seeding and a smoothing method.
- Candle streams are chronological, as `internal/models/backtest.go:127-128` asks. Lemmas that need one bar per
  timestamp say `StrictlyChronological`.
- Each statement or transaction on the token table is one atomic step at one reading of the database clock, which
  never runs backwards; it may fail and then leaves the tables as they were. The unique token hash and the cascading
  user reference are those of `migrations/000018_refresh_tokens.up.sql:3-4`.
- Digests are opaque strings. `TokenProtocol.FreshAt` states the only trust placed in randomness: a new digest is not
  that of a row already deleted. A digest still stored needs no trust, the unique constraint refuses it.
- `allow` and `evictStale` are atomic and take the clock as a parameter, non-decreasing in lock order. The code reads
  the clock just before it takes the lock.

## Where code and documentation differ

The model follows the code.

- `internal/middleware/rate_limit.go:14` calls the window rolling. It is fixed: an interval of one window length can
  contain `2 * rpm - 1` granted requests (`RateLimiter.RollingBoundIsTight`) and never more. It behaves like a rolling
  one exactly for a budget of one (`RateLimiter.RollsExactlyWhen`).
- `internal/middleware/rate_limit.go:42` says `lastSeen` is updated on every request; a rejected one leaves it alone
  (`RateLimiter.RejectionLeavesLastSeen`, and exactly when in `RateLimiter.RecordedExactlyWhen`).
- `internal/middleware/rate_limit.go:130-131` says flooding cannot keep an entry alive indefinitely. With a budget of at
  least one it can: each new window grants a request (`RateLimiter.FloodSurvivesExactlyWhen`).
- `internal/engine/indicators.go:165` says direction is zero while the average true range seeds; it is 1.
- `internal/models/backtest.go:161-162` says a capital of zero or less gives zero drawdowns. It need not
  (`Charts.ZeroCapitalCanDraw`); `Charts.FlatExactlyWhen` says when all drawdowns are zero.
- `internal/models/backtest.go:137` says open positions meet the exit rules on every trade bar. The entry bar itself is
  skipped, and only that one (`Exits.EveryBarExactlyWhen`), so a position entered on the last bar is never checked
  (`LastBarExamples.LastBarEntryCanExceedStop`).
- `internal/engine/stats.go:64` says reward/risk requires a winning and a losing average. It also requires that the
  losing one is at least 0.005, below which it rounds to zero (`Stats.RewardRiskCanBeMissing`).

## Model

| member | source | states |
|---|---|---|
| `Rounding.Round2Error` | internal/engine/stats.go:165-167 | two-place rounding moves a value by at most half a hundredth |
| `Rounding.Round2Monotone` | internal/engine/stats.go:165-167 | rounding never reverses an order |
| `Rounding.RoundsHalfAway` | internal/engine/stats.go:165-167 | both roundings give the nearest multiple of their last place, and a tie goes away from zero |
| `Rounding.PercentOfFraction` | internal/engine/backtest.go:134 | a percentage rounded to two places is a hundred times the fraction rounded to four |
| `Series.SumSlide` | internal/engine/indicators.go:32-35 | adding the entering and dropping the leaving element gives the sum of the moved window |
| `Series.WilderWithin` | internal/engine/indicators.go:113-117 | a Wilder average stays within any bounds of its inputs |
| `Indicators.MakeOutput` | internal/engine/indicators.go:301-307 | an output slice is undefined exactly on its warm-up positions |
| `Indicators.SMA` | internal/engine/indicators.go:11-38 | the running-sum loop gives, at every bar, the mean of the last `period` closes, undefined before that or for a non-positive period |
| `Indicators.EMA` | internal/engine/indicators.go:43-71 | the loop gives, at every bar, the exponential average of the closes up to it |
| `Indicators.EmaWithin` | internal/engine/indicators.go:58-68 | the average never leaves the range of the closes it has seen |
| `Indicators.PriceMoves` | internal/engine/indicators.go:91-100 | every move is split into a gain and a loss |
| `Indicators.SmoothReadings` | internal/engine/indicators.go:113-117 | the smoothing loop fills every bar after the seed with the reading of its history |
| `Indicators.RSI` | internal/engine/indicators.go:76-120 | the loop gives, at every bar, the relative strength of the closes up to it, undefined on the first `period` bars |
| `Indicators.NonNegativeWilder` | internal/engine/indicators.go:108-115 | both averages stay non-negative |
| `Indicators.RsiRange` | internal/engine/indicators.go:311-317 | every reading is in [0, 100] and is the share of gains in all movement, or 100 if nothing moved |
| `Indicators.RsiMirror` | internal/engine/indicators.go:76-120 | negating all closes turns a reading x into 100 - x, unless nothing moved |
| `IndicatorFacts.SmaIsMean` | internal/engine/indicators.go:11-38 | a reading exists exactly when its window is full; times the period it is the sum of the window |
| `IndicatorFacts.EmaMovesTowardsClose` | internal/engine/indicators.go:43-71 | the first reading is the mean of the first closes; each later one moves from the one before towards the new close by two parts in period plus one |
| `IndicatorFacts.RsiIsShareOfRises` | internal/engine/indicators.go:76-120 | a reading exists exactly after `period` moves, and is the share of the averaged rises in all averaged movement, in percent, or 100 if nothing moved |
| `IndicatorFacts.RsiFullOrEmptyExactlyWhen` | internal/engine/indicators.go:76-120 | a reading is 100 if and only if no close so far fell, and 0 if and only if some fell and none rose |
| `Trend.ATR` | internal/engine/indicators.go:125-160 | the loop gives, at every bar, the Wilder average of the true ranges up to it |
| `IndicatorFacts.TrueRangeIsSmallestInterval` | internal/engine/indicators.go:131-138 | on any bar with low at most high, the true range is the length of the smallest interval that contains low, high and previous close: its ends are among them and no interval that contains them is shorter |
| `IndicatorFacts.AtrAveragesSpans` | internal/engine/indicators.go:125-160 | a reading exists exactly from bar `period` - 1 on; it is the mean of the first such lengths, then each new length weighed once against the old average weighed `period` - 1 times |
| `IndicatorFacts.AtrWithinSpans` | internal/engine/indicators.go:125-160 | a reading lies between the smallest and the largest such length so far |
| `Trend.NextReading` | internal/engine/indicators.go:192-237 | one bar of the trend loop extends the reading of the history by that bar |
| `Trend.TrendLine` | internal/engine/indicators.go:179-238 | the trend loop gives every bar the reading of its history of bands and closes |
| `Trend.Supertrend` | internal/engine/indicators.go:166-241 | line and direction at every bar are those of its history; while seeding the line is undefined and the direction 1 |
| `Trend.DirIsUnit` | internal/engine/indicators.go:209-237 | the direction of a seeded bar is 1 or -1 |
| `Trend.KeptBar` | internal/engine/indicators.go:192-237 | a bar that keeps the direction closes on the right side of its line, and its line is looser than the last one exactly when the previous close had crossed that line and the fresh band is looser |
| `Trend.Ratchet` | internal/engine/indicators.go:179-238 | inside a run of one direction, from its second bar on, the line never loosens and the close stays on the right side |
| `Trend.FlipBarCanLoosen` | internal/engine/indicators.go:220-237 | thirteen well-formed candles on which, at the evaluator's period 10 and multiplier 3, the line loosens right after a flip bar, so the flip bar has to be excluded |
| `IndicatorFacts.SupertrendStarts` | internal/engine/indicators.go:209-217 | the first trend is up exactly when the close is at most the middle of its bar plus the multiple of the average true range; the line is the band on the other side |
| `IndicatorFacts.SupertrendKeepsBands` | internal/engine/indicators.go:192-206 | each band, whichever the line is on, is the tighter of its old value and the fresh one, or the fresh one after a close beyond the old; the line is on the band of its direction |
| `IndicatorFacts.SupertrendTurnsExactlyWhen` | internal/engine/indicators.go:219-237 | an upward trend ends if and only if the bar closes under the line it would have, a downward one if and only if it closes above |
| `IndicatorFacts.BullishLineIsLargest` | internal/engine/indicators.go:188-237 | inside an upward run, from its second bar on, the line is the largest fresh lower band since that bar |
| `IndicatorFacts.BearishLineIsSmallest` | internal/engine/indicators.go:188-237 | inside a downward run, from its second bar on, the line is the smallest fresh upper band since that bar |
| `Trend.SlideWindow` | internal/engine/indicators.go:278-294 | the sliding sums give every window its own ratio of traded value to volume |
| `Trend.RollingVWAP` | internal/engine/indicators.go:247-297 | every bar gets the volume-weighted mean typical price of its window |
| `Trend.VwapWithin` | internal/engine/indicators.go:264-294 | a reading lies between the smallest and largest typical price that traded in the window, and is undefined exactly when nothing traded |
| `IndicatorFacts.VwapBalances` | internal/engine/indicators.go:247-297 | a reading exists exactly when its window is full and traded; times the traded volume it is the sum of typical price times volume |
| `Evaluator.EvaluateMACrossover` | internal/engine/evaluator.go:48-75 | the signals are the bars at which the comparison of the two averages changes, in order |
| `Evaluator.EvaluateSupertrend` | internal/engine/evaluator.go:78-100 | the signals are the direction flips |
| `Evaluator.EvaluateRSI` | internal/engine/evaluator.go:104-127 | the signals are the crossings below 30 and above 70 |
| `Evaluator.HighOfPeriod` | internal/engine/evaluator.go:142-147 | the inner loop finds the highest high of the lookback, at least zero |
| `Evaluator.ScanMomentum` | internal/engine/evaluator.go:132-170 | the breakout flag always equals the breakout state of the last bar, so the flag-driven signals are the state changes |
| `Evaluator.EvaluateVWAPCrossover` | internal/engine/evaluator.go:174-202 | the signals are the crossings of close and VWAP between adjacent bars that both have a reading |
| `Evaluator.Evaluate` | internal/engine/evaluator.go:25-44 | dispatch: nothing for no candles, the error for an unknown condition, else the signals of the named evaluator |
| `Evaluator.EvaluationChronological` | internal/engine/evaluator.go:22-44 | signals come out in chronological order |
| `SignalFacts.ConditionsTellBars` | internal/engine/evaluator.go:48-202 | for each of the five conditions, bar by bar and from its first index on: a BUY is emitted on a bar if and only if the condition of a BUY holds there, a SELL likewise, each with that bar's time and close, in order, and nothing else (means of 9 and 21 closes; direction at 10 and 3; RSI(14) going below 30 or above 70; the close against the last 20 highs; the close against the volume-weighted mean of 20 bars) |
| `SignalFacts.SidesAreTold` | internal/engine/evaluator.go:48-202 | the same for the side of one bar |
| `SignalFacts.OthersAreRefused` | internal/engine/evaluator.go:25-44 | any other condition is an error that names it, unless there are no candles |
| `Alternation.SignalsAlternate` | internal/engine/evaluator.go:48-170 | MA crossover, Supertrend and momentum never signal the same side twice in a row, on any candles |
| `Alternation.SignalsAlternateExactlyWhen` | internal/engine/evaluator.go:174-202 | a crossover evaluator alternates if and only if, between any two consecutive crossings, its state flips an even number of times inside gaps without a reading |
| `Alternation.VwapAlternatesWithVolume` | internal/engine/evaluator.go:174-202 | VWAP crossover alternates whenever every full window traded |
| `Alternation.VwapCanRepeat` | internal/engine/evaluator.go:178-181 | well-formed candles on which VWAP crossover signals BUY twice in a row |
| `Alternation.MomentumStartsWithBuy` | internal/engine/evaluator.go:139-156 | the first momentum signal is a BUY |
| `Scheduler.PlaceSignal` | internal/engine/backtest.go:153-171 | one signal of the merge lands where it should, and an early exit happens only when no later bar can serve it |
| `Scheduler.ScheduleSignals` | internal/engine/backtest.go:144-178 | the two-pointer merge yields, in order, every signal with a bar at its own time and one at or after time plus interval, paired with the first such bar; neither early exit loses a signal |
| `Scheduler.ScheduleExecutable` | internal/engine/backtest.go:144-178 | executions fall on bars, at least one interval after their signals, and never run backwards |
| `Scheduler.SpacedSignalsExecuteApart` | internal/engine/backtest.go:162-175 | signals at least one interval apart execute at strictly increasing times |
| `RunFacts.ScheduledExactlyWhen` | internal/engine/backtest.go:144-178 | a signal is scheduled if and only if a bar lies at its own time and one at or after time plus interval; it is then scheduled for the earliest such bar, in signal order |
| `Charges.BrokerageSubadditive` | internal/engine/charges.go:117-123 | capped brokerage of a sum is at most the sum of the brokerages |
| `Charges.ComputeFacts` | internal/engine/charges.go:75-115 | no component is negative, the total is the sum of the components, and every component is subadditive in quantity |
| `Charges.ShortMirrorsLong` | internal/engine/charges.go:90-101 | a short from p to q costs what the long from q to p costs |
| `ChargeFacts.RoundTripCosts` | internal/engine/charges.go:27-142 | every component of every round trip, from the published percentages of each segment: exchange and SEBI fees on both legs, STT on the sell leg, stamp duty on the buy leg, each leg's brokerage 0.03 percent and at most 20, GST 18 percent of brokerage, exchange and SEBI fees; nothing for an unknown segment |
| `ChargeFacts.LegsPayApart` | internal/engine/charges.go:92-105 | the STT of a long does not change with its entry price, its stamp duty not with its exit price; a leg at price zero pays neither |
| `ChargeFacts.DoubledEquity` | internal/engine/charges.go:75-115 | a hundred shares bought at 100 and sold at 200 cost 17.04218, component by component |
| `Engine.Session.constructor` | internal/engine/backtest.go:75-79 | a run starts flat with the account at its capital |
| `Engine.Session.RecordTrade` | internal/engine/backtest.go:195-208 | the trade is appended and the account is again the fold of all recorded trades |
| `Engine.Session.CloseTrade` | internal/engine/backtest.go:263-283 | the open trade becomes the priced round trip |
| `Engine.Session.CloseAndRecord` | internal/engine/backtest.go:87-89 | the open position moves to the closed ones, priced, and the session is flat |
| `Engine.Session.CheckExitConditions` | internal/engine/backtest.go:219-254 | the rule that fires on the bar and its price, as `Positions.RuleFiresExactlyWhen` spells them out |
| `Positions.RuleFiresExactlyWhen` | internal/engine/backtest.go:219-254 | which rule ends a position on a bar and at what price, from the bar and the percentages: the target if reached, else the stop if reached, else the close once the minutes are up, else nothing |
| `Engine.Session.Open` | internal/engine/backtest.go:106-112 | a position opens at the bar's open on the signal's side |
| `Engine.Session.TakeSignal` | internal/engine/backtest.go:94-112 | a signal is always consumed; it is ignored on the side of the open trade and reverses it otherwise |
| `Engine.Session.Step` | internal/engine/backtest.go:83-113 | one bar: exits first, then every signal that executes on it |
| `Engine.Session.Simulate` | internal/engine/backtest.go:82-120 | all bars and the forced close leave exactly the decided round trips, priced, the account that belongs to them, and the queue index where the decided run leaves it |
| `Engine.Summarise` | internal/engine/backtest.go:122-134 | totals, counts and rounded drawdown are those of the trade list |
| `Engine.RunBacktest` | internal/engine/backtest.go:47-137 | the whole engine, with its empty result and both configuration errors, equals pricing and summing up the decisions |
| `Engine.BacktestPricesDecisions` | internal/engine/backtest.go:47-137 | a backtest fails exactly when its decisions do, and its trades are the decided round trips, priced |
| `RunFacts.FailsExactlyWhen` | internal/engine/backtest.go:47-59 | without candles the result is empty; otherwise a backtest fails if and only if its condition or its interval is unknown, the condition being reported first |
| `RunFacts.IntervalLasts` | internal/engine/backtest.go:180-189 | a day is 86400 seconds, five minutes are 300, and no other interval is known |
| `RunFacts.ResultAddsUp` | internal/engine/backtest.go:122-134 | gross, charges, slippage and net are each the sum of their own column, the counts are the numbers of trades with positive and negative net |
| `TradeFacts.TradesEndAsRuled` | internal/engine/backtest.go:82-120 | every trade of every backtest: a stop loses exactly its percentage of the entry value, on a bar that reached it and not the target; a target gains exactly its own; a time exit is at the close of a bar that reached neither; reversal and end of data come at the open and the last close; nothing was reached on the bars between |
| `TradeFacts.TradesArePriced` | internal/engine/backtest.go:263-283 | every trade of every backtest: lots times lot size, gross from the two turnovers, slippage on both legs, the calculator asked about the trade's own segment, side, prices and size, and net as gross less both |
| `Exits.FirstRuleEndsPosition` | internal/engine/backtest.go:82-120 | every round trip of every run ends on the first bar after its entry bar on which target, stop-loss or time exit fires, at that rule's price, unless a reversal (at that bar's open) or the end of the data (at its close) comes before any rule does |
| `Exits.EveryBarExactlyWhen` | internal/models/backtest.go:137-138 | a position outlives a bar on which a rule fires if and only if it was entered on that bar, so the rules meet it on every bar exactly when none fires on its entry bar |
| `Exits.FirstRuleEndsTrade` | internal/engine/backtest.go:82-120 | the same for every trade of every backtest |
| `Bounds.RunStaysWithinLevels` | internal/engine/backtest.go:82-120 | every round trip of every run exits at a price its stop and target allow, whatever the exit reason, except a forced close of a position entered on the last bar; read off the final book, that one close decides |
| `Bounds.AllowedIsBounded` | internal/engine/backtest.go:219-244 | a price is allowed exactly when loss and profit per unit are within the percentages of the entry price |
| `LastBar.LevelsHoldExactlyWhen` | internal/engine/backtest.go:82-120 | told from bars and queue: all levels hold if and only if the final run of same-side signals, followed on its own, does not enter on the last bar, or the last close is allowed for an entry at the last open |
| `LastBar.LevelsHoldWhen` | internal/engine/backtest.go:82-120 | so they hold if no signal executes on the last bar or the last close is allowed; if the final run of same-side signals begins there, only then |
| `LastBar.RunStays` | internal/engine/backtest.go:85-113 | once the final run of same-side signals has begun, the engine's position is the one that run alone would hold |
| `LastBar.QueueAlternates` | internal/engine/evaluator.go:48-170 | MA crossover, Supertrend and momentum give queues of alternating sides whenever every signal time has a trade bar |
| `LastBar.EndsEntered` | internal/engine/backtest.go:93-113 | if the final run of same-side signals begins on the last bar, the run ends with a position entered there |
| `LastBarExamples.HeldPositionIgnoresLastSignal` | internal/engine/backtest.go:97-100 | a whole backtest of VWAP crossover in which an entry on the last bar would break the stop, but the earlier position is still open and every trade respects it |
| `LastBar.StopAndTargetHoldExactlyWhen` | internal/engine/backtest.go:47-137 | exactly when every trade of a backtest, without exception, respects stop and target |
| `LastBar.AlternatingHoldExactlyWhen` | internal/engine/backtest.go:47-137 | for the three alternating evaluators with a trade bar at every signal time: if and only if the last scheduled signal does not execute on the last bar or the last close is allowed |
| `LastBarExamples.LastBarEntryCanExceedStop` | internal/engine/backtest.go:47-137 | a whole backtest, 21 momentum candles and two trade bars, whose one trade loses more than its stop under any charges, lots, capital and slippage |
| `Runs.RoundTripsAreSequential` | internal/engine/backtest.go:82-120 | round trips never overlap, end within the bars, and only the last can be a forced close |
| `Runs.RunStartsWithBars` | internal/engine/backtest.go:106-112 | no entry precedes the first bar |
| `Runs.RunCatchesUp` | internal/engine/backtest.go:93-95 | after each bar exactly the signals that execute up to it have been consumed |
| `Runs.QueueDrains` | internal/engine/backtest.go:93-95 | no scheduled signal is ever left at the head of the queue |
| `Runs.SpacedSignalsHold` | internal/engine/backtest.go:82-120 | with signals at least one interval apart, every round trip not closed by the end of data is held for a positive time |
| `Runs.EntriesHaveSignals` | internal/engine/backtest.go:93-112 | whatever the exit rules, the round trips sit on distinct scheduled signals in queue order, entered on the signal's side at its execution time and the open of that bar; every other scheduled signal was ignored because a position of its side was open |
| `Runs.StopAndReverse` | internal/engine/backtest.go:93-120 | without exit rules there is one round trip per maximal run of same-side signals, each handing over to the next at the same time and price, the last closed by the end of data |
| `Causality.SignalsAreCausal` | internal/engine/evaluator.go:48-202 | the signals of a cut stream are the signals of the full stream up to the cut |
| `Causality.ScheduleIsCausal` | internal/engine/backtest.go:144-178 | the schedule of cut streams is the part of the full schedule that executes up to the cut |
| `Causality.PositionsAreCausal` | internal/engine/backtest.go:82-120 | the positions of a cut run, apart from its forced close, are those of the full run up to the cut |
| `Causality.NoLookAhead` | internal/engine/backtest.go:47-178 | cut both streams at any time and run again: the trades not closed by the end of data are exactly the trades the full run had closed by then, amounts included |
| `Accounting.MoneyIsConserved` | internal/engine/backtest.go:122-133 | net is the sum of the trades' nets, final equity is capital plus net, wins, losses and zero trades make up the total, and the service's identity check passes |
| `Accounting.NetIsSum` | internal/services/backtest.go:414-424 | gross less charges less slippage adds up to the sum of the nets |
| `Accounting.EquityIsCapitalPlusNet` | internal/engine/backtest.go:195-208 | running equity is capital plus the nets so far |
| `Accounting.OutcomesPartition` | internal/engine/backtest.go:127-131 | every trade is exactly one of win, loss and zero |
| `Accounting.PeakIsLargest` | internal/engine/backtest.go:197-200 | the streamed peak is the largest of capital and all equities so far |
| `Accounting.DrawdownIsLargestDrop` | internal/engine/backtest.go:195-208 | the streamed drawdown is the largest drop from the largest equity so far, as a share of it |
| `Accounting.ReportedDrawdown` | internal/engine/backtest.go:134 | a backtest reports that largest drop, rounded to four places |
| `Accounting.DecisionsIgnoreAmounts` | internal/engine/backtest.go:62-133 | success, times, prices, sides and reasons do not depend on lots, capital, slippage or the charge calculator |
| `Accounting.DecisionsPriced` | internal/engine/backtest.go:82-120 | well-formed candles and non-negative percentages keep every entry and exit price non-negative |
| `Accounting.LotsCombine` | internal/engine/backtest.go:62-70 | gross and slippage are additive in lots and charges subadditive, so net(L1 + L2) >= net(L1) + net(L2) |
| `Accounting.SlippageNeverHelps` | internal/engine/backtest.go:274-282 | a higher slippage percentage never improves a trade or the net |
| `Guarantees.LossAndGainAreBounded` | internal/engine/backtest.go:82-120 | every trade of a backtest loses at most its stop and gains at most its target as a share of entry value, except one entered on the last bar |
| `Guarantees.TradesNeverOverlap` | internal/engine/backtest.go:82-120 | trades never overlap, lie within the data, and only the last can be a forced close |
| `Guarantees.TradesAreHeld` | internal/engine/backtest.go:47-137 | with signal candles at least one interval apart, every trade not closed by the end of data is held for a positive time |
| `Guarantees.TradesHaveSignals` | internal/engine/backtest.go:93-112 | every trade was entered on its own scheduled signal, in order, at the bar's open and at least one interval after the signal; every other scheduled signal found a trade of its side open |
| `Guarantees.EverySignalIsConsumed` | internal/engine/backtest.go:93-95 | the run that the engine's queue index is proved to follow ends with the whole queue consumed |
| `Guarantees.StopAndReverse` | internal/engine/backtest.go:93-120 | a strategy without exit rules makes one trade per maximal run of same-side signals, on its first signal; each trade ends by reversal into the next, the last by the end of the data |
| `Guarantees.ChargesAddUp` | internal/engine/backtest.go:273-281 | under the retail cost model every trade's total is the sum of its components, on any inputs |
| `Guarantees.ChargesAreSound` | internal/engine/backtest.go:273-282 | at well-formed candles and non-negative slippage no component is negative, so net never exceeds gross |
| `Charts.BuildChartData` | internal/engine/stats.go:79-119 | one point per account state, a terminal point exactly when the last exit is not at the end, nothing for an empty window |
| `ReportFacts.ChartShowsRun` | internal/engine/stats.go:79-119 | every point: capital plus the nets so far, and the drop under the highest such equity so far, in percent of it, both with two places, at the start, every exit and the end |
| `Charts.DrawdownsAgree` | internal/engine/stats.go:87-116 | the largest chart drawdown is a hundred times the reported maximum drawdown, rounding included, for any trades and capital |
| `Charts.ChartMatchesResult` | internal/engine/stats.go:87-116 | the same for the result of any backtest charted with its own capital |
| `Charts.ChartOfRunIsSorted` | internal/engine/stats.go:84-116 | over bars inside the window both series run from start to end and never step back in time |
| `Charts.ChartEndsAtNet` | internal/engine/stats.go:88-115 | equity starts at the capital and ends at capital plus the net of all trades |
| `Charts.FlatExactlyWhen` | internal/models/backtest.go:160-162 | all drawdowns are zero if and only if no equity (capital plus the nets so far) falls 0.005 percent or more under an earlier positive one |
| `Charts.ZeroCapitalCanDraw` | internal/models/backtest.go:160-162 | with zero capital a chart can show a drawdown of 50 percent |
| `Stats.ComputeStreaks` | internal/engine/stats.go:131-153 | the two results are the lengths of the longest contiguous all-win and all-loss segments |
| `Stats.StreaksAreBounded` | internal/engine/stats.go:131-153 | a streak is at most the number of trades of its outcome |
| `Stats.Totals` | internal/engine/stats.go:20-44 | the loop finds the extremes, sums and counts of the list |
| `Stats.ComputeTradeStats` | internal/engine/stats.go:14-73 | the statistics describe the list: extremes, averages, ratios where defined, streaks, trades per week |
| `ReportFacts.StatsShowTrades` | internal/engine/stats.go:14-163 | every statistic as a rounded quotient of sums over the list: averages of nets, wins, losses and minutes, profit factor, reward/risk, best and worst, trades per week of 604800 seconds |
| `Stats.StatsAreConsistent` | internal/engine/stats.go:46-67 | after rounding, worst <= average <= best, also for the win and loss averages; averages and profit factor are present exactly when defined, reward/risk exactly when there is a win and the average loss is at least 0.005 |
| `Stats.RewardRiskCanBeMissing` | internal/engine/stats.go:64-67 | a win of 1 and a loss of 0.001 have both averages but no reward/risk |
| `RateLimiter.IpRateLimiter.constructor` | internal/middleware/rate_limit.go:68-73 | a limiter starts empty |
| `RateLimiter.IpRateLimiter.Allow` | internal/middleware/rate_limit.go:106-138 | table and answer after a request: first request, roll-over, rejection without a trace in `lastSeen`, admission |
| `RateLimiter.IpRateLimiter.EvictStale` | internal/middleware/rate_limit.go:92-101 | the sweep removes exactly the entries idle for longer than the time-to-live |
| `RateLimiter.EvictionIsInvisible` | internal/middleware/rate_limit.go:92-138 | sweeps never change a decision, for any calls with a non-decreasing clock |
| `RateLimiter.WindowIsAMinute` | internal/middleware/rate_limit.go:123-137 | a key that has used up its budget is let through again if and only if its window began sixty seconds ago, then with a whole budget; no other key is touched |
| `RateLimiter.EvictionCanShow` | internal/middleware/rate_limit.go:92-138 | for every other setting some run shows a sweep |
| `RateLimiter.EvictionSafeExactlyWhen` | internal/middleware/rate_limit.go:13-27 | no run ever shows a sweep if and only if the budget is at least one and the time-to-live at least one tick short of a window |
| `RateLimiter.LastSeenIsLastGrant` | internal/middleware/rate_limit.go:42-44 | in every run an entry's `lastSeen` is the time of the key's last granted request |
| `RateLimiter.RecordedExactlyWhen` | internal/middleware/rate_limit.go:42-44 | a request is recorded in `lastSeen` if and only if it is granted, or the last grant came at the same time |
| `RateLimiter.RejectionLeavesLastSeen` | internal/middleware/rate_limit.go:129-133 | a run in which a rejected request leaves `lastSeen` behind |
| `RateLimiter.RequestIsFresh` | internal/middleware/rate_limit.go:123-137 | with budgets of at least one, any request, granted or not, leaves its entry seen within the last window |
| `RateLimiter.FloodIsNeverSwept` | internal/middleware/rate_limit.go:130-131 | a flood, of which every sweep finds a request a window more recent than the time-to-live, keeps its entry for ever |
| `RateLimiter.FloodSurvivesExactlyWhen` | internal/middleware/rate_limit.go:130-131 | for sweeps that wait at least a window, every flood keeps its entry alive if and only if the budget is at least one |
| `RateLimiter.FloodWithRejections` | internal/middleware/rate_limit.go:129-137 | a flood with two rejected requests whose entry a sweep finds, where after the first request alone it would be gone |
| `RateLimiter.ModerateIsNeverRejected` | internal/middleware/rate_limit.go:103-137 | a key that makes at most rpm requests in every interval of one window length is never rejected, whatever the sweeps and the other keys |
| `RateLimiter.RollingBound` | internal/middleware/rate_limit.go:106-138 | no interval of one window length contains more than 2 * rpm - 1 granted requests of one key, sweeps included; other keys' budgets do not matter |
| `RateLimiter.RollingBoundIsTight` | internal/middleware/rate_limit.go:106-138 | for every budget some run reaches that bound |
| `RateLimiter.WindowCanOverflow` | internal/middleware/rate_limit.go:106-138 | for every other setting than the next row's some run grants more than the budget within a window length |
| `RateLimiter.RollsExactlyWhen` | internal/middleware/rate_limit.go:13-15 | no run ever grants more than the budget within a window length if and only if the budget is one and sweeps wait for a window, less one tick |
| `TokenStore.Database.Create` | internal/storage/refresh_tokens.go:32-42 | a row is inserted, or the call fails and nothing changes: duplicate digest, unknown user or database trouble |
| `TokenStore.Database.LookupActiveUserID` | internal/storage/refresh_tokens.go:47-61 | the user of an existing, unrevoked, unexpired row, else not found |
| `TokenStore.Database.RotateRefreshToken` | internal/storage/refresh_tokens.go:66-101 | the old row is revoked and the new one inserted, or nothing changes, wherever the transaction fails |
| `TokenStore.Database.RevokeByHash` | internal/storage/refresh_tokens.go:106-117 | idempotent revocation that keeps the first revocation time |
| `TokenStore.Database.DeleteExpired` | internal/storage/refresh_tokens.go:121-127 | exactly the rows expired before now go, all others stay as they are, and the number removed is returned |
| `TokenStore.CleanupKeepsLookups` | internal/storage/refresh_tokens.go:119-127 | a sweep changes no lookup's answer, now or later |
| `TokenStore.UserTakesTokens` | migrations/000018_refresh_tokens.up.sql:3 | with a user go exactly the user's tokens |
| `TokenStore.RotationSwaps` | internal/storage/refresh_tokens.go:63-101 | after a rotation the old token is dead for ever, the new one valid until it expires, and no other lookup changes |
| `AuthService.Service.AllowlistAllows` | internal/services/auth_service.go:221-232 | membership, or an empty list in development and test |
| `AuthService.Service.RefreshSession` | internal/services/auth_service.go:123-174 | answer and tables after a refresh in every world of failures; the error is exactly the one `AuthService.RefreshBlames` spells out |
| `AuthService.RefreshBlames` | internal/services/auth_service.go:123-174 | the token is refused as invalid if and only if it is at fault first (not usable at the lookup, its user gone or not let in, not usable at the rotation), the answer is internal if and only if a failure of the system is first, and the session is granted otherwise; who is let in is spelled out |
| `AuthService.OffTheListIsRefused` | internal/services/auth_service.go:221-232 | a user outside a non-empty allowlist is refused whatever the token, and nothing changes |
| `AuthService.GrantWrites` | internal/services/auth_service.go:149-173 | a grant revokes the presented row at the time of the rotation, adds one row for the same user that lasts thirty days, and changes nothing else |
| `AuthService.Service.MintSession` | internal/services/auth_service.go:189-214 | a row is stored exactly when a session is granted |
| `AuthService.Service.Logout` | internal/services/auth_service.go:178-183 | a well-formed token is revoked, a malformed one refused |
| `AuthService.RefreshSpendsExactlyOnce` | internal/services/auth_service.go:123-174 | a granted refresh spends the token, stores one successor for the same allowed user, and cannot be repeated; a refusal changes nothing unless only signing failed |
| `TokenProtocol.UninterruptedRefresh` | internal/services/auth_service.go:129-170 | the protocol's steps, run with nothing but time between them, do to the tables what a refresh does, in every world of database failures, missing entropy and failing signatures |
| `TokenProtocol.StepKeepsSound` | internal/services/auth_service.go:123-174 | every step of every actor keeps the invariant: rooted chains, one owner, one unrevoked row per login, spent tokens spent |
| `TokenProtocol.AlwaysSound` | internal/services/auth_service.go:123-174 | the invariant holds in every reachable state |
| `TokenProtocol.EachTokenRotatesOnce` | internal/storage/refresh_tokens.go:63-101 | however refreshes interleave, no token is ever exchanged twice |
| `TokenProtocol.OneUsableTokenPerLogin` | internal/storage/refresh_tokens.go:63-101 | two usable tokens of one login are the same token |
| `TokenProtocol.TokensKeepTheirUser` | internal/services/auth_service.go:129-159 | every stored token belongs to the user whose login began its chain |
| `TokenProtocol.RotationKeepsUser` | internal/services/auth_service.go:154-159 | the new token goes to the owner of the consumed one, though the service inserts the user of an earlier lookup and drops the one the rotation returns |
| `TokenProtocol.DeadTokensStayDead` | internal/storage/refresh_tokens.go:47-61 | a token once refused (spent, revoked, expired or deleted) is refused at every later moment |
| `TokenProtocol.EndsExactlyWhen` | internal/storage/refresh_tokens.go:47-117 | one step makes a usable token unusable if and only if it commits a rotation by a session presenting it, logs out with it, deletes its user, or takes the clock to its expiry |
| `TokenProtocol.SomethingEndedIt` | internal/storage/refresh_tokens.go:47-117 | in every run, a token usable once and not later was ended in between in one of these ways |
| `TokenProtocol.LogoutEndsLogin` | internal/services/auth_service.go:176-183 | a logout ends the whole login if and only if its token is the login's unrevoked one |
| `TokenProtocol.LoggedOutForGood` | internal/services/auth_service.go:176-183 | an ended login never comes back, whatever refreshes were under way |
| `TokenProtocol.CleanupIsInvisible` | internal/storage/refresh_tokens.go:119-127 | erase every cleanup from a run: all refreshes proceed and all lookups answer as before |

## Left out

- IEEE-754 rounding error: amounts are reals, so the running sums are exact here and only nearly so in the program.
- Integer width, and the saturation of `time.Duration`: numbers are unbounded.
- Order of RSI signals: they need not alternate and nothing is claimed about it.
- Numeric candles and parameters that are themselves NaN or infinite.
- The nil result of `validateBacktestPnlIdentity`: the engine never returns one.
- The rate limiter's goroutine, mutex and HTTP middleware: operations are atomic steps with a clock parameter.
- Firebase verification, identity conflicts and the user upsert's own fields: a login is a user row and a minted token.
- JWT signing, SHA-256, random bytes and base64url: inputs that may fail, opaque digests.
- RateLimiter.RollingBound: assumes that the key's requests use one budget of at least one and that no sweep's
  time-to-live is shorter than a window less one tick, which all routes and the background sweep satisfy.
- Row ids and `created_at` of token rows: nothing reads them here.
- Allowlist changes during a run of the protocol: the list is fixed when the service is built.
- HTTP handlers, pagination, configuration, logging, market-data providers, the submission lifecycle of a backtest and
  the strategy registry: short branch chains around storage calls.
