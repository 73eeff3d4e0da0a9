/** What a whole backtest guarantees about its trades: the position-level results carried through the pipeline. */
module Guarantees {
  import opened Types
  import opened Scheduler
  import opened Engine
  import Evaluator
  import P = Positions
  import Bounds
  import Runs
  import Charges
  import Accounting

  /** A run that gets as far as its bars: the candles are there and the configuration is valid. */
  ghost predicate Runnable(strategy: Strategy, inputs: EngineInputs) {
    |inputs.signalCandles| > 0 && |inputs.tradeCandles| > 0 && Decisions(strategy, inputs).Ok?
  }

  /** The scheduled signals of a run; none if its configuration is invalid. */
  ghost function Queue(strategy: Strategy, inputs: EngineInputs): seq<Scheduled> {
    var signals := Evaluator.Evaluation(strategy.entryCondition, inputs.signalCandles);
    var interval := IntervalDuration(inputs.interval);
    if signals.Ok? && interval.Some? then Schedule(signals.value, inputs.tradeCandles, interval.value) else []
  }

  lemma DecisionsAreRoundTrips(strategy: Strategy, inputs: EngineInputs)
    ensures Runnable(strategy, inputs) ==>
              Decisions(strategy, inputs) == Ok(P.RoundTrips(inputs.tradeCandles, Queue(strategy, inputs), strategy))
  {
  }

  lemma QueueIsExecutable(strategy: Strategy, inputs: EngineInputs)
    requires Runnable(strategy, inputs) && Chronological(inputs.signalCandles) && Chronological(inputs.tradeCandles)
    ensures Ordered(Queue(strategy, inputs)) && OnBars(Queue(strategy, inputs), inputs.tradeCandles)
    ensures Delayed(Queue(strategy, inputs), IntervalDuration(inputs.interval).value)
  {
    Evaluator.EvaluationChronological(strategy.entryCondition, inputs.signalCandles);
    ScheduleExecutable(Evaluator.Evaluation(strategy.entryCondition, inputs.signalCandles).value, inputs.tradeCandles,
                       IntervalDuration(inputs.interval).value);
  }

  // ---------------------------------------------------------------- loss and gain

  /** Entered on the last bar of the data and closed with it. */
  ghost predicate LastBarTrade(t: Trade, bars: seq<Candle>) {
    |bars| > 0 && t.exitReason == Some(EndOfData) && t.entryTimestamp == bars[|bars| - 1].timestamp
  }

  ghost predicate WithinStop(t: Trade, s: Strategy) {
    s.stopLossPct.Some? ==> t.grossPnL >= -(Bounds.Move(t.entryPrice, s.stopLossPct.value) * t.quantity as real)
  }

  ghost predicate WithinTarget(t: Trade, s: Strategy) {
    s.targetPct.Some? ==> t.grossPnL <= Bounds.Move(t.entryPrice, s.targetPct.value) * t.quantity as real
  }

  ghost predicate AllWithin(ts: seq<Trade>, s: Strategy, bars: seq<Candle>) {
    forall i :: 0 <= i < |ts| && !LastBarTrade(ts[i], bars) ==> WithinStop(ts[i], s) && WithinTarget(ts[i], s)
  }

  lemma ScaleBoth(x: real, y: real, q: real)
    requires q > 0.0
    ensures x <= y <==> x * q <= y * q
  {
    assert (y - x) * q == y * q - x * q;
    if x * q <= y * q { assert y - x < 0.0 ==> (y - x) * q < 0.0; }
  }

  lemma GrossIsScaledProfit(e: P.Entry, price: real, qty: int)
    ensures Gross(e.side, e.price, price, qty) == Bounds.UnitProfit(e, price) * qty as real
  {
  }

  /** A trade stays within stop and target exactly when its exit price is allowed. */
  lemma WithinIsAllowed(p: Pricing, rt: P.RoundTrip, s: Strategy)
    requires p.qty >= 1
    ensures WithinStop(Settle(p, rt), s) && WithinTarget(Settle(p, rt), s) <==>
            Bounds.Allowed(rt.entry, rt.exitPrice, s)
  {
    var e, q, profit := rt.entry, p.qty as real, Bounds.UnitProfit(rt.entry, rt.exitPrice);
    GrossIsScaledProfit(e, rt.exitPrice, p.qty);
    Bounds.AllowedIsBounded(e, rt.exitPrice, s);
    if s.stopLossPct.Some? { ScaleBoth(-Bounds.Move(e.price, s.stopLossPct.value), profit, q); }
    if s.targetPct.Some? { ScaleBoth(profit, Bounds.Move(e.price, s.targetPct.value), q); }
  }

  /** Every trade of every run loses at most its stop and gains at most its target, as a share of the entry value,
      whatever its exit reason; only a trade entered on the last bar escapes. */
  lemma LossAndGainAreBounded(charges: ChargeCalculator, strategy: Strategy, inputs: EngineInputs, cfg: RunConfig)
    requires Bounds.ValidPercentages(strategy)
    requires forall i :: 0 <= i < |inputs.tradeCandles| ==> inputs.tradeCandles[i].WellFormed()
    ensures var b := Backtest(charges, strategy, inputs, cfg);
            b.Ok? ==> AllWithin(b.value.trades, strategy, inputs.tradeCandles)
  {
    BacktestPricesDecisions(charges, strategy, inputs, cfg);
    if Runnable(strategy, inputs) {
      var p, rts := PricingOf(charges, strategy, cfg), Decisions(strategy, inputs).value;
      DecisionsAreRoundTrips(strategy, inputs);
      Bounds.RunStaysWithinLevels(inputs.tradeCandles, Queue(strategy, inputs), strategy);
      Accounting.QuantityNonNegative(strategy.lotSize, cfg.lots);
      TradesWithin(p, rts, strategy, inputs.tradeCandles);
    }
  }

  lemma TradesWithin(p: Pricing, rts: seq<P.RoundTrip>, s: Strategy, bars: seq<Candle>)
    requires p.qty >= 1 && |bars| > 0
    requires forall i :: 0 <= i < |rts| && !Bounds.Allowed(rts[i].entry, rts[i].exitPrice, s) ==>
               rts[i].exitReason == EndOfData && Bounds.EnteredOn(rts[i].entry, bars[|bars| - 1])
    ensures AllWithin(SettleAll(p, rts), s, bars)
  {
    var ts := SettleAll(p, rts);
    forall i | 0 <= i < |ts| && !LastBarTrade(ts[i], bars) ensures WithinStop(ts[i], s) && WithinTarget(ts[i], s) {
      WithinIsAllowed(p, rts[i], s);
    }
  }

  // ---------------------------------------------------------------- order in time

  ghost predicate TradesSequential(ts: seq<Trade>) {
    && (forall i :: 0 <= i < |ts| ==> ts[i].entryTimestamp <= ts[i].exitTimestamp)
    && (forall i, j :: 0 <= i < j < |ts| ==> ts[i].exitTimestamp <= ts[j].entryTimestamp)
    && (forall i :: 0 <= i < |ts| && ts[i].exitReason == Some(EndOfData) ==> i == |ts| - 1)
  }

  ghost predicate TradesInside(ts: seq<Trade>, bars: seq<Candle>) {
    forall i :: 0 <= i < |ts| ==>
      |bars| > 0 && bars[0].timestamp <= ts[i].entryTimestamp && ts[i].exitTimestamp <= bars[|bars| - 1].timestamp
  }

  /** The trades of a run never overlap, lie within the data, and only the last can be a forced close. */
  lemma TradesNeverOverlap(charges: ChargeCalculator, strategy: Strategy, inputs: EngineInputs, cfg: RunConfig)
    requires Chronological(inputs.tradeCandles)
    ensures var b := Backtest(charges, strategy, inputs, cfg);
            b.Ok? ==> TradesSequential(b.value.trades) && TradesInside(b.value.trades, inputs.tradeCandles)
  {
    BacktestPricesDecisions(charges, strategy, inputs, cfg);
    if Runnable(strategy, inputs) {
      DecisionsAreRoundTrips(strategy, inputs);
      Runs.RoundTripsAreSequential(inputs.tradeCandles, Queue(strategy, inputs), strategy);
      Runs.RunStartsWithBars(inputs.tradeCandles, Queue(strategy, inputs), strategy, |inputs.tradeCandles|);
    }
  }

  ghost predicate HeldOvertime(ts: seq<Trade>) {
    forall i :: 0 <= i < |ts| && ts[i].exitReason != Some(EndOfData) ==> ts[i].entryTimestamp < ts[i].exitTimestamp
  }

  /** When signal candles are at least one interval apart, every trade not closed by the end of data is held for a
      positive time. */
  lemma TradesAreHeld(charges: ChargeCalculator, strategy: Strategy, inputs: EngineInputs, cfg: RunConfig)
    requires StrictlyChronological(inputs.tradeCandles)
    requires var interval := IntervalDuration(inputs.interval);
             interval.Some? ==> CandlesApart(inputs.signalCandles, interval.value)
    ensures var b := Backtest(charges, strategy, inputs, cfg); b.Ok? ==> HeldOvertime(b.value.trades)
  {
    BacktestPricesDecisions(charges, strategy, inputs, cfg);
    if Runnable(strategy, inputs) {
      DecisionsAreRoundTrips(strategy, inputs);
      var interval := IntervalDuration(inputs.interval).value;
      Evaluator.EvaluationApart(strategy.entryCondition, inputs.signalCandles, interval);
      Runs.SpacedSignalsHold(Evaluator.Evaluation(strategy.entryCondition, inputs.signalCandles).value,
                             inputs.tradeCandles, interval, strategy);
    }
  }

  // ---------------------------------------------------------------- every trade has its signal

  /** The trade was entered on a scheduled signal, at the open of its execution bar, at least one interval after it. */
  ghost predicate EnteredFor(t: Trade, sch: Scheduled, bars: seq<Candle>, interval: int) {
    && t.side == sch.signal.side && t.reason == sch.signal.reason && t.entryTimestamp == sch.executionTimestamp
    && sch.signal.timestamp + interval <= t.entryTimestamp
    && exists j :: 0 <= j < |bars| && bars[j].timestamp == t.entryTimestamp && bars[j].open == t.entryPrice
  }

  /** The trade was open when a signal at time t was taken. */
  ghost predicate OpenAt(trade: Trade, t: int) {
    t < trade.exitTimestamp ||
    (t == trade.exitTimestamp && trade.exitReason in {Some(SignalReversal), Some(EndOfData)})
  }

  /** Queue element k was ignored: trade m, entered on an earlier element of the same side, was open. */
  ghost predicate IgnoredFor(ts: seq<Trade>, queue: seq<Scheduled>, at: seq<nat>, k: nat, m: nat) {
    && k < |queue| && m < |ts| && m < |at| && at[m] < k
    && ts[m].side == queue[k].signal.side && OpenAt(ts[m], queue[k].executionTimestamp)
  }

  ghost predicate TradesSourced(ts: seq<Trade>, queue: seq<Scheduled>, bars: seq<Candle>, interval: int, at: seq<nat>) {
    && |at| == |ts| <= |queue| && Runs.StrictlyIncreasing(at)
    && (forall k :: 0 <= k < |at| ==> at[k] < |queue| && EnteredFor(ts[k], queue[at[k]], bars, interval))
  }

  ghost predicate OthersIgnored(ts: seq<Trade>, queue: seq<Scheduled>, at: seq<nat>) {
    forall k: nat :: k < |queue| && k !in at ==> exists m: nat :: IgnoredFor(ts, queue, at, k, m)
  }

  /** The trades sit on the queue elements `at`, and on strictly increasing bars all others were ignored. */
  ghost predicate TradesExplained(ts: seq<Trade>, strategy: Strategy, inputs: EngineInputs, at: seq<nat>) {
    var queue, interval := Queue(strategy, inputs), IntervalDuration(inputs.interval);
    && (interval.Some? ==> TradesSourced(ts, queue, inputs.tradeCandles, interval.value, at))
    && (StrictlyChronological(inputs.tradeCandles) ==> OthersIgnored(ts, queue, at))
  }

  /** The trades of any run sit on distinct scheduled signals, in queue order, whatever the exit rules; every other
      scheduled signal found a trade of its own side open. */
  lemma TradesHaveSignals(charges: ChargeCalculator, strategy: Strategy, inputs: EngineInputs, cfg: RunConfig)
    returns (at: seq<nat>)
    requires Chronological(inputs.signalCandles) && Chronological(inputs.tradeCandles)
    ensures Runnable(strategy, inputs) ==>
              && Backtest(charges, strategy, inputs, cfg).Ok?
              && TradesExplained(Backtest(charges, strategy, inputs, cfg).value.trades, strategy, inputs, at)
  {
    BacktestPricesDecisions(charges, strategy, inputs, cfg);
    if !Runnable(strategy, inputs) { return []; }
    DecisionsAreRoundTrips(strategy, inputs);
    QueueIsExecutable(strategy, inputs);
    at := Runs.EntriesHaveSignals(inputs.tradeCandles, Queue(strategy, inputs), strategy);
    SettleSourced(PricingOf(charges, strategy, cfg), Decisions(strategy, inputs).value, Queue(strategy, inputs),
                  inputs.tradeCandles, IntervalDuration(inputs.interval).value, at);
    if StrictlyChronological(inputs.tradeCandles) {
      SettleIgnored(PricingOf(charges, strategy, cfg), Decisions(strategy, inputs).value, Queue(strategy, inputs), at);
    }
  }

  lemma SettleSourced(p: Pricing, rts: seq<P.RoundTrip>, queue: seq<Scheduled>, bars: seq<Candle>, interval: int,
                      at: seq<nat>)
    requires Runs.Sourced(Runs.EntriesOf(rts), queue, bars, at, |queue|) && |rts| <= |queue| && Delayed(queue, interval)
    ensures TradesSourced(SettleAll(p, rts), queue, bars, interval, at)
  {
    var ts := SettleAll(p, rts);
    forall k | 0 <= k < |at| ensures at[k] < |queue| && EnteredFor(ts[k], queue[at[k]], bars, interval) {
      assert Runs.EntersOn(Runs.EntriesOf(rts)[k], queue[at[k]]) && Runs.OpensOn(Runs.EntriesOf(rts)[k], bars);
    }
  }

  lemma SettleIgnored(p: Pricing, rts: seq<P.RoundTrip>, queue: seq<Scheduled>, at: seq<nat>)
    requires Runs.OthersIgnored(rts, queue, at)
    ensures OthersIgnored(SettleAll(p, rts), queue, at)
  {
    var ts := SettleAll(p, rts);
    forall k: nat | k < |queue| && k !in at ensures exists m: nat :: IgnoredFor(ts, queue, at, k, m) {
      var m: nat :| Runs.IgnoredForTrip(rts, queue, at, k, m);
      assert IgnoredFor(ts, queue, at, k, m);
    }
  }

  // ---------------------------------------------------------------- no signal lost, stop and reverse

  /** No scheduled signal is left when the bars run out. */
  lemma EverySignalIsConsumed(strategy: Strategy, inputs: EngineInputs)
    requires Runnable(strategy, inputs) && Chronological(inputs.signalCandles) && Chronological(inputs.tradeCandles)
    ensures var bars, queue := inputs.tradeCandles, Queue(strategy, inputs);
            P.Run(bars, queue, strategy, |bars|).next == |queue|
  {
    QueueIsExecutable(strategy, inputs);
    Runs.QueueDrains(inputs.tradeCandles, Queue(strategy, inputs), strategy);
  }

  ghost predicate HandsOver(t: Trade, next: Trade) {
    && t.exitReason == Some(SignalReversal) && t.side != next.side
    && t.exitTimestamp == next.entryTimestamp && t.exitPrice == next.entryPrice
  }

  /** One trade per run head, on its side, at its execution time, for its reason; each handing over to the next, the
      last closed by the end of the data. */
  ghost predicate StopsAndReverses(ts: seq<Trade>, heads: seq<Scheduled>, last: Candle) {
    && |ts| == |heads|
    && (forall k :: 0 <= k < |ts| ==> SitsOn(ts[k], heads[k]))
    && (forall k :: 0 < k < |ts| ==> HandsOver(ts[k - 1], ts[k]))
    && (|ts| > 0 ==> var t := ts[|ts| - 1];
                     t.exitReason == Some(EndOfData) && t.exitPrice == last.close && t.exitTimestamp == last.timestamp)
  }

  ghost predicate SitsOn(t: Trade, head: Scheduled) {
    t.side == head.signal.side && t.entryTimestamp == head.executionTimestamp && t.reason == head.signal.reason
  }

  /** A strategy without exit rules makes one trade per maximal run of same-side scheduled signals; each hands over
      to the next at the same time and price on the other side. */
  lemma StopAndReverse(charges: ChargeCalculator, strategy: Strategy, inputs: EngineInputs, cfg: RunConfig)
    requires Runs.NoExitRules(strategy) && Chronological(inputs.signalCandles) && Chronological(inputs.tradeCandles)
    ensures var b := Backtest(charges, strategy, inputs, cfg);
            var queue, bars := Queue(strategy, inputs), inputs.tradeCandles;
            && (Runnable(strategy, inputs) <==> b.Ok? && |inputs.signalCandles| > 0 && |bars| > 0)
            && (Runnable(strategy, inputs) ==>
                  StopsAndReverses(b.value.trades, Runs.RunHeads(queue, |queue|), bars[|bars| - 1]))
  {
    BacktestPricesDecisions(charges, strategy, inputs, cfg);
    if Runnable(strategy, inputs) {
      var bars, queue := inputs.tradeCandles, Queue(strategy, inputs);
      QueueIsExecutable(strategy, inputs);
      Runs.StopAndReverse(bars, queue, strategy);
      DecisionsAreRoundTrips(strategy, inputs);
      SettleReversals(PricingOf(charges, strategy, cfg), Decisions(strategy, inputs).value,
                      Runs.RunHeads(queue, |queue|), bars[|bars| - 1]);
    }
  }

  lemma SettleReversals(p: Pricing, rts: seq<P.RoundTrip>, heads: seq<Scheduled>, last: Candle)
    requires Runs.StopsAndReverses(rts, heads, last)
    ensures StopsAndReverses(SettleAll(p, rts), heads, last)
  {
    var ts := SettleAll(p, rts);
    forall k | 0 <= k < |ts| ensures SitsOn(ts[k], heads[k]) {
      assert Runs.EntersOn(rts[k].entry, heads[k]);
    }
    forall k | 0 < k < |ts| ensures HandsOver(ts[k - 1], ts[k]) {
      assert Runs.ReversesInto(rts[k - 1], rts[k].entry);
      assert ts[k - 1] == Settle(p, rts[k - 1]) && ts[k] == Settle(p, rts[k]);
    }
  }

  // ---------------------------------------------------------------- charges

  /** Under the retail charge model the charges of every trade of every run are the sum of their components. */
  lemma ChargesAddUp(strategy: Strategy, inputs: EngineInputs, cfg: RunConfig)
    ensures var b := Backtest(Charges.Compute, strategy, inputs, cfg); b.Ok? ==> TotalsAreSums(b.value.trades)
  {
    BacktestPricesDecisions(Charges.Compute, strategy, inputs, cfg);
    var decided := Decisions(strategy, inputs);
    if decided.Ok? { SettledTotals(PricingOf(Charges.Compute, strategy, cfg), decided.value); }
  }

  ghost predicate TotalsAreSums(ts: seq<Trade>) {
    forall i :: 0 <= i < |ts| ==> ts[i].charges.total == Charges.ComponentSum(ts[i].charges)
  }

  lemma AssembledTotal(rt: P.RoundTrip, qty: int, gross: real, cb: ChargeBreakdown, slippage: real)
    ensures Assemble(rt, qty, gross, cb, slippage).charges == cb
  {
  }

  lemma SettledTotals(p: Pricing, rts: seq<P.RoundTrip>)
    requires p.charges == Charges.Compute
    ensures TotalsAreSums(SettleAll(p, rts))
  {
    var ts := SettleAll(p, rts);
    forall i | 0 <= i < |rts| ensures ts[i].charges.total == Charges.ComponentSum(ts[i].charges) {
      SettledTotal(p, rts[i]);
    }
  }

  lemma SettledTotal(p: Pricing, rt: P.RoundTrip)
    requires p.charges == Charges.Compute
    ensures var cb := Settle(p, rt).charges; cb.total == Charges.ComponentSum(cb)
  {
    var side, entry, exit := rt.entry.side, rt.entry.price, rt.exitPrice;
    Charges.TotalIsSum(p.segment, side, entry, exit, p.qty);
    AssembledTotal(rt, p.qty, Gross(side, entry, exit, p.qty), Charges.Compute(p.segment, side, entry, exit, p.qty),
                   Slippage(p.slippagePct, entry, exit, p.qty));
  }

  /** At realistic prices no component is negative either, so costs never raise the net. */
  lemma ChargesAreSound(strategy: Strategy, inputs: EngineInputs, cfg: RunConfig)
    requires Accounting.RealisticInputs(strategy, inputs) && cfg.slippagePct >= 0.0
    ensures var b := Backtest(Charges.Compute, strategy, inputs, cfg); b.Ok? ==> CostsSound(b.value.trades)
  {
    BacktestPricesDecisions(Charges.Compute, strategy, inputs, cfg);
    Accounting.DecisionsPriced(strategy, inputs);
    Accounting.QuantityNonNegative(strategy.lotSize, cfg.lots);
    var decided := Decisions(strategy, inputs);
    if decided.Ok? { SettleAllSound(PricingOf(Charges.Compute, strategy, cfg), decided.value); }
  }

  ghost predicate CostsSound(ts: seq<Trade>) {
    forall i :: 0 <= i < |ts| ==> Charges.Sound(ts[i].charges) && ts[i].netPnL <= ts[i].grossPnL
  }

  lemma SettleAllSound(p: Pricing, rts: seq<P.RoundTrip>)
    requires p.charges == Charges.Compute && p.qty >= 1 && p.slippagePct >= 0.0
    requires forall i :: 0 <= i < |rts| ==> Accounting.Priced(rts[i])
    ensures CostsSound(SettleAll(p, rts))
  {
    var ts := SettleAll(p, rts);
    forall i | 0 <= i < |rts| ensures Charges.Sound(ts[i].charges) && ts[i].netPnL <= ts[i].grossPnL {
      SettleSound(p, rts[i]);
    }
  }

  lemma AssembleSound(rt: P.RoundTrip, qty: int, gross: real, cb: ChargeBreakdown, slippage: real)
    requires Charges.Sound(cb) && slippage >= 0.0
    ensures var t := Assemble(rt, qty, gross, cb, slippage); Charges.Sound(t.charges) && t.netPnL <= t.grossPnL
  {
  }

  lemma SettleSound(p: Pricing, rt: P.RoundTrip)
    requires p.charges == Charges.Compute && p.qty >= 1 && p.slippagePct >= 0.0 && Accounting.Priced(rt)
    ensures Charges.Sound(Settle(p, rt).charges) && Settle(p, rt).netPnL <= Settle(p, rt).grossPnL
  {
    var side, entry, exit := rt.entry.side, rt.entry.price, rt.exitPrice;
    Charges.ComputeFacts(p.segment, side, entry, exit, p.qty, 0);
    Accounting.SlippageGrows(0.0, p.slippagePct, entry, exit, p.qty);
    assert Slippage(0.0, entry, exit, p.qty) == 0.0;
    AssembleSound(rt, p.qty, Gross(side, entry, exit, p.qty), Charges.Compute(p.segment, side, entry, exit, p.qty),
                  Slippage(p.slippagePct, entry, exit, p.qty));
  }
}
