/** Two backtests at the edge of the data: one whose last trade loses more than its stop, and one whose last signal
    would have, had a position not been open. */
module LastBarExamples {
  import opened Types
  import opened Scheduler
  import opened Positions
  import opened LastBar
  import Engine
  import Evaluator
  import Guarantees
  import Alternation

  // ---------------------------------------------------------------- a backtest that loses more than its stop

  const FIVE := 5 * MINUTE

  /** Twenty bars at 1, then a breakout at 2. */
  function BreakoutBar(i: int): Candle {
    var p := if i == 20 then 2.0 else 1.0;
    Candle(i * FIVE, p, p, p, p, 1)
  }

  lemma {:induction false} LowHighs(window: seq<Candle>)
    requires forall i :: 0 <= i < |window| ==> window[i].high == 1.0
    ensures Evaluator.PeriodHigh(window) <= 1.0
  {
    if |window| > 0 { LowHighs(window[..|window| - 1]); }
  }

  lemma NotYetBroken(cs: seq<Candle>)
    requires |cs| == 21
    ensures !Evaluator.InBreakout(cs[..20])
  {
  }

  lemma NowBroken(cs: seq<Candle>)
    requires |cs| == 21 && forall i :: 0 <= i < 21 ==> cs[i] == BreakoutBar(i)
    ensures Evaluator.InBreakout(cs[..21])
  {
    LowHighs(cs[0..20]);
    assert cs[..21][0..20] == cs[0..20] && cs[20].close == 2.0;
  }

  lemma BreakoutSide(cs: seq<Candle>)
    requires |cs| == 21 && forall i :: 0 <= i < 21 ==> cs[i] == BreakoutBar(i)
    ensures Evaluator.Sides(Momentum, cs)[20] == Some(Buy)
  {
    NotYetBroken(cs);
    NowBroken(cs);
    CrossingUp(cs);
  }

  lemma CrossingUp(cs: seq<Candle>)
    requires |cs| == 21 && !Evaluator.InBreakout(cs[..20]) && Evaluator.InBreakout(cs[..21])
    ensures Evaluator.Sides(Momentum, cs)[20] == Some(Buy)
  {
    Evaluator.SideIsCross(Momentum, cs, 20);
  }

  lemma OnlyLastEmits(cs: seq<Candle>, sides: seq<Option<Side>>)
    requires |cs| == |sides| == 21 && Evaluator.SilentBefore(sides, 20) && sides[20] == Some(Buy)
    ensures Evaluator.Collect(Momentum, cs, sides, 21) ==
            [Signal(cs[20].timestamp, Buy, cs[20].close, Reason(Momentum, Buy))]
  {
    Evaluator.CollectSilent(Momentum, cs, sides, 20);
  }

  lemma BreakoutSignals(cs: seq<Candle>)
    requires |cs| == 21 && forall i :: 0 <= i < 21 ==> cs[i] == BreakoutBar(i)
    ensures Evaluator.Signals(Momentum, cs) == [Signal(20 * FIVE, Buy, 2.0, Reason(Momentum, Buy))]
  {
    Evaluator.WarmupIsSilent(Momentum, cs);
    BreakoutSide(cs);
    OnlyLastEmits(cs, Evaluator.Sides(Momentum, cs));
  }

  lemma OneExecution(sig: Signal, bars: seq<Candle>)
    requires |bars| == 2 && bars[0].timestamp == sig.timestamp && bars[1].timestamp == sig.timestamp + FIVE
    ensures Schedule([sig], bars, FIVE) == [Scheduled(sig, sig.timestamp + FIVE)]
  {
    var executions := Executions([sig], bars, FIVE);
    assert HasBarAt(bars, sig.timestamp);
    assert FirstFrom(bars, sig.timestamp + FIVE, 1) == 1;
    assert executions[0] == Some(sig.timestamp + FIVE);
    assert Plan([sig], executions, 0) == [];
  }

  lemma BreakoutQueue(strategy: Strategy, inputs: EngineInputs)
    requires strategy.entryCondition == "MOMENTUM" && inputs.interval == "5m"
    requires |inputs.signalCandles| == 21 && forall i :: 0 <= i < 21 ==> inputs.signalCandles[i] == BreakoutBar(i)
    requires |inputs.tradeCandles| == 2 && inputs.tradeCandles[0].timestamp == 20 * FIVE
    requires inputs.tradeCandles[1].timestamp == 21 * FIVE
    ensures Guarantees.Runnable(strategy, inputs)
    ensures var sig := Signal(20 * FIVE, Buy, 2.0, Reason(Momentum, Buy));
            Guarantees.Queue(strategy, inputs) == [Scheduled(sig, 21 * FIVE)]
  {
    BreakoutSignals(inputs.signalCandles);
    OneExecution(Signal(20 * FIVE, Buy, 2.0, Reason(Momentum, Buy)), inputs.tradeCandles);
  }

  function CrashInputs(): EngineInputs {
    EngineInputs("5m", seq(21, i => BreakoutBar(i)),
                 [Candle(20 * FIVE, 100.0, 100.0, 100.0, 100.0, 1), Candle(21 * FIVE, 100.0, 100.0, 50.0, 50.0, 1)])
  }

  function MomentumWithStop(): Strategy {
    Strategy("MOMENTUM", "EQ", None, Some(10.0), None, 1)
  }

  lemma CrashIsRealistic()
    ensures var inputs := CrashInputs();
            && StrictlyChronological(inputs.signalCandles) && StrictlyChronological(inputs.tradeCandles)
            && (forall i :: 0 <= i < |inputs.signalCandles| ==> inputs.signalCandles[i].WellFormed())
            && (forall i :: 0 <= i < |inputs.tradeCandles| ==> inputs.tradeCandles[i].WellFormed())
  {
    var inputs := CrashInputs();
    assert inputs.tradeCandles[0].WellFormed() && inputs.tradeCandles[1].WellFormed();
    forall i | 0 <= i < 21
      ensures inputs.signalCandles[i].WellFormed() && inputs.signalCandles[i].timestamp == i * FIVE
    {
      assert inputs.signalCandles[i] == BreakoutBar(i);
    }
  }

  lemma CrashBreaksStop(queue: seq<Scheduled>)
    requires |queue| == 1 && queue[0].signal.side == Buy && queue[0].executionTimestamp == 21 * FIVE
    ensures !LastEntryAllowed(CrashInputs().tradeCandles, queue, MomentumWithStop())
  {
  }

  /** Without a target, and with at most one trade, it is that trade which breaks the stop. */
  lemma TheOneBreaks(ts: seq<Trade>, s: Strategy)
    requires |ts| <= 1 && s.targetPct.None? && !EveryTradeWithin(ts, s)
    ensures |ts| == 1 && !Guarantees.WithinStop(ts[0], s)
  {
  }

  lemma CrashIsUnbounded(charges: ChargeCalculator, cfg: RunConfig, strategy: Strategy, inputs: EngineInputs)
    requires strategy == MomentumWithStop() && inputs == CrashInputs()
    ensures Guarantees.Runnable(strategy, inputs) && |Guarantees.Queue(strategy, inputs)| == 1
    ensures var b := Engine.Backtest(charges, strategy, inputs, cfg);
            b.Ok? && !EveryTradeWithin(b.value.trades, strategy)
  {
    CrashIsRealistic();
    BreakoutQueue(strategy, inputs);
    CrashBreaksStop(Guarantees.Queue(strategy, inputs));
    QueueIsTradable(strategy, inputs);
    StopAndTargetHoldExactlyWhen(charges, strategy, inputs, cfg);
    EntersWhen(inputs.tradeCandles, Guarantees.Queue(strategy, inputs), strategy);
  }

  /** The exception is real. Whatever the charges, lots, capital and slippage: a breakout on the last signal bar is
      bought at the open of the last trade bar, which then crashes, and the one trade loses more than its stop. */
  lemma LastBarEntryCanExceedStop(charges: ChargeCalculator, cfg: RunConfig, strategy: Strategy, inputs: EngineInputs)
    requires strategy == MomentumWithStop() && inputs == CrashInputs()
    ensures var b := Engine.Backtest(charges, strategy, inputs, cfg);
            b.Ok? && |b.value.trades| == 1 && !Guarantees.WithinStop(b.value.trades[0], strategy)
  {
    CrashIsRealistic();
    CrashIsUnbounded(charges, cfg, strategy, inputs);
    var at := Guarantees.TradesHaveSignals(charges, strategy, inputs, cfg);
    TheOneBreaks(Engine.Backtest(charges, strategy, inputs, cfg).value.trades, strategy);
  }

  // ---------------------------------------------------------------- a backtest that ignores its last signal

  /** Two quiet signal bars, then one execution bar for each of two BUY signals; the last one crashes. */
  function RepeatInputs(): EngineInputs {
    EngineInputs("5m", Alternation.GapBars(),
                 [Candle(20, 40.0, 40.0, 40.0, 40.0, 1), Candle(23, 40.0, 40.0, 40.0, 40.0, 1),
                  Candle(20 + FIVE, 40.0, 40.0, 40.0, 40.0, 1), Candle(23 + FIVE, 100.0, 100.0, 50.0, 50.0, 1)])
  }

  function VwapWithStop(): Strategy {
    Strategy("VWAP_CROSSOVER", "EQ", None, Some(10.0), None, 1)
  }

  lemma TwoExecutions(first: Signal, second: Signal, bars: seq<Candle>)
    requires first.timestamp == 20 && second.timestamp == 23 && bars == RepeatInputs().tradeCandles
    ensures Schedule([first, second], bars, FIVE) == [Scheduled(first, 20 + FIVE), Scheduled(second, 23 + FIVE)]
  {
    var signals := [first, second];
    var executions := Executions(signals, bars, FIVE);
    assert bars[0].timestamp == 20 && bars[1].timestamp == 23;
    assert HasBarAt(bars, 20) && HasBarAt(bars, 23);
    assert FirstFrom(bars, 20 + FIVE, 2) == 2 && FirstFrom(bars, 20 + FIVE, 1) == 2;
    assert FirstFrom(bars, 23 + FIVE, 3) == 3 && FirstFrom(bars, 23 + FIVE, 2) == 3;
    assert FirstFrom(bars, 23 + FIVE, 1) == 3;
    assert executions[0] == Some(20 + FIVE) && executions[1] == Some(23 + FIVE);
    assert Plan(signals, executions, 0) == [];
    assert Plan(signals, executions, 1) == [Scheduled(first, 20 + FIVE)];
  }

  lemma VwapIsParsed()
    ensures Evaluator.ParseKind("VWAP_CROSSOVER") == Some(VwapCrossover)
    ensures Engine.IntervalDuration("5m") == Some(FIVE)
  {
  }

  lemma QueueOf(strategy: Strategy, inputs: EngineInputs, kind: Kind, interval: int)
    requires Evaluator.ParseKind(strategy.entryCondition) == Some(kind)
    requires Engine.IntervalDuration(inputs.interval) == Some(interval)
    requires |inputs.signalCandles| > 0 && |inputs.tradeCandles| > 0
    ensures Guarantees.Runnable(strategy, inputs)
    ensures Guarantees.Queue(strategy, inputs) ==
            Schedule(Evaluator.Signals(kind, inputs.signalCandles), inputs.tradeCandles, interval)
  {
  }

  lemma RepeatQueue(strategy: Strategy, inputs: EngineInputs) returns (queue: seq<Scheduled>)
    requires strategy == VwapWithStop() && inputs == RepeatInputs()
    ensures Guarantees.Runnable(strategy, inputs) && queue == Guarantees.Queue(strategy, inputs)
    ensures |queue| == 2 && queue[0].signal.side == queue[1].signal.side == Buy
    ensures queue[0].executionTimestamp == 20 + FIVE && queue[1].executionTimestamp == 23 + FIVE
  {
    VwapIsParsed();
    QueueOf(strategy, inputs, VwapCrossover, FIVE);
    Alternation.GapSignals();
    var reason := Reason(VwapCrossover, Buy);
    TwoExecutions(Signal(20, Buy, 15.0, reason), Signal(23, Buy, 15.0, reason), inputs.tradeCandles);
    queue := Guarantees.Queue(strategy, inputs);
  }

  lemma RepeatBars(bars: seq<Candle>)
    requires bars == RepeatInputs().tradeCandles
    ensures StrictlyChronological(bars) && forall i :: 0 <= i < |bars| ==> bars[i].WellFormed()
  {
    assert bars[0].WellFormed() && bars[1].WellFormed() && bars[2].WellFormed() && bars[3].WellFormed();
  }

  lemma RepeatIsRealistic(strategy: Strategy, inputs: EngineInputs)
    requires strategy == VwapWithStop() && inputs == RepeatInputs()
    ensures Realistic(strategy, inputs)
  {
    var queue := RepeatQueue(strategy, inputs);
    Alternation.GapIsRealistic();
    RepeatBars(inputs.tradeCandles);
    assert Chronological(Alternation.GapBars());
  }

  lemma RepeatStays(queue: seq<Scheduled>, bars: seq<Candle>, s: Strategy)
    requires |queue| == 2 && queue[0].signal.side == queue[1].signal.side == Buy
    requires queue[0].executionTimestamp == 20 + FIVE && queue[1].executionTimestamp == 23 + FIVE
    requires bars == RepeatInputs().tradeCandles && s == VwapWithStop()
    ensures !EntersOnLastBar(bars, queue, s) && !LastEntryAllowed(bars, queue, s)
  {
    assert LastRunStart(queue, 1) == 0;
    assert Stay(bars, queue, s, 0, 1) == None;
    assert Stay(bars, queue, s, 0, 2) == None;
    assert queue[0].executionTimestamp == bars[2].timestamp;
    assert Stay(bars, queue, s, 0, 3) == Some(2);
    assert ExitOn(EntryAt(queue[0].signal, bars[2]), bars[3], s) == None;
    assert Stay(bars, queue, s, 0, 4) == Some(2);
  }

  /** A signal on the last bar at which an entry would break the stop need not break it: here the position of an
      earlier signal of the same side is still open and the last signal is void. So the last bar alone cannot decide,
      which is why the condition follows the final run of same-side signals. */
  lemma HeldPositionIgnoresLastSignal(charges: ChargeCalculator, cfg: RunConfig, strategy: Strategy,
                                      inputs: EngineInputs)
    requires strategy == VwapWithStop() && inputs == RepeatInputs()
    ensures var b := Engine.Backtest(charges, strategy, inputs, cfg);
            var bars, queue := inputs.tradeCandles, Guarantees.Queue(strategy, inputs);
            && b.Ok? && EveryTradeWithin(b.value.trades, strategy)
            && EndsOnLastBar(bars, queue) && !LastEntryAllowed(bars, queue, strategy)
  {
    var queue := RepeatQueue(strategy, inputs);
    RepeatIsRealistic(strategy, inputs);
    RepeatStays(queue, inputs.tradeCandles, strategy);
    StopAndTargetHoldExactlyWhen(charges, strategy, inputs, cfg);
  }
}
