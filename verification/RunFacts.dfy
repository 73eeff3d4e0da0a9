/** What a run schedules, when it fails and what its result adds up to, told from signals, bars and trades. */
module RunFacts {
  import opened Types
  import opened Series
  import opened Scheduler
  import Accounting
  import Engine

  // ---------------------------------------------------------------- the schedule

  /** The earliest bar time at or after t. */
  ghost predicate IsEarliestFrom(bars: seq<Candle>, t: int, at: int) {
    && at >= t && HasBarAt(bars, at)
    && forall j :: 0 <= j < |bars| && bars[j].timestamp >= t ==> at <= bars[j].timestamp
  }

  /** A bar lies at the signal's own time and one at or after the time it can be acted on. */
  ghost predicate CanExecute(sig: Signal, bars: seq<Candle>, interval: int) {
    HasBarAt(bars, sig.timestamp) && exists j :: 0 <= j < |bars| && bars[j].timestamp >= sig.timestamp + interval
  }

  lemma ExecutionIsEarliest(sig: Signal, bars: seq<Candle>, interval: int)
    requires Chronological(bars)
    ensures var e := Execution(sig, bars, interval);
            && (e.Some? <==> CanExecute(sig, bars, interval))
            && (e.Some? ==> IsEarliestFrom(bars, sig.timestamp + interval, e.value))
  {
    var t := sig.timestamp + interval;
    var k := FirstFrom(bars, t);
    if k < |bars| {
      assert HasBarAt(bars, bars[k].timestamp);
      forall j | 0 <= j < |bars| && bars[j].timestamp >= t ensures bars[k].timestamp <= bars[j].timestamp {
        assert k <= j;
      }
    }
  }

  /** The plan holds, in order, the signals at the places `at`, which are those among the first n with an execution. */
  ghost predicate Holds(p: seq<Scheduled>, at: seq<nat>, signals: seq<Signal>, executions: seq<Option<int>>, n: nat)
    requires n <= |signals| == |executions|
  {
    && |at| == |p|
    && (forall k, l :: 0 <= k < l < |at| ==> at[k] < at[l])
    && (forall k :: 0 <= k < |at| ==> at[k] < n && executions[at[k]] == Some(p[k].executionTimestamp))
    && (forall k :: 0 <= k < |at| ==> p[k].signal == signals[at[k]])
    && (forall i :: 0 <= i < n && executions[i].Some? ==> i in at)
  }

  lemma PushHolds(p: seq<Scheduled>, at: seq<nat>, signals: seq<Signal>, executions: seq<Option<int>>, n: nat)
    requires n < |signals| == |executions| && Holds(p, at, signals, executions, n) && executions[n].Some?
    ensures Holds(p + [Scheduled(signals[n], executions[n].value)], at + [n], signals, executions, n + 1)
  {
    var at' := at + [n];
    assert at'[|at|] == n;
    forall i | 0 <= i < n + 1 && executions[i].Some? ensures i in at' {
      assert i < n ==> i in at;
    }
  }

  lemma {:induction false} PlanHolds(signals: seq<Signal>, executions: seq<Option<int>>, n: nat) returns (at: seq<nat>)
    requires n <= |signals| == |executions|
    ensures Holds(Plan(signals, executions, n), at, signals, executions, n)
  {
    at := [];
    if n > 0 {
      at := PlanHolds(signals, executions, n - 1);
      if executions[n - 1].Some? {
        PushHolds(Plan(signals, executions, n - 1), at, signals, executions, n - 1);
        at := at + [n - 1];
      }
    }
  }

  /** The schedule holds the signals at the places `at`, in order and each for the earliest bar an interval after it;
      `at` are the places of all signals that can execute. */
  ghost predicate SchedulesAll(p: seq<Scheduled>, at: seq<nat>, signals: seq<Signal>, bars: seq<Candle>, interval: int)
  {
    && |at| == |p|
    && (forall k, l :: 0 <= k < l < |at| ==> at[k] < at[l])
    && (forall k :: 0 <= k < |at| ==> at[k] < |signals| && p[k].signal == signals[at[k]])
    && (forall k :: 0 <= k < |p| ==> CanExecute(p[k].signal, bars, interval))
    && (forall k :: 0 <= k < |p| ==> IsEarliestFrom(bars, p[k].signal.timestamp + interval, p[k].executionTimestamp))
    && (forall i :: 0 <= i < |signals| && CanExecute(signals[i], bars, interval) ==> i in at)
  }

  /** What is scheduled: exactly the signals with a bar at their own time and one an interval later or after, in signal
      order, each for the earliest such bar. */
  lemma ScheduledExactlyWhen(signals: seq<Signal>, bars: seq<Candle>, interval: int) returns (at: seq<nat>)
    requires Chronological(bars)
    ensures SchedulesAll(Schedule(signals, bars, interval), at, signals, bars, interval)
  {
    var p := Schedule(signals, bars, interval);
    at := PlanHolds(signals, Executions(signals, bars, interval), |signals|);
    forall k | 0 <= k < |p|
      ensures CanExecute(p[k].signal, bars, interval)
      ensures IsEarliestFrom(bars, p[k].signal.timestamp + interval, p[k].executionTimestamp)
    {
      ExecutionIsEarliest(signals[at[k]], bars, interval);
    }
    forall i | 0 <= i < |signals| && CanExecute(signals[i], bars, interval) ensures i in at {
      ExecutionIsEarliest(signals[i], bars, interval);
    }
  }

  // ---------------------------------------------------------------- failure

  ghost predicate KnownCondition(condition: string) {
    condition in {"MA_CROSSOVER", "SUPERTREND", "RSI_OVERSOLD", "MOMENTUM", "VWAP_CROSSOVER"}
  }

  /** A day or five minutes, in nanoseconds. */
  lemma IntervalLasts(interval: string)
    ensures Engine.IntervalDuration(interval) ==
            if interval == "1d" then Some(86_400 * 1_000_000_000)
            else if interval == "5m" then Some(300 * 1_000_000_000)
            else None
  {
  }

  /** Without candles a run is empty whatever its configuration; otherwise it fails exactly when the condition or the
      interval is unknown, and an unknown condition is reported first. */
  lemma FailsExactlyWhen(charges: ChargeCalculator, strategy: Strategy, inputs: EngineInputs, cfg: RunConfig)
    ensures var b := Engine.Backtest(charges, strategy, inputs, cfg);
            if inputs.signalCandles == [] || inputs.tradeCandles == []
            then b == Ok(BacktestResult([], 0.0, 0.0, 0.0, 0.0, 0.0, 0, 0, 0, 0.0))
            else if !KnownCondition(strategy.entryCondition)
            then b == Err("unknown entry condition type: " + strategy.entryCondition)
            else if inputs.interval !in {"1d", "5m"}
            then b == Err("unknown candle interval: " + inputs.interval)
            else b.Ok?
  {
  }

  // ---------------------------------------------------------------- the result

  function Nets(ts: seq<Trade>): seq<real> { seq(|ts|, i requires 0 <= i < |ts| => ts[i].netPnL) }

  function Grosses(ts: seq<Trade>): seq<real> { seq(|ts|, i requires 0 <= i < |ts| => ts[i].grossPnL) }

  function Totals(ts: seq<Trade>): seq<real> { seq(|ts|, i requires 0 <= i < |ts| => ts[i].charges.total) }

  function Slippages(ts: seq<Trade>): seq<real> { seq(|ts|, i requires 0 <= i < |ts| => ts[i].slippage) }

  function Winners(ts: seq<Trade>, n: nat): set<int>
    requires n <= |ts|
  {
    set i | 0 <= i < n && ts[i].netPnL > 0.0
  }

  function Losers(ts: seq<Trade>, n: nat): set<int>
    requires n <= |ts|
  {
    set i | 0 <= i < n && ts[i].netPnL < 0.0
  }

  lemma {:induction false} SumsAre(ts: seq<Trade>, n: nat)
    requires n <= |ts|
    ensures Engine.SumOf(ts, Engine.NetPnL, n) == RangeSum(Nets(ts), 0, n)
    ensures Engine.SumOf(ts, Engine.GrossPnL, n) == RangeSum(Grosses(ts), 0, n)
    ensures Engine.SumOf(ts, Engine.TotalCharges, n) == RangeSum(Totals(ts), 0, n)
    ensures Engine.SumOf(ts, Engine.SlippageCost, n) == RangeSum(Slippages(ts), 0, n)
  {
    if n > 0 { SumsAre(ts, n - 1); }
  }

  lemma CountStep(before: set<int>, after: set<int>, i: int, counted: bool)
    requires i !in before && after == if counted then before + {i} else before
    ensures |after| == |before| + if counted then 1 else 0
  {
  }

  lemma {:induction false} WinsAre(ts: seq<Trade>, n: nat)
    requires n <= |ts|
    ensures Engine.Wins(ts, n) == |Winners(ts, n)|
  {
    if n == 0 {
      assert Winners(ts, 0) == {};
    } else {
      WinsAre(ts, n - 1);
      var before, won := Winners(ts, n - 1), ts[n - 1].netPnL > 0.0;
      assert Winners(ts, n) == if won then before + {n - 1} else before;
      CountStep(before, Winners(ts, n), n - 1, won);
    }
  }

  lemma {:induction false} LossesAre(ts: seq<Trade>, n: nat)
    requires n <= |ts|
    ensures Engine.Losses(ts, n) == |Losers(ts, n)|
  {
    if n == 0 {
      assert Losers(ts, 0) == {};
    } else {
      LossesAre(ts, n - 1);
      var before, lost := Losers(ts, n - 1), ts[n - 1].netPnL < 0.0;
      assert Losers(ts, n) == if lost then before + {n - 1} else before;
      CountStep(before, Losers(ts, n), n - 1, lost);
    }
  }

  /** Each total is the sum of its own column, the counts are those of positive and negative nets, and the net is the
      gross less charges and slippage. */
  ghost predicate AddsUp(r: BacktestResult) {
    var ts, n := r.trades, |r.trades|;
    && r.grossPnL == RangeSum(Grosses(ts), 0, n) && r.totalCharges == RangeSum(Totals(ts), 0, n)
    && r.slippage == RangeSum(Slippages(ts), 0, n) && r.netPnL == RangeSum(Nets(ts), 0, n)
    && r.netPnL == r.grossPnL - r.totalCharges - r.slippage
    && r.totalTrades == n && r.winCount == |Winners(ts, n)| && r.lossCount == |Losers(ts, n)|
  }

  lemma SummaryAddsUp(ts: seq<Trade>, capital: real, slippagePct: real)
    requires Accounting.Netted(ts)
    ensures AddsUp(Engine.Summary(ts, capital, slippagePct))
  {
    SumsAre(ts, |ts|);
    WinsAre(ts, |ts|);
    LossesAre(ts, |ts|);
    Accounting.NetIsSum(ts, |ts|);
  }

  lemma ResultIsSummary(charges: ChargeCalculator, strategy: Strategy, inputs: EngineInputs, cfg: RunConfig)
    requires inputs.signalCandles != [] && inputs.tradeCandles != []
    ensures var b := Engine.Backtest(charges, strategy, inputs, cfg);
            b.Ok? ==> && Accounting.Netted(b.value.trades)
                      && b.value == Engine.Summary(b.value.trades, cfg.initialCapital, cfg.slippagePct)
  {
    var d := Engine.Decisions(strategy, inputs);
    if d.Ok? { Accounting.SettledIsNetted(Engine.PricingOf(charges, strategy, cfg), d.value); }
  }

  /** What every backtest reports, column by column. */
  lemma ResultAddsUp(charges: ChargeCalculator, strategy: Strategy, inputs: EngineInputs, cfg: RunConfig)
    ensures var b := Engine.Backtest(charges, strategy, inputs, cfg);
            b.Ok? ==>
              && AddsUp(b.value)
              && (inputs.signalCandles != [] && inputs.tradeCandles != [] ==> b.value.slippagePct == cfg.slippagePct)
  {
    var b := Engine.Backtest(charges, strategy, inputs, cfg);
    if inputs.signalCandles == [] || inputs.tradeCandles == [] {
      WinsAre([], 0);
      LossesAre([], 0);
    } else if b.Ok? {
      ResultIsSummary(charges, strategy, inputs, cfg);
      SummaryAddsUp(b.value.trades, cfg.initialCapital, cfg.slippagePct);
    }
  }
}
