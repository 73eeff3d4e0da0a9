/** Scheduling signals onto execution bars: the two-pointer merge of the engine against its one-signal-at-a-time
    meaning. A signal at T is executable only if a trade bar exists at T, and it executes at the first trade bar
    at or after T plus the interval. */
module Scheduler {
  import opened Types

  datatype Scheduled = Scheduled(signal: Signal, executionTimestamp: int)

  ghost predicate HasBarAt(bars: seq<Candle>, t: int) {
    exists j :: 0 <= j < |bars| && bars[j].timestamp == t
  }

  /** The index of the first bar at or after `t`, or the number of bars if all are earlier. */
  function FirstFrom(bars: seq<Candle>, t: int, from: nat := 0): (k: nat)
    requires from <= |bars|
    ensures from <= k <= |bars| && (k < |bars| ==> bars[k].timestamp >= t)
    ensures forall j :: from <= j < k ==> bars[j].timestamp < t
    decreases |bars| - from
  {
    if from == |bars| || bars[from].timestamp >= t then from else FirstFrom(bars, t, from + 1)
  }

  /** The timestamp of that bar, if there is one. */
  function FirstBarFrom(bars: seq<Candle>, t: int): Option<int> {
    var k := FirstFrom(bars, t);
    if k < |bars| then Some(bars[k].timestamp) else None
  }

  /** What scheduling means for one signal. */
  ghost function Execution(sig: Signal, bars: seq<Candle>, interval: int): Option<int> {
    if HasBarAt(bars, sig.timestamp) then FirstBarFrom(bars, sig.timestamp + interval) else None
  }

  ghost function Executions(signals: seq<Signal>, bars: seq<Candle>, interval: int): (r: seq<Option<int>>)
    ensures |r| == |signals|
  {
    seq(|signals|, k requires 0 <= k < |signals| => Execution(signals[k], bars, interval))
  }

  /** The schedule of the first `n` signals, one at a time, in signal order, for given executions. */
  function Plan(signals: seq<Signal>, executions: seq<Option<int>>, n: nat): seq<Scheduled>
    requires n <= |signals| == |executions|
  {
    if n == 0 then [] else Extend(Plan(signals, executions, n - 1), signals[n - 1], executions[n - 1])
  }

  function Extend(p: seq<Scheduled>, sig: Signal, execution: Option<int>): seq<Scheduled> {
    if execution.None? then p else p + [Scheduled(sig, execution.value)]
  }

  ghost function Schedule(signals: seq<Signal>, bars: seq<Candle>, interval: int): seq<Scheduled> {
    Plan(signals, Executions(signals, bars, interval), |signals|)
  }

  lemma {:induction false} PlanStops(signals: seq<Signal>, executions: seq<Option<int>>, i: nat, n: nat)
    requires i <= n <= |signals| == |executions|
    requires forall k :: i <= k < n ==> executions[k] == None
    ensures Plan(signals, executions, n) == Plan(signals, executions, i)
  {
    if i < n { PlanStops(signals, executions, i, n - 1); }
  }

  /** Advances a pointer past the bars before `t`. */
  method Advance(bars: seq<Candle>, start: nat, t: int) returns (k: nat)
    requires start <= |bars| && forall j :: 0 <= j < start ==> bars[j].timestamp < t
    ensures start <= k == FirstFrom(bars, t)
  {
    k := start;
    while k < |bars| && bars[k].timestamp < t
      invariant start <= k <= |bars|
      invariant forall j :: 0 <= j < k ==> bars[j].timestamp < t
    {
      k := k + 1;
    }
  }

  /** One signal of the merge, from pointers that have only passed bars too early for it. `exhausted` is the early
      exit: a pointer ran off the end, so neither this signal nor any later one can execute. */
  method PlaceSignal(sig: Signal, bars: seq<Candle>, interval: int, matchFrom: nat, executeFrom: nat)
    returns (matchTradeIdx: nat, executionTradeIdx: nat, execution: Option<int>, exhausted: bool)
    requires Chronological(bars) && interval > 0 && matchFrom <= |bars| && executeFrom <= |bars|
    requires forall j :: 0 <= j < matchFrom ==> bars[j].timestamp < sig.timestamp
    requires forall j :: 0 <= j < executeFrom ==> bars[j].timestamp < sig.timestamp + interval
    ensures matchTradeIdx <= |bars| && executionTradeIdx <= |bars|
    ensures forall j :: 0 <= j < matchTradeIdx ==> bars[j].timestamp < sig.timestamp
    ensures forall j :: 0 <= j < executionTradeIdx ==> bars[j].timestamp < sig.timestamp + interval
    ensures execution == Execution(sig, bars, interval)
    ensures exhausted ==> forall j :: 0 <= j < |bars| ==> bars[j].timestamp < sig.timestamp + interval
  {
    executionTradeIdx, execution, exhausted := executeFrom, None, false;
    matchTradeIdx := Advance(bars, matchFrom, sig.timestamp);
    if matchTradeIdx >= |bars| {
      exhausted := true;
      return;
    }
    if bars[matchTradeIdx].timestamp != sig.timestamp {
      NoMatch(bars, sig, interval);
      return;
    }
    if executionTradeIdx < matchTradeIdx {
      executionTradeIdx := matchTradeIdx;
    }
    executionTradeIdx := Advance(bars, executionTradeIdx, sig.timestamp + interval);
    if executionTradeIdx >= |bars| {
      exhausted := true;
      return;
    }
    Match(bars, sig, interval);
    execution := Some(bars[executionTradeIdx].timestamp);
  }

  /** The two-pointer merge computes the schedule; neither early exit loses a signal. */
  method ScheduleSignals(signals: seq<Signal>, bars: seq<Candle>, interval: int) returns (scheduled: seq<Scheduled>)
    requires SignalsChronological(signals) && Chronological(bars) && interval > 0
    ensures scheduled == Schedule(signals, bars, interval)
  {
    ghost var executions := Executions(signals, bars, interval);
    if |signals| == 0 || |bars| == 0 {
      PlanStops(signals, executions, 0, |signals|);
      return [];
    }
    scheduled := [];
    var matchTradeIdx: nat, executionTradeIdx: nat := 0, 0;
    ghost var reached := signals[0].timestamp;
    for i := 0 to |signals|
      invariant matchTradeIdx <= |bars| && executionTradeIdx <= |bars|
      invariant forall k :: i <= k < |signals| ==> reached <= signals[k].timestamp
      invariant forall j :: 0 <= j < matchTradeIdx ==> bars[j].timestamp < reached
      invariant forall j :: 0 <= j < executionTradeIdx ==> bars[j].timestamp < reached + interval
      invariant scheduled == Plan(signals, executions, i)
    {
      reached := signals[i].timestamp;
      var execution, exhausted;
      matchTradeIdx, executionTradeIdx, execution, exhausted :=
        PlaceSignal(signals[i], bars, interval, matchTradeIdx, executionTradeIdx);
      if exhausted {
        AllTooLate(signals, bars, interval, i);
        return;
      }
      if execution.Some? {
        scheduled := scheduled + [Scheduled(signals[i], execution.value)];
      }
    }
  }

  lemma Match(bars: seq<Candle>, sig: Signal, interval: int)
    requires FirstFrom(bars, sig.timestamp) < |bars| && bars[FirstFrom(bars, sig.timestamp)].timestamp == sig.timestamp
    requires FirstFrom(bars, sig.timestamp + interval) < |bars|
    ensures Execution(sig, bars, interval) == Some(bars[FirstFrom(bars, sig.timestamp + interval)].timestamp)
  {
  }

  lemma NoMatch(bars: seq<Candle>, sig: Signal, interval: int)
    requires Chronological(bars)
    requires FirstFrom(bars, sig.timestamp) < |bars| && bars[FirstFrom(bars, sig.timestamp)].timestamp != sig.timestamp
    ensures Execution(sig, bars, interval) == None
  {
    var t := sig.timestamp;
    var k := FirstFrom(bars, t);
    forall j | k <= j < |bars| ensures bars[j].timestamp > t {
      assert j == k || bars[k].timestamp <= bars[j].timestamp;
    }
  }

  lemma AllTooLate(signals: seq<Signal>, bars: seq<Candle>, interval: int, i: nat)
    requires SignalsChronological(signals) && interval > 0 && i < |signals|
    requires forall j :: 0 <= j < |bars| ==> bars[j].timestamp < signals[i].timestamp + interval
    ensures Schedule(signals, bars, interval) == Plan(signals, Executions(signals, bars, interval), i)
  {
    forall k | i <= k < |signals| ensures Execution(signals[k], bars, interval) == None {
      assert k == i || signals[i].timestamp <= signals[k].timestamp;
    }
    PlanStops(signals, Executions(signals, bars, interval), i, |signals|);
  }

  // ---------------------------------------------------------------- what a schedule guarantees

  ghost predicate Ordered(scheduled: seq<Scheduled>) {
    forall i, j :: 0 <= i < j < |scheduled| ==> scheduled[i].executionTimestamp <= scheduled[j].executionTimestamp
  }

  ghost predicate OnBars(scheduled: seq<Scheduled>, bars: seq<Candle>) {
    forall i :: 0 <= i < |scheduled| ==> HasBarAt(bars, scheduled[i].executionTimestamp)
  }

  lemma FirstBarMonotone(bars: seq<Candle>, t: int, u: int)
    requires Chronological(bars) && t <= u && FirstBarFrom(bars, u).Some?
    ensures FirstBarFrom(bars, t).Some? && FirstBarFrom(bars, t).value <= FirstBarFrom(bars, u).value
  {
    var j, k := FirstFrom(bars, t), FirstFrom(bars, u);
    assert j <= k;
  }

  lemma ExecutionBounds(sig: Signal, bars: seq<Candle>, interval: int)
    ensures var e := Execution(sig, bars, interval);
            e.Some? ==> HasBarAt(bars, e.value) && sig.timestamp + interval <= e.value
  {
    var t := sig.timestamp + interval;
    if FirstBarFrom(bars, t).Some? { assert bars[FirstFrom(bars, t)].timestamp == FirstBarFrom(bars, t).value; }
  }

  ghost predicate Delayed(p: seq<Scheduled>, interval: int) {
    forall i :: 0 <= i < |p| ==> p[i].signal.timestamp + interval <= p[i].executionTimestamp
  }

  /** Execution times that never run backwards; `gap` 1 makes them strictly increase. */
  ghost predicate Increasing(executions: seq<Option<int>>, gap: int) {
    forall i, k :: 0 <= i < k < |executions| && executions[i].Some? && executions[k].Some? ==>
      executions[i].value + gap <= executions[k].value
  }

  ghost predicate NotAfter(p: seq<Scheduled>, executions: seq<Option<int>>, gap: int, n: nat) {
    forall i, k :: 0 <= i < |p| && n <= k < |executions| && executions[k].Some? ==>
      p[i].executionTimestamp + gap <= executions[k].value
  }

  ghost predicate Apart(p: seq<Scheduled>, gap: int) {
    forall i, j :: 0 <= i < j < |p| ==> p[i].executionTimestamp + gap <= p[j].executionTimestamp
  }

  lemma {:induction false} PlanIncreases(signals: seq<Signal>, executions: seq<Option<int>>, gap: int, n: nat)
    requires n <= |signals| == |executions| && Increasing(executions, gap)
    ensures Apart(Plan(signals, executions, n), gap) && NotAfter(Plan(signals, executions, n), executions, gap, n)
  {
    if n > 0 { PlanIncreases(signals, executions, gap, n - 1); }
  }

  lemma {:induction false} PlanLands(signals: seq<Signal>, bars: seq<Candle>, interval: int, n: nat)
    requires n <= |signals|
    ensures var p := Plan(signals, Executions(signals, bars, interval), n); OnBars(p, bars) && Delayed(p, interval)
  {
    if n > 0 {
      PlanLands(signals, bars, interval, n - 1);
      ExecutionBounds(signals[n - 1], bars, interval);
    }
  }

  lemma ExecutionsIncrease(signals: seq<Signal>, bars: seq<Candle>, interval: int)
    requires SignalsChronological(signals) && Chronological(bars)
    ensures Increasing(Executions(signals, bars, interval), 0)
  {
    var executions := Executions(signals, bars, interval);
    forall i, k | 0 <= i < k < |signals| && executions[i].Some? && executions[k].Some?
      ensures executions[i].value <= executions[k].value
    {
      FirstBarMonotone(bars, signals[i].timestamp + interval, signals[k].timestamp + interval);
    }
  }

  /** Executions follow their signals by at least one interval, fall on bars and never run backwards. */
  lemma ScheduleExecutable(signals: seq<Signal>, bars: seq<Candle>, interval: int)
    requires SignalsChronological(signals) && Chronological(bars)
    ensures var p := Schedule(signals, bars, interval); Ordered(p) && OnBars(p, bars) && Delayed(p, interval)
  {
    ExecutionsIncrease(signals, bars, interval);
    PlanIncreases(signals, Executions(signals, bars, interval), 0, |signals|);
    PlanLands(signals, bars, interval, |signals|);
  }

  /** Signals at least one interval apart execute on different, later and later bars. */
  lemma SpacedSignalsExecuteApart(signals: seq<Signal>, bars: seq<Candle>, interval: int)
    requires Chronological(bars) && interval > 0 && SignalsApart(signals, interval)
    ensures Apart(Schedule(signals, bars, interval), 1)
  {
    var executions := Executions(signals, bars, interval);
    forall i, k | 0 <= i < k < |signals| && executions[i].Some? && executions[k].Some?
      ensures executions[i].value < executions[k].value
    {
      var j :| 0 <= j < |bars| && bars[j].timestamp == signals[k].timestamp;
      assert FirstFrom(bars, signals[i].timestamp + interval) <= j;
      ExecutionBounds(signals[k], bars, interval);
    }
    PlanIncreases(signals, executions, 1, |signals|);
  }
}
