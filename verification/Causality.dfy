/** No look-ahead: cutting the data off at any time changes nothing that was decided up to that time. */
module Causality {
  import opened Types
  import opened Scheduler
  import opened Evaluator
  import P = Positions
  import Runs
  import opened Engine

  // ---------------------------------------------------------------- cutting a stream

  /** The candles up to and including time `t`. */
  function UpTo(cs: seq<Candle>, t: int): seq<Candle> {
    if |cs| == 0 then []
    else
      var n := |cs| - 1;
      UpTo(cs[..n], t) + if cs[n].timestamp <= t then [cs[n]] else []
  }

  function CutAt(inputs: EngineInputs, t: int): EngineInputs {
    EngineInputs(inputs.interval, UpTo(inputs.signalCandles, t), UpTo(inputs.tradeCandles, t))
  }

  ghost predicate CutsAt(cs: seq<Candle>, t: int, m: nat) {
    && m <= |cs|
    && (forall i :: 0 <= i < m ==> cs[i].timestamp <= t)
    && (forall i :: m <= i < |cs| ==> cs[i].timestamp > t)
  }

  lemma {:induction false} UpToIsPrefix(cs: seq<Candle>, t: int) returns (m: nat)
    requires Chronological(cs)
    ensures CutsAt(cs, t, m) && UpTo(cs, t) == cs[..m]
  {
    if |cs| == 0 { return 0; }
    var n := |cs| - 1;
    if cs[n].timestamp <= t {
      NoneLater(cs, t);
      AllUpTo(cs, t);
      return |cs|;
    }
    m := UpToIsPrefix(cs[..n], t);
    assert cs[..n][..m] == cs[..m];
  }

  ghost predicate AllBy(cs: seq<Candle>, t: int) {
    forall i :: 0 <= i < |cs| ==> cs[i].timestamp <= t
  }

  lemma NoneLater(cs: seq<Candle>, t: int)
    requires Chronological(cs) && |cs| > 0 && cs[|cs| - 1].timestamp <= t
    ensures AllBy(cs, t)
  {
    forall i | 0 <= i < |cs| ensures cs[i].timestamp <= t {
      assert i == |cs| - 1 || cs[i].timestamp <= cs[|cs| - 1].timestamp;
    }
  }

  lemma {:induction false} AllUpTo(cs: seq<Candle>, t: int)
    requires AllBy(cs, t)
    ensures UpTo(cs, t) == cs
  {
    if |cs| > 0 {
      var n := |cs| - 1;
      AllUpTo(cs[..n], t);
      assert cs == cs[..n] + [cs[n]];
    }
  }

  // ---------------------------------------------------------------- signals

  lemma {:induction false} CollectAgrees(kind: Kind, cs: seq<Candle>, sides: seq<Option<Side>>, m: nat, n: nat)
    requires n <= m <= |cs| == |sides|
    ensures Collect(kind, cs[..m], sides[..m], n) == Collect(kind, cs, sides, n)
  {
    if n > 0 { CollectAgrees(kind, cs, sides, m, n - 1); }
  }

  lemma SignalsOfPrefix(kind: Kind, cs: seq<Candle>, m: nat)
    requires m <= |cs|
    ensures Signals(kind, cs[..m]) == Collect(kind, cs, Sides(kind, cs), m)
  {
    forall i | 0 <= i < m ensures Sides(kind, cs[..m])[i] == Sides(kind, cs)[i] {
      assert cs[..m][..i + 1] == cs[..i + 1];
    }
    assert Sides(kind, cs[..m]) == Sides(kind, cs)[..m];
    CollectAgrees(kind, cs, Sides(kind, cs), m, m);
  }

  ghost predicate SignalsUpTo(signals: seq<Signal>, t: int, k: nat) {
    && k <= |signals|
    && (forall i :: 0 <= i < k ==> signals[i].timestamp <= t)
    && (forall i :: k <= i < |signals| ==> signals[i].timestamp > t)
  }

  /** `kept` is the part of `signals` up to time t. */
  ghost predicate SignalsSplit(signals: seq<Signal>, t: int, kept: seq<Signal>) {
    SignalsUpTo(signals, t, |kept|) && signals[..|kept|] == kept
  }

  lemma SplitLater(signals: seq<Signal>, t: int, kept: seq<Signal>, more: seq<Signal>)
    requires SignalsSplit(signals, t, kept) && forall i :: 0 <= i < |more| ==> more[i].timestamp > t
    ensures SignalsSplit(signals + more, t, kept)
  {
    assert (signals + more)[..|kept|] == signals[..|kept|];
  }

  lemma SplitAll(signals: seq<Signal>, t: int)
    requires forall i :: 0 <= i < |signals| ==> signals[i].timestamp <= t
    ensures SignalsSplit(signals, t, signals)
  {
  }

  lemma {:induction false} CollectBy(kind: Kind, cs: seq<Candle>, sides: seq<Option<Side>>, t: int, n: nat)
    requires n <= |cs| == |sides| && forall i :: 0 <= i < n ==> cs[i].timestamp <= t
    ensures forall i :: 0 <= i < |Collect(kind, cs, sides, n)| ==> Collect(kind, cs, sides, n)[i].timestamp <= t
  {
    if n > 0 { CollectBy(kind, cs, sides, t, n - 1); }
  }

  lemma {:induction false} CollectSplits(kind: Kind, cs: seq<Candle>, sides: seq<Option<Side>>, t: int, m: nat, n: nat)
    requires m <= n <= |cs| == |sides| && CutsAt(cs, t, m)
    ensures SignalsSplit(Collect(kind, cs, sides, n), t, Collect(kind, cs, sides, m))
    decreases n
  {
    if n == m {
      CollectBy(kind, cs, sides, t, m);
      SplitAll(Collect(kind, cs, sides, m), t);
    } else {
      CollectSplits(kind, cs, sides, t, m, n - 1);
      SplitLater(Collect(kind, cs, sides, n - 1), t, Collect(kind, cs, sides, m), Emit(kind, cs[n - 1], sides[n - 1]));
    }
  }

  /** The signals of the cut stream are the signals of the full stream up to the cut. */
  lemma SignalsAreCausal(kind: Kind, cs: seq<Candle>, t: int, m: nat)
    requires CutsAt(cs, t, m)
    ensures var k := |Signals(kind, cs[..m])|;
            SignalsUpTo(Signals(kind, cs), t, k) && Signals(kind, cs)[..k] == Signals(kind, cs[..m])
  {
    SignalsOfPrefix(kind, cs, m);
    CollectSplits(kind, cs, Sides(kind, cs), t, m, |cs|);
  }

  // ---------------------------------------------------------------- schedules

  lemma {:induction false} FirstFromPrefix(bars: seq<Candle>, t: int, m: nat, from: nat)
    requires from <= m <= |bars|
    ensures FirstFrom(bars[..m], t, from) == if FirstFrom(bars, t, from) < m then FirstFrom(bars, t, from) else m
    decreases m - from
  {
    if from < m && bars[from].timestamp < t { FirstFromPrefix(bars, t, m, from + 1); }
  }

  ghost function Early(e: Option<int>, t: int): Option<int> {
    if e.Some? && e.value <= t then e else None
  }

  lemma ExecutionOfPrefix(sig: Signal, bars: seq<Candle>, interval: int, t: int, m: nat)
    requires CutsAt(bars, t, m) && sig.timestamp <= t && interval > 0
    ensures Execution(sig, bars[..m], interval) == Early(Execution(sig, bars, interval), t)
  {
    FirstFromPrefix(bars, sig.timestamp + interval, m, 0);
    assert HasBarAt(bars[..m], sig.timestamp) <==> HasBarAt(bars, sig.timestamp) by {
      if HasBarAt(bars, sig.timestamp) {
        var j :| 0 <= j < |bars| && bars[j].timestamp == sig.timestamp;
        assert bars[..m][j] == bars[j];
      }
      if HasBarAt(bars[..m], sig.timestamp) {
        var j :| 0 <= j < |bars[..m]| && bars[..m][j].timestamp == sig.timestamp;
        assert bars[j].timestamp == sig.timestamp;
      }
    }
  }

  ghost predicate ScheduledUpTo(p: seq<Scheduled>, t: int, q: seq<Scheduled>) {
    q <= p && (forall i :: |q| <= i < |p| ==> p[i].executionTimestamp > t)
  }

  lemma {:induction false} PlanSplits(signals: seq<Signal>, ex: seq<Option<int>>, ex': seq<Option<int>>, t: int,
                                      k: nat, n: nat)
    requires n <= |signals| == |ex| && |ex'| == k <= |signals| && Increasing(ex, 0)
    requires forall i :: 0 <= i < k ==> ex'[i] == Early(ex[i], t)
    requires forall i :: k <= i < |ex| ==> Early(ex[i], t) == None
    ensures ScheduledUpTo(Plan(signals, ex, n), t, Plan(signals[..k], ex', if n < k then n else k))
    ensures n < |ex| && ex[n].Some? && ex[n].value <= t ==>
              Plan(signals, ex, n) == Plan(signals[..k], ex', if n < k then n else k)
  {
    if n > 0 {
      PlanSplits(signals, ex, ex', t, k, n - 1);
      StepSplits(signals, ex, ex', t, k, n - 1);
    }
    var p, q := Plan(signals, ex, n), Plan(signals[..k], ex', if n < k then n else k);
    var late := if |q| < |p| then p[|q|].executionTimestamp else t;
    PlanIncreases(signals, ex, 0, n);
    assert |q| == |p| ==> p == q;
  }

  lemma StepSplits(signals: seq<Signal>, ex: seq<Option<int>>, ex': seq<Option<int>>, t: int, k: nat, n: nat)
    requires n < |signals| == |ex| && |ex'| == k <= |signals|
    requires forall i :: 0 <= i < k ==> ex'[i] == Early(ex[i], t)
    requires forall i :: k <= i < |ex| ==> Early(ex[i], t) == None
    requires ScheduledUpTo(Plan(signals, ex, n), t, Plan(signals[..k], ex', if n < k then n else k))
    requires ex[n].Some? && ex[n].value <= t ==> Plan(signals, ex, n) == Plan(signals[..k], ex', if n < k then n else k)
    ensures ScheduledUpTo(Plan(signals, ex, n + 1), t, Plan(signals[..k], ex', if n + 1 < k then n + 1 else k))
  {
  }

  /** The schedule of the cut streams is the part of the full schedule that executes up to the cut. */
  lemma ScheduleIsCausal(signals: seq<Signal>, bars: seq<Candle>, interval: int, t: int, k: nat, m: nat)
    requires SignalsChronological(signals) && Chronological(bars) && interval > 0
    requires SignalsUpTo(signals, t, k) && CutsAt(bars, t, m)
    ensures ScheduledUpTo(Schedule(signals, bars, interval), t, Schedule(signals[..k], bars[..m], interval))
  {
    var ex, ex' := Executions(signals, bars, interval), Executions(signals[..k], bars[..m], interval);
    ExecutionsIncrease(signals, bars, interval);
    forall i | 0 <= i < k ensures ex'[i] == Early(ex[i], t) {
      ExecutionOfPrefix(signals[i], bars, interval, t, m);
    }
    forall i | k <= i < |ex| ensures Early(ex[i], t) == None {
      ExecutionBounds(signals[i], bars, interval);
    }
    PlanSplits(signals, ex, ex', t, k, |signals|);
  }

  // ---------------------------------------------------------------- positions

  lemma {:induction false} SignalsTakenAlike(book: P.Book, p: seq<Scheduled>, q: seq<Scheduled>, c: Candle, t: int)
    requires ScheduledUpTo(p, t, q) && c.timestamp <= t
    ensures P.TakeSignals(book, q, c) == P.TakeSignals(book, p, c)
    decreases |p| - book.next
  {
    if book.next < |q| && q[book.next].executionTimestamp == c.timestamp {
      SignalsTakenAlike(P.TakeSignal(book, q[book.next].signal, c), p, q, c, t);
    }
  }

  lemma {:induction false} RunOfPrefix(bars: seq<Candle>, p: seq<Scheduled>, q: seq<Scheduled>, s: Strategy, t: int,
                                       m: nat, n: nat)
    requires n <= m && CutsAt(bars, t, m) && ScheduledUpTo(p, t, q)
    ensures P.Run(bars[..m], q, s, n) == P.Run(bars, p, s, n)
  {
    if n > 0 {
      RunOfPrefix(bars, p, q, s, t, m, n - 1);
      var book := P.CloseOnBar(P.Run(bars, p, s, n - 1), bars[n - 1], s);
      assert bars[..m][n - 1] == bars[n - 1];
      SignalsTakenAlike(book, p, q, bars[n - 1], t);
    }
  }

  /** From one book to a later one: closed trips are only appended, all closed after time `t`. */
  ghost predicate Grows(before: seq<P.RoundTrip>, after: seq<P.RoundTrip>, t: int) {
    before <= after && forall i :: |before| <= i < |after| ==> after[i].exitTimestamp > t
  }

  lemma {:induction false} SignalsGrow(book: P.Book, scheduled: seq<Scheduled>, c: Candle, t: int)
    requires c.timestamp > t
    ensures Grows(book.closed, P.TakeSignals(book, scheduled, c).closed, t)
    decreases |scheduled| - book.next
  {
    if book.next < |scheduled| && scheduled[book.next].executionTimestamp == c.timestamp {
      SignalsGrow(P.TakeSignal(book, scheduled[book.next].signal, c), scheduled, c, t);
    }
  }

  lemma {:induction false} RunGrows(bars: seq<Candle>, scheduled: seq<Scheduled>, s: Strategy, t: int, m: nat, n: nat)
    requires m <= n <= |bars| && CutsAt(bars, t, m)
    ensures Grows(P.Run(bars, scheduled, s, m).closed, P.Run(bars, scheduled, s, n).closed, t)
  {
    if m < n {
      RunGrows(bars, scheduled, s, t, m, n - 1);
      SignalsGrow(P.CloseOnBar(P.Run(bars, scheduled, s, n - 1), bars[n - 1], s), scheduled, bars[n - 1], t);
    }
  }

  /** The round trips that a run decided, as opposed to the forced close at the end of its data. */
  function Decided(rts: seq<P.RoundTrip>): seq<P.RoundTrip> {
    if |rts| > 0 && rts[|rts| - 1].exitReason == EndOfData then rts[..|rts| - 1] else rts
  }

  /** `all` starts with `kept`, and what follows was closed after `t` or by the end of data. */
  ghost predicate KeepsUpTo(kept: seq<P.RoundTrip>, all: seq<P.RoundTrip>, t: int) {
    kept <= all && forall i :: |kept| <= i < |all| ==> all[i].exitReason == EndOfData || all[i].exitTimestamp > t
  }

  lemma DecidedIsClosed(book: P.Book, last: Candle)
    requires Runs.NoneForced(book.closed)
    ensures Decided(P.Finish(book, last)) == book.closed
  {
  }

  /** The positions of the cut run are the positions of the full run up to the cut. */
  lemma PositionsAreCausal(bars: seq<Candle>, p: seq<Scheduled>, q: seq<Scheduled>, s: Strategy, t: int, m: nat)
    requires Chronological(bars) && CutsAt(bars, t, m) && ScheduledUpTo(p, t, q)
    ensures KeepsUpTo(Decided(P.RoundTrips(bars[..m], q, s)), P.RoundTrips(bars, p, s), t)
  {
    RunGrows(bars, p, s, t, m, |bars|);
    CutDecides(bars, p, q, s, t, m);
  }

  lemma CutDecides(bars: seq<Candle>, p: seq<Scheduled>, q: seq<Scheduled>, s: Strategy, t: int, m: nat)
    requires Chronological(bars) && CutsAt(bars, t, m) && ScheduledUpTo(p, t, q)
    ensures Decided(P.RoundTrips(bars[..m], q, s)) == P.Run(bars, p, s, m).closed
  {
    if m > 0 {
      RunOfPrefix(bars, p, q, s, t, m, m);
      Runs.RunInOrder(bars, p, s, m);
      DecidedIsClosed(P.Run(bars, p, s, m), bars[m - 1]);
      assert bars[..m][m - 1] == bars[m - 1];
    }
  }

  // ---------------------------------------------------------------- the whole pipeline

  lemma {:induction false} NothingScheduled(bars: seq<Candle>, s: Strategy, n: nat)
    requires n <= |bars|
    ensures P.Run(bars, [], s, n) == P.EMPTY_BOOK
  {
    if n > 0 { NothingScheduled(bars, s, n - 1); }
  }

  /** The decisions of the cut run, apart from its forced close, are the decisions of the full run up to the cut. */
  lemma DecisionsAreCausal(strategy: Strategy, inputs: EngineInputs, t: int)
    requires Chronological(inputs.signalCandles) && Chronological(inputs.tradeCandles)
    ensures var cut, full := Decisions(strategy, CutAt(inputs, t)), Decisions(strategy, inputs);
            full.Ok? ==> cut.Ok? && KeepsUpTo(Decided(cut.value), full.value, t)
  {
    var cs, bars := inputs.signalCandles, inputs.tradeCandles;
    var a := UpToIsPrefix(cs, t);
    var m := UpToIsPrefix(bars, t);
    if |cs| > 0 && |bars| > 0 && Decisions(strategy, inputs).Ok? {
      var kind, interval := ParseKind(strategy.entryCondition).value, IntervalDuration(inputs.interval).value;
      var signals := Signals(kind, cs);
      SignalsAreCausal(kind, cs, t, a);
      EvaluationChronological(strategy.entryCondition, cs);
      var k := |Signals(kind, cs[..a])|;
      ScheduleIsCausal(signals, bars, interval, t, k, m);
      var p, q := Schedule(signals, bars, interval), Schedule(signals[..k], bars[..m], interval);
      PositionsAreCausal(bars, p, q, strategy, t, m);
      if a == 0 {
        assert q == [];
        NothingScheduled(bars[..m], strategy, m);
      }
    }
  }

  ghost predicate PricedUpTo(kept: seq<Trade>, all: seq<Trade>, t: int) {
    kept <= all && forall i :: |kept| <= i < |all| ==> all[i].exitReason == Some(EndOfData) || all[i].exitTimestamp > t
  }

  function DecidedTrades(trades: seq<Trade>): seq<Trade> {
    if |trades| > 0 && trades[|trades| - 1].exitReason == Some(EndOfData) then trades[..|trades| - 1] else trades
  }

  /** No look-ahead. Cut both streams at any time and run again: the trades of the cut run, apart from its forced
      close, are exactly the trades the full run had decided and closed by then, with the same amounts. */
  lemma NoLookAhead(charges: ChargeCalculator, strategy: Strategy, inputs: EngineInputs, cfg: RunConfig, t: int)
    requires Chronological(inputs.signalCandles) && Chronological(inputs.tradeCandles)
    ensures var cut := Backtest(charges, strategy, CutAt(inputs, t), cfg);
            var full := Backtest(charges, strategy, inputs, cfg);
            full.Ok? ==> cut.Ok? && PricedUpTo(DecidedTrades(cut.value.trades), full.value.trades, t)
  {
    DecisionsAreCausal(strategy, inputs, t);
    BacktestPricesDecisions(charges, strategy, inputs, cfg);
    BacktestPricesDecisions(charges, strategy, CutAt(inputs, t), cfg);
    var cut, full := Decisions(strategy, CutAt(inputs, t)), Decisions(strategy, inputs);
    if full.Ok? { PricedAlike(PricingOf(charges, strategy, cfg), cut.value, full.value, t); }
  }

  lemma PricedAlike(p: Pricing, cut: seq<P.RoundTrip>, full: seq<P.RoundTrip>, t: int)
    requires KeepsUpTo(Decided(cut), full, t)
    ensures PricedUpTo(DecidedTrades(SettleAll(p, cut)), SettleAll(p, full), t)
  {
    var kept := Decided(cut);
    assert SettleAll(p, kept) == SettleAll(p, full)[..|kept|];
    assert DecidedTrades(SettleAll(p, cut)) == SettleAll(p, kept);
  }
}
