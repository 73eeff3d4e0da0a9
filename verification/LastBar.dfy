/** When stop-loss and target hold for every trade: it depends on what the schedule does on the last bar, whose own
    exit rules are never checked for a position entered there. */
module LastBar {
  import opened Types
  import opened Scheduler
  import opened Positions
  import opened Bounds
  import Runs
  import Engine
  import Evaluator
  import Guarantees
  import Accounting
  import Alternation

  // ---------------------------------------------------------------- the last same-side signals

  /** Where the final run of same-side signals begins. */
  function LastRunStart(scheduled: seq<Scheduled>, n: nat): (h: nat)
    requires 0 < n <= |scheduled|
    ensures h < n && forall k :: h <= k < n ==> scheduled[k].signal.side == scheduled[n - 1].signal.side
    ensures h > 0 ==> scheduled[h - 1].signal.side != scheduled[h].signal.side
  {
    if n > 1 && scheduled[n - 2].signal.side == scheduled[n - 1].signal.side then LastRunStart(scheduled, n - 1)
    else n - 1
  }

  ghost predicate Tradable(bars: seq<Candle>, scheduled: seq<Scheduled>, s: Strategy) {
    && |bars| > 0 && StrictlyChronological(bars) && (forall i :: 0 <= i < |bars| ==> bars[i].WellFormed())
    && Ordered(scheduled) && OnBars(scheduled, bars) && ValidPercentages(s)
  }

  /** The final run of same-side signals begins on the last bar. */
  ghost predicate TurnsOnLastBar(bars: seq<Candle>, scheduled: seq<Scheduled>) {
    && |bars| > 0 && |scheduled| > 0
    && scheduled[LastRunStart(scheduled, |scheduled|)].executionTimestamp == bars[|bars| - 1].timestamp
  }

  ghost predicate SilentOn(scheduled: seq<Scheduled>, t: int) {
    forall k :: 0 <= k < |scheduled| ==> scheduled[k].executionTimestamp != t
  }

  /** The last bar runs from its open to its close without passing a level of a position the last signal opens there. */
  ghost predicate LastEntryAllowed(bars: seq<Candle>, scheduled: seq<Scheduled>, s: Strategy)
    requires |bars| > 0 && |scheduled| > 0
  {
    var last := bars[|bars| - 1];
    Allowed(EntryAt(scheduled[|scheduled| - 1].signal, last), last.close, s)
  }

  // ---------------------------------------------------------------- the last run of signals begins on the last bar

  /** An open position is on the side of the last consumed signal. */
  ghost predicate SideTracks(book: Book, scheduled: seq<Scheduled>) {
    && book.next <= |scheduled|
    && (book.open.Some? ==> book.next > 0 && book.open.value.side == scheduled[book.next - 1].signal.side)
  }

  /** Once past element h, the position is one entered on bar c, on the side of element h. */
  ghost predicate EnteredSince(book: Book, scheduled: seq<Scheduled>, h: nat, c: Candle)
    requires h < |scheduled|
  {
    book.next > h ==>
      book.open.Some? && book.open.value.side == scheduled[h].signal.side && EnteredOn(book.open.value, c)
  }

  lemma {:induction false} SignalsTrackSide(book: Book, scheduled: seq<Scheduled>, c: Candle)
    requires SideTracks(book, scheduled)
    ensures SideTracks(TakeSignals(book, scheduled, c), scheduled)
    decreases |scheduled| - book.next
  {
    if book.next < |scheduled| && scheduled[book.next].executionTimestamp == c.timestamp {
      SignalsTrackSide(TakeSignal(book, scheduled[book.next].signal, c), scheduled, c);
    }
  }

  lemma {:induction false} RunTracksSide(bars: seq<Candle>, scheduled: seq<Scheduled>, s: Strategy, n: nat)
    requires n <= |bars|
    ensures SideTracks(Run(bars, scheduled, s, n), scheduled)
  {
    if n > 0 {
      RunTracksSide(bars, scheduled, s, n - 1);
      SignalsTrackSide(CloseOnBar(Run(bars, scheduled, s, n - 1), bars[n - 1], s), scheduled, bars[n - 1]);
    }
  }

  lemma {:induction false} SignalsEnter(book: Book, scheduled: seq<Scheduled>, c: Candle, h: nat)
    requires h < |scheduled| && SideTracks(book, scheduled) && EnteredSince(book, scheduled, h, c)
    requires h > 0 ==> scheduled[h - 1].signal.side != scheduled[h].signal.side
    requires forall k :: h <= k < |scheduled| ==> scheduled[k].signal.side == scheduled[h].signal.side
    ensures EnteredSince(TakeSignals(book, scheduled, c), scheduled, h, c)
    decreases |scheduled| - book.next
  {
    if book.next < |scheduled| && scheduled[book.next].executionTimestamp == c.timestamp {
      SignalsEnter(TakeSignal(book, scheduled[book.next].signal, c), scheduled, c, h);
    }
  }

  /** If the final run of same-side signals begins on the last bar, the run ends with a position entered there. */
  lemma EndsEntered(bars: seq<Candle>, scheduled: seq<Scheduled>, s: Strategy)
    requires Tradable(bars, scheduled, s) && TurnsOnLastBar(bars, scheduled)
    ensures var book, last := Run(bars, scheduled, s, |bars|), bars[|bars| - 1];
            book.open.Some? && EnteredOn(book.open.value, last)
            && book.open.value.side == scheduled[|scheduled| - 1].signal.side
  {
    var n, h := |bars| - 1, LastRunStart(scheduled, |scheduled|);
    var book, last := Run(bars, scheduled, s, n), bars[n];
    assert Chronological(bars);
    RunTracksSide(bars, scheduled, s, n);
    if n > 0 {
      Runs.RunCatchesUp(bars, scheduled, s, n);
      assert bars[n - 1].timestamp < last.timestamp;
    }
    assert book.next <= h;
    SignalsEnter(CloseOnBar(book, last, s), scheduled, last, h);
    Runs.QueueDrains(bars, scheduled, s);
  }

  lemma AllowedBySide(e: Entry, f: Entry, price: real, s: Strategy)
    requires e.side == f.side && e.price == f.price
    ensures Allowed(e, price, s) <==> Allowed(f, price, s)
  {
  }

  // ---------------------------------------------------------------- exactly

  predicate SignalsOn(scheduled: seq<Scheduled>, h: nat, t: int) {
    exists k :: h <= k < |scheduled| && scheduled[k].executionTimestamp == t
  }

  /** Follows the one-sided signals from element h on their own, from bar to bar: in at the open of a bar on which one
      of them executes, out on the first later bar on which a rule fires. It gives the bar on which the position then
      held, if any, was entered. */
  function Stay(bars: seq<Candle>, scheduled: seq<Scheduled>, s: Strategy, h: nat, n: nat): (r: Option<nat>)
    requires h < |scheduled| && n <= |bars|
    ensures r.Some? ==> r.value < n
  {
    if n == 0 then None
    else
      var stay, c := Stay(bars, scheduled, s, h, n - 1), bars[n - 1];
      if stay.Some? && ExitOn(EntryAt(scheduled[h].signal, bars[stay.value]), c, s) == None then stay
      else if SignalsOn(scheduled, h, c.timestamp) then Some(n - 1)
      else None
  }

  /** The final run of same-side signals enters, or re-enters, on the last bar. */
  predicate EntersOnLastBar(bars: seq<Candle>, scheduled: seq<Scheduled>, s: Strategy) {
    && |bars| > 0 && |scheduled| > 0
    && Stay(bars, scheduled, s, LastRunStart(scheduled, |scheduled|), |bars|) == Some(|bars| - 1)
  }

  ghost predicate SamePosition(e: Entry, f: Entry) {
    e.timestamp == f.timestamp && e.side == f.side && e.price == f.price
  }

  /** Before element h is consumed nothing stays; after, the book's open position is the one that stays. */
  ghost predicate Agrees(book: Book, bars: seq<Candle>, scheduled: seq<Scheduled>, h: nat, stay: Option<nat>)
    requires h < |scheduled| && (stay.Some? ==> stay.value < |bars|)
  {
    if book.next <= h then stay == None
    else
      && (book.open.Some? <==> stay.Some?)
      && (stay.Some? ==> SamePosition(book.open.value, EntryAt(scheduled[h].signal, bars[stay.value])))
  }

  lemma RulesSeePosition(e: Entry, f: Entry, c: Candle, s: Strategy)
    requires SamePosition(e, f)
    ensures ExitOn(e, c, s) == ExitOn(f, c, s)
  {
  }

  ghost predicate Tail(scheduled: seq<Scheduled>, h: nat) {
    && h < |scheduled|
    && (forall k :: h <= k < |scheduled| ==> scheduled[k].signal.side == scheduled[h].signal.side)
    && (h > 0 ==> scheduled[h - 1].signal.side != scheduled[h].signal.side)
  }

  lemma {:induction false} TailTaken(book: Book, scheduled: seq<Scheduled>, c: Candle, h: nat)
    requires Tail(scheduled, h) && book.next > h
    requires book.open.Some? ==> book.open.value.side == scheduled[h].signal.side
    ensures var b := TakeSignals(book, scheduled, c);
            && b.next >= book.next
            && (b.next > book.next <==>
                  book.next < |scheduled| && scheduled[book.next].executionTimestamp == c.timestamp)
            && (book.open.Some? ==> b.open == book.open)
            && (book.open.None? && b.next == book.next ==> b.open == None)
            && (book.open.None? && b.next > book.next ==>
                  b.open.Some? && SamePosition(b.open.value, EntryAt(scheduled[h].signal, c)))
    decreases |scheduled| - book.next
  {
    if book.next < |scheduled| && scheduled[book.next].executionTimestamp == c.timestamp {
      TailTaken(TakeSignal(book, scheduled[book.next].signal, c), scheduled, c, h);
    }
  }

  /** One bar once element h has been consumed. */
  lemma StepAfterStart(book: Book, bars: seq<Candle>, scheduled: seq<Scheduled>, s: Strategy, h: nat, n: nat)
    requires n < |bars| && Tail(scheduled, h) && book.next > h && book.next <= |scheduled|
    requires Agrees(book, bars, scheduled, h, Stay(bars, scheduled, s, h, n))
    requires forall k :: 0 <= k < book.next ==> scheduled[k].executionTimestamp < bars[n].timestamp
    requires forall k :: book.next <= k < |scheduled| ==> scheduled[k].executionTimestamp >= bars[n].timestamp
    requires Ordered(scheduled)
    ensures Agrees(Bar(book, bars[n], scheduled, s), bars, scheduled, h, Stay(bars, scheduled, s, h, n + 1))
  {
    var stay, c, b := Stay(bars, scheduled, s, h, n), bars[n], CloseOnBar(book, bars[n], s);
    if stay.Some? { RulesSeePosition(book.open.value, EntryAt(scheduled[h].signal, bars[stay.value]), c, s); }
    TailTaken(b, scheduled, c, h);
    HeadDecides(scheduled, h, b.next, c.timestamp);
  }

  lemma HeadDecides(scheduled: seq<Scheduled>, h: nat, next: nat, t: int)
    requires Ordered(scheduled) && h <= next <= |scheduled|
    requires forall k :: 0 <= k < next ==> scheduled[k].executionTimestamp < t
    requires forall k :: next <= k < |scheduled| ==> scheduled[k].executionTimestamp >= t
    ensures SignalsOn(scheduled, h, t) <==> next < |scheduled| && scheduled[next].executionTimestamp == t
  {
    if SignalsOn(scheduled, h, t) {
      var k :| h <= k < |scheduled| && scheduled[k].executionTimestamp == t;
      assert k == next || scheduled[next].executionTimestamp <= scheduled[k].executionTimestamp;
    }
  }

  /** One bar before element h is consumed, or on which it is. */
  lemma StepBeforeStart(book: Book, bars: seq<Candle>, scheduled: seq<Scheduled>, s: Strategy, h: nat, n: nat)
    requires n < |bars| && Tail(scheduled, h) && book.next <= h && SideTracks(book, scheduled)
    requires Stay(bars, scheduled, s, h, n) == None && Ordered(scheduled)
    requires Runs.CaughtUp(Bar(book, bars[n], scheduled, s), scheduled, bars[n].timestamp)
    requires forall k :: book.next <= k < |scheduled| ==> scheduled[k].executionTimestamp >= bars[n].timestamp
    ensures Agrees(Bar(book, bars[n], scheduled, s), bars, scheduled, h, Stay(bars, scheduled, s, h, n + 1))
  {
    var b, c := Bar(book, bars[n], scheduled, s), bars[n];
    SignalsEnter(CloseOnBar(book, c, s), scheduled, c, h);
    assert EnteredSince(b, scheduled, h, c);
    if b.next > h {
      assert scheduled[h].executionTimestamp == c.timestamp;
      assert SignalsOn(scheduled, h, c.timestamp);
      assert Stay(bars, scheduled, s, h, n + 1) == Some(n);
    } else {
      assert !SignalsOn(scheduled, h, c.timestamp);
      assert Stay(bars, scheduled, s, h, n + 1) == None;
    }
  }

  lemma {:induction false} RunStays(bars: seq<Candle>, scheduled: seq<Scheduled>, s: Strategy, h: nat, n: nat)
    requires n <= |bars| && Tradable(bars, scheduled, s) && Tail(scheduled, h)
    ensures AgreesAt(bars, scheduled, s, h, n)
  {
    if n > 0 {
      RunStays(bars, scheduled, s, h, n - 1);
      StayStep(bars, scheduled, s, h, n - 1);
    }
  }

  ghost predicate AgreesAt(bars: seq<Candle>, scheduled: seq<Scheduled>, s: Strategy, h: nat, n: nat)
    requires n <= |bars| && h < |scheduled|
  {
    Agrees(Run(bars, scheduled, s, n), bars, scheduled, h, Stay(bars, scheduled, s, h, n))
  }

  lemma StayStep(bars: seq<Candle>, scheduled: seq<Scheduled>, s: Strategy, h: nat, n: nat)
    requires n < |bars| && Tradable(bars, scheduled, s) && Tail(scheduled, h) && AgreesAt(bars, scheduled, s, h, n)
    ensures AgreesAt(bars, scheduled, s, h, n + 1)
  {
    var book := Run(bars, scheduled, s, n);
    DueFrom(bars, scheduled, s, n);
    if book.next > h {
      StepAfterStart(book, bars, scheduled, s, h, n);
    } else {
      Runs.RunCatchesUp(bars, scheduled, s, n + 1);
      RunTracksSide(bars, scheduled, s, n);
      StepBeforeStart(book, bars, scheduled, s, h, n);
    }
  }

  /** Before bar n is processed, exactly the signals due earlier have been consumed. */
  lemma DueFrom(bars: seq<Candle>, scheduled: seq<Scheduled>, s: Strategy, n: nat)
    requires n < |bars| && Tradable(bars, scheduled, s)
    ensures Chronological(bars)
    ensures var next := Run(bars, scheduled, s, n).next;
            && next <= |scheduled|
            && (forall k :: 0 <= k < next ==> scheduled[k].executionTimestamp < bars[n].timestamp)
            && (forall k :: next <= k < |scheduled| ==> scheduled[k].executionTimestamp >= bars[n].timestamp)
  {
    assert Chronological(bars);
    if n > 0 {
      Runs.RunCatchesUp(bars, scheduled, s, n);
      assert bars[n - 1].timestamp < bars[n].timestamp;
    }
    var next := Run(bars, scheduled, s, n).next;
    forall k | next <= k < |scheduled| ensures scheduled[k].executionTimestamp >= bars[n].timestamp {
      Runs.LaterBar(bars, scheduled[k].executionTimestamp, n);
    }
  }

  lemma EntersIsUnprotected(bars: seq<Candle>, scheduled: seq<Scheduled>, s: Strategy)
    requires Tradable(bars, scheduled, s) && |scheduled| > 0
    ensures var book, last := Run(bars, scheduled, s, |bars|), bars[|bars| - 1];
            && (EntersOnLastBar(bars, scheduled, s) <==> Unprotected(book, last))
            && (Unprotected(book, last) ==> book.open.value.side == scheduled[|scheduled| - 1].signal.side)
  {
    var h := LastRunStart(scheduled, |scheduled|);
    assert Chronological(bars);
    RunStays(bars, scheduled, s, h, |bars|);
    Runs.QueueDrains(bars, scheduled, s);
    var stay := Stay(bars, scheduled, s, h, |bars|);
    if stay.Some? {
      assert stay.value == |bars| - 1 || bars[stay.value].timestamp < bars[|bars| - 1].timestamp;
    }
  }

  /** Exactly when every round trip respects its levels, told from the bars and the queue: unless the final run of
      same-side signals enters on the last bar, always; if it does, when the last bar's close is allowed for an entry
      at its open. */
  lemma LevelsHoldExactlyWhen(bars: seq<Candle>, scheduled: seq<Scheduled>, s: Strategy)
    requires Tradable(bars, scheduled, s)
    ensures AllAllowed(RoundTrips(bars, scheduled, s), s) <==>
            (EntersOnLastBar(bars, scheduled, s) ==> LastEntryAllowed(bars, scheduled, s))
  {
    var book, last := Run(bars, scheduled, s, |bars|), bars[|bars| - 1];
    RunStaysWithinLevels(bars, scheduled, s);
    RunTracksSide(bars, scheduled, s, |bars|);
    if |scheduled| > 0 {
      EntersIsUnprotected(bars, scheduled, s);
      if Unprotected(book, last) {
        AllowedBySide(book.open.value, EntryAt(scheduled[|scheduled| - 1].signal, last), last.close, s);
      }
    }
  }

  /** The two simple cases: nothing executes on the last bar, or the final run of same-side signals begins there. */
  lemma EntersWhen(bars: seq<Candle>, scheduled: seq<Scheduled>, s: Strategy)
    requires Tradable(bars, scheduled, s)
    ensures SilentOn(scheduled, bars[|bars| - 1].timestamp) ==> !EntersOnLastBar(bars, scheduled, s)
    ensures TurnsOnLastBar(bars, scheduled) ==> EntersOnLastBar(bars, scheduled, s)
  {
    if TurnsOnLastBar(bars, scheduled) {
      EndsEntered(bars, scheduled, s);
      EntersIsUnprotected(bars, scheduled, s);
    }
  }

  /** So the levels hold if nothing executes on the last bar, or if the last bar's close is allowed; and if the final
      run of same-side signals begins there, only then. */
  lemma LevelsHoldWhen(bars: seq<Candle>, scheduled: seq<Scheduled>, s: Strategy)
    requires Tradable(bars, scheduled, s)
    ensures var held := AllAllowed(RoundTrips(bars, scheduled, s), s);
            && (SilentOn(scheduled, bars[|bars| - 1].timestamp) ==> held)
            && (TurnsOnLastBar(bars, scheduled) ==> (held <==> LastEntryAllowed(bars, scheduled, s)))
            && (|scheduled| > 0 && LastEntryAllowed(bars, scheduled, s) ==> held)
  {
    LevelsHoldExactlyWhen(bars, scheduled, s);
    EntersWhen(bars, scheduled, s);
  }

  // ---------------------------------------------------------------- alternating queues

  ghost predicate SidesAlternate(scheduled: seq<Scheduled>) {
    forall k :: 0 < k < |scheduled| ==> scheduled[k].signal.side != scheduled[k - 1].signal.side
  }

  /** The last scheduled signal executes on the last bar. */
  predicate EndsOnLastBar(bars: seq<Candle>, scheduled: seq<Scheduled>) {
    && |bars| > 0 && |scheduled| > 0
    && scheduled[|scheduled| - 1].executionTimestamp == bars[|bars| - 1].timestamp
  }

  /** For a queue whose sides alternate only the last element matters. */
  lemma AlternatingEnters(bars: seq<Candle>, scheduled: seq<Scheduled>, s: Strategy)
    requires Tradable(bars, scheduled, s) && SidesAlternate(scheduled)
    ensures EntersOnLastBar(bars, scheduled, s) <==> EndsOnLastBar(bars, scheduled)
  {
    EntersWhen(bars, scheduled, s);
    if |scheduled| > 0 {
      var n, t := |scheduled|, bars[|bars| - 1].timestamp;
      assert n > 1 ==> scheduled[n - 1].signal.side != scheduled[n - 2].signal.side;
      if !EndsOnLastBar(bars, scheduled) {
        assert Chronological(bars);
        Runs.LastBar(bars, scheduled[n - 1].executionTimestamp);
        forall k | 0 <= k < n ensures scheduled[k].executionTimestamp != t {
          assert k == n - 1 || scheduled[k].executionTimestamp <= scheduled[n - 1].executionTimestamp;
        }
      }
    }
  }

  lemma {:induction false} PlanIsPrefix(signals: seq<Signal>, executions: seq<Option<int>>, n: nat)
    requires n <= |signals| == |executions|
    requires forall i, j :: 0 <= i < j < |executions| && executions[i].None? ==> executions[j].None?
    ensures var p := Plan(signals, executions, n);
            && |p| <= n && (forall k :: 0 <= k < |p| ==> p[k].signal == signals[k])
            && (|p| < n ==> executions[|p|].None?)
  {
    if n > 0 { PlanIsPrefix(signals, executions, n - 1); }
  }

  /** When every signal time has a bar, only trailing signals go unscheduled. */
  lemma ScheduleIsPrefix(signals: seq<Signal>, bars: seq<Candle>, interval: int)
    requires SignalsChronological(signals) && Chronological(bars)
    requires forall i :: 0 <= i < |signals| ==> HasBarAt(bars, signals[i].timestamp)
    ensures var p := Schedule(signals, bars, interval);
            |p| <= |signals| && forall k :: 0 <= k < |p| ==> p[k].signal == signals[k]
  {
    var executions := Executions(signals, bars, interval);
    forall i, j | 0 <= i < j < |executions| && executions[i].None? ensures executions[j].None? {
      if executions[j].Some? {
        FirstBarMonotone(bars, signals[i].timestamp + interval, signals[j].timestamp + interval);
      }
    }
    PlanIsPrefix(signals, executions, |signals|);
  }

  /** MA crossover, Supertrend and momentum give alternating queues whenever every signal time has a trade bar. */
  lemma QueueAlternates(strategy: Strategy, inputs: EngineInputs)
    requires Guarantees.Runnable(strategy, inputs)
    requires Chronological(inputs.signalCandles) && Chronological(inputs.tradeCandles)
    requires Evaluator.ParseKind(strategy.entryCondition) in {Some(MaCrossover), Some(Supertrend), Some(Momentum)}
    requires var signals := Evaluator.Evaluation(strategy.entryCondition, inputs.signalCandles).value;
             forall i :: 0 <= i < |signals| ==> HasBarAt(inputs.tradeCandles, signals[i].timestamp)
    ensures SidesAlternate(Guarantees.Queue(strategy, inputs))
  {
    var kind := Evaluator.ParseKind(strategy.entryCondition).value;
    var signals := Evaluator.Signals(kind, inputs.signalCandles);
    Evaluator.EvaluationChronological(strategy.entryCondition, inputs.signalCandles);
    Alternation.SignalsAlternate(kind, inputs.signalCandles);
    ScheduleIsPrefix(signals, inputs.tradeCandles, Engine.IntervalDuration(inputs.interval).value);
    PrefixAlternates(signals, Guarantees.Queue(strategy, inputs));
  }

  lemma PrefixAlternates(signals: seq<Signal>, scheduled: seq<Scheduled>)
    requires Alternation.Alternating(Alternation.SidesOf(signals)) && |scheduled| <= |signals|
    requires forall k :: 0 <= k < |scheduled| ==> scheduled[k].signal == signals[k]
    ensures SidesAlternate(scheduled)
  {
    var sides := Alternation.SidesOf(signals);
    forall k | 0 < k < |scheduled| ensures scheduled[k].signal.side != scheduled[k - 1].signal.side {
      assert sides[k] != sides[k - 1];
    }
  }

  // ---------------------------------------------------------------- whole backtests

  /** Every trade respects the stop and the target, without exception. */
  ghost predicate EveryTradeWithin(ts: seq<Trade>, s: Strategy) {
    forall i :: 0 <= i < |ts| ==> Guarantees.WithinStop(ts[i], s) && Guarantees.WithinTarget(ts[i], s)
  }

  lemma SettledWithin(p: Engine.Pricing, rts: seq<RoundTrip>, s: Strategy)
    requires p.qty >= 1
    ensures EveryTradeWithin(Engine.SettleAll(p, rts), s) <==> AllAllowed(rts, s)
  {
    var ts := Engine.SettleAll(p, rts);
    forall i | 0 <= i < |rts|
      ensures Guarantees.WithinStop(ts[i], s) && Guarantees.WithinTarget(ts[i], s) <==>
              Allowed(rts[i].entry, rts[i].exitPrice, s)
    {
      Guarantees.WithinIsAllowed(p, rts[i], s);
    }
    if EveryTradeWithin(ts, s) {
      forall i | 0 <= i < |rts| ensures Allowed(rts[i].entry, rts[i].exitPrice, s) {
        assert Guarantees.WithinStop(ts[i], s) && Guarantees.WithinTarget(ts[i], s);
      }
    }
  }

  lemma BacktestHeldIsLevelsHeld(charges: ChargeCalculator, strategy: Strategy, inputs: EngineInputs, cfg: RunConfig)
    ensures var b := Engine.Backtest(charges, strategy, inputs, cfg);
            var rts := RoundTrips(inputs.tradeCandles, Guarantees.Queue(strategy, inputs), strategy);
            Guarantees.Runnable(strategy, inputs) ==>
              b.Ok? && (EveryTradeWithin(b.value.trades, strategy) <==> AllAllowed(rts, strategy))
  {
    Engine.BacktestPricesDecisions(charges, strategy, inputs, cfg);
    if Guarantees.Runnable(strategy, inputs) {
      Guarantees.DecisionsAreRoundTrips(strategy, inputs);
      Accounting.QuantityNonNegative(strategy.lotSize, cfg.lots);
      SettledWithin(Engine.PricingOf(charges, strategy, cfg), Engine.Decisions(strategy, inputs).value, strategy);
    }
  }

  ghost predicate Realistic(strategy: Strategy, inputs: EngineInputs) {
    && Guarantees.Runnable(strategy, inputs) && ValidPercentages(strategy)
    && Chronological(inputs.signalCandles) && StrictlyChronological(inputs.tradeCandles)
    && forall i :: 0 <= i < |inputs.tradeCandles| ==> inputs.tradeCandles[i].WellFormed()
  }

  lemma QueueIsTradable(strategy: Strategy, inputs: EngineInputs)
    requires Realistic(strategy, inputs)
    ensures Tradable(inputs.tradeCandles, Guarantees.Queue(strategy, inputs), strategy)
    ensures Chronological(inputs.tradeCandles)
  {
    assert Chronological(inputs.tradeCandles);
    Guarantees.QueueIsExecutable(strategy, inputs);
  }

  /** Exactly when stop and target bound every trade of a backtest, told from its trade candles and its queue. */
  lemma StopAndTargetHoldExactlyWhen(charges: ChargeCalculator, strategy: Strategy, inputs: EngineInputs,
                                     cfg: RunConfig)
    requires Realistic(strategy, inputs)
    ensures var b := Engine.Backtest(charges, strategy, inputs, cfg);
            var bars, queue := inputs.tradeCandles, Guarantees.Queue(strategy, inputs);
            b.Ok? && (EveryTradeWithin(b.value.trades, strategy) <==>
                      (EntersOnLastBar(bars, queue, strategy) ==> LastEntryAllowed(bars, queue, strategy)))
  {
    BacktestHeldIsLevelsHeld(charges, strategy, inputs, cfg);
    QueueIsTradable(strategy, inputs);
    LevelsHoldExactlyWhen(inputs.tradeCandles, Guarantees.Queue(strategy, inputs), strategy);
  }

  /** For MA crossover, Supertrend and momentum with a trade bar at every signal time, the last scheduled signal alone
      decides. */
  lemma AlternatingHoldExactlyWhen(charges: ChargeCalculator, strategy: Strategy, inputs: EngineInputs, cfg: RunConfig)
    requires Realistic(strategy, inputs)
    requires Evaluator.ParseKind(strategy.entryCondition) in {Some(MaCrossover), Some(Supertrend), Some(Momentum)}
    requires var signals := Evaluator.Evaluation(strategy.entryCondition, inputs.signalCandles).value;
             forall i :: 0 <= i < |signals| ==> HasBarAt(inputs.tradeCandles, signals[i].timestamp)
    ensures var b := Engine.Backtest(charges, strategy, inputs, cfg);
            var bars, queue := inputs.tradeCandles, Guarantees.Queue(strategy, inputs);
            b.Ok? && (EveryTradeWithin(b.value.trades, strategy) <==>
                      (EndsOnLastBar(bars, queue) ==> LastEntryAllowed(bars, queue, strategy)))
  {
    QueueIsTradable(strategy, inputs);
    StopAndTargetHoldExactlyWhen(charges, strategy, inputs, cfg);
    QueueAlternates(strategy, inputs);
    AlternatingEnters(inputs.tradeCandles, Guarantees.Queue(strategy, inputs), strategy);
  }
}
