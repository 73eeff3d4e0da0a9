/** Order of the round trips of a run, and the fate of its signals. */
module Runs {
  import opened Types
  import opened Scheduler
  import opened Positions

  // ---------------------------------------------------------------- round trips never overlap

  ghost predicate Sequential(rts: seq<RoundTrip>) {
    && (forall i :: 0 <= i < |rts| ==> rts[i].entry.timestamp <= rts[i].exitTimestamp)
    && (forall i, j :: 0 <= i < j < |rts| ==> rts[i].exitTimestamp <= rts[j].entry.timestamp)
  }

  ghost predicate NoneForced(rts: seq<RoundTrip>) {
    forall i :: 0 <= i < |rts| ==> rts[i].exitReason != EndOfData
  }

  /** Everything recorded lies in order, at or before time `t`. */
  ghost predicate InOrder(book: Book, t: int) {
    && Sequential(book.closed) && NoneForced(book.closed)
    && (forall i :: 0 <= i < |book.closed| ==> book.closed[i].exitTimestamp <= t)
    && (book.open.Some? ==>
          && book.open.value.timestamp <= t
          && forall i :: 0 <= i < |book.closed| ==> book.closed[i].exitTimestamp <= book.open.value.timestamp)
  }

  lemma ExitIsRuled(e: Entry, c: Candle, s: Strategy)
    ensures ExitOn(e, c, s).Some? ==> ExitOn(e, c, s).value.reason !in {SignalReversal, EndOfData}
  {
  }

  lemma CloseInOrder(book: Book, c: Candle, s: Strategy, t: int)
    requires InOrder(book, t) && t <= c.timestamp
    ensures InOrder(CloseOnBar(book, c, s), c.timestamp)
  {
    if book.open.Some? { ExitIsRuled(book.open.value, c, s); }
  }

  lemma {:induction false} SignalsInOrder(book: Book, scheduled: seq<Scheduled>, c: Candle)
    requires InOrder(book, c.timestamp)
    ensures InOrder(TakeSignals(book, scheduled, c), c.timestamp)
    decreases |scheduled| - book.next
  {
    if book.next < |scheduled| && scheduled[book.next].executionTimestamp == c.timestamp {
      SignalsInOrder(TakeSignal(book, scheduled[book.next].signal, c), scheduled, c);
    }
  }

  lemma {:induction false} RunInOrder(bars: seq<Candle>, scheduled: seq<Scheduled>, s: Strategy, n: nat)
    requires n <= |bars| && Chronological(bars)
    ensures n == 0 ==> Run(bars, scheduled, s, n) == EMPTY_BOOK
    ensures n > 0 ==> InOrder(Run(bars, scheduled, s, n), bars[n - 1].timestamp)
  {
    if n > 0 {
      RunInOrder(bars, scheduled, s, n - 1);
      var book, c := Run(bars, scheduled, s, n - 1), bars[n - 1];
      CloseInOrder(book, c, s, if n == 1 then c.timestamp else bars[n - 2].timestamp);
      SignalsInOrder(CloseOnBar(book, c, s), scheduled, c);
    }
  }

  ghost predicate EnteredFrom(book: Book, t: int) {
    && (book.open.Some? ==> t <= book.open.value.timestamp)
    && forall i :: 0 <= i < |book.closed| ==> t <= book.closed[i].entry.timestamp
  }

  lemma {:induction false} SignalsEnterFrom(book: Book, scheduled: seq<Scheduled>, c: Candle, t: int)
    requires EnteredFrom(book, t) && t <= c.timestamp
    ensures EnteredFrom(TakeSignals(book, scheduled, c), t)
    decreases |scheduled| - book.next
  {
    if book.next < |scheduled| && scheduled[book.next].executionTimestamp == c.timestamp {
      SignalsEnterFrom(TakeSignal(book, scheduled[book.next].signal, c), scheduled, c, t);
    }
  }

  lemma {:induction false} RunStartsWithBars(bars: seq<Candle>, scheduled: seq<Scheduled>, s: Strategy, n: nat)
    requires n <= |bars| && Chronological(bars) && |bars| > 0
    ensures EnteredFrom(Run(bars, scheduled, s, n), bars[0].timestamp)
  {
    if n > 0 {
      RunStartsWithBars(bars, scheduled, s, n - 1);
      assert n == 1 || bars[0].timestamp <= bars[n - 1].timestamp;
      SignalsEnterFrom(CloseOnBar(Run(bars, scheduled, s, n - 1), bars[n - 1], s), scheduled, bars[n - 1],
                       bars[0].timestamp);
    }
  }

  /** Round trips never overlap, lie within the bars, and only the last can be a forced close. */
  lemma RoundTripsAreSequential(bars: seq<Candle>, scheduled: seq<Scheduled>, s: Strategy)
    requires |bars| > 0 && Chronological(bars)
    ensures var rts := RoundTrips(bars, scheduled, s);
            && Sequential(rts)
            && (forall i :: 0 <= i < |rts| ==> rts[i].exitTimestamp <= bars[|bars| - 1].timestamp)
            && (forall i :: 0 <= i < |rts| && rts[i].exitReason == EndOfData ==> i == |rts| - 1)
  {
    RunInOrder(bars, scheduled, s, |bars|);
  }

  // ---------------------------------------------------------------- no signal blocks the queue

  /** After a bar at time `t`, exactly the signals that execute up to `t` have been consumed. */
  ghost predicate CaughtUp(book: Book, scheduled: seq<Scheduled>, t: int) {
    && book.next <= |scheduled|
    && (forall k :: 0 <= k < book.next ==> scheduled[k].executionTimestamp <= t)
    && (forall k :: book.next <= k < |scheduled| ==> scheduled[k].executionTimestamp > t)
  }

  lemma {:induction false} SignalsCatchUp(book: Book, scheduled: seq<Scheduled>, c: Candle)
    requires Ordered(scheduled) && book.next <= |scheduled|
    requires forall k :: 0 <= k < book.next ==> scheduled[k].executionTimestamp <= c.timestamp
    requires forall k :: book.next <= k < |scheduled| ==> scheduled[k].executionTimestamp >= c.timestamp
    ensures CaughtUp(TakeSignals(book, scheduled, c), scheduled, c.timestamp)
    decreases |scheduled| - book.next
  {
    if book.next < |scheduled| {
      if scheduled[book.next].executionTimestamp == c.timestamp {
        SignalsCatchUp(TakeSignal(book, scheduled[book.next].signal, c), scheduled, c);
      } else {
        forall k | book.next <= k < |scheduled| ensures scheduled[k].executionTimestamp > c.timestamp {
          assert k == book.next || scheduled[book.next].executionTimestamp <= scheduled[k].executionTimestamp;
        }
      }
    }
  }

  /** A bar later than the first `n` is no earlier than bar `n`. */
  lemma LaterBar(bars: seq<Candle>, t: int, n: nat)
    requires Chronological(bars) && n < |bars| && HasBarAt(bars, t) && (n > 0 ==> t > bars[n - 1].timestamp)
    ensures t >= bars[n].timestamp
  {
    forall i | 0 <= i < n ensures bars[i].timestamp < t {
      assert i == n - 1 || bars[i].timestamp <= bars[n - 1].timestamp;
    }
    var j :| 0 <= j < |bars| && bars[j].timestamp == t;
    assert j == n || bars[n].timestamp <= bars[j].timestamp;
  }

  lemma LastBar(bars: seq<Candle>, t: int)
    requires Chronological(bars) && HasBarAt(bars, t)
    ensures t <= bars[|bars| - 1].timestamp
  {
    var j :| 0 <= j < |bars| && bars[j].timestamp == t;
    assert j == |bars| - 1 || bars[j].timestamp <= bars[|bars| - 1].timestamp;
  }

  lemma {:induction false} RunCatchesUp(bars: seq<Candle>, scheduled: seq<Scheduled>, s: Strategy, n: nat)
    requires 0 < n <= |bars| && Chronological(bars) && Ordered(scheduled) && OnBars(scheduled, bars)
    ensures CaughtUp(Run(bars, scheduled, s, n), scheduled, bars[n - 1].timestamp)
  {
    var c := bars[n - 1];
    if n > 1 { RunCatchesUp(bars, scheduled, s, n - 1); } else { assert Run(bars, scheduled, s, 0) == EMPTY_BOOK; }
    var book := Run(bars, scheduled, s, n - 1);
    forall k | book.next <= k < |scheduled| ensures scheduled[k].executionTimestamp >= c.timestamp {
      LaterBar(bars, scheduled[k].executionTimestamp, n - 1);
    }
    SignalsCatchUp(CloseOnBar(book, c, s), scheduled, c);
  }

  /** The loop consumes every scheduled signal: none is left at the head of the queue. */
  lemma QueueDrains(bars: seq<Candle>, scheduled: seq<Scheduled>, s: Strategy)
    requires |bars| > 0 && Chronological(bars) && Ordered(scheduled) && OnBars(scheduled, bars)
    ensures Run(bars, scheduled, s, |bars|).next == |scheduled|
  {
    var next := Run(bars, scheduled, s, |bars|).next;
    assert next < |scheduled| ==> scheduled[next].executionTimestamp <= bars[|bars| - 1].timestamp by {
      forall k | 0 <= k < |scheduled| ensures scheduled[k].executionTimestamp <= bars[|bars| - 1].timestamp {
        LastBar(bars, scheduled[k].executionTimestamp);
      }
    }
    RunCatchesUp(bars, scheduled, s, |bars|);
  }

  // ---------------------------------------------------------------- holding time

  ghost predicate HeldOvertime(rts: seq<RoundTrip>) {
    forall i :: 0 <= i < |rts| ==> rts[i].entry.timestamp < rts[i].exitTimestamp
  }

  ghost predicate Lasting(book: Book, t: int) {
    HeldOvertime(book.closed) && (book.open.Some? ==> book.open.value.timestamp <= t)
  }

  lemma OneSignalPerBar(book: Book, scheduled: seq<Scheduled>, c: Candle, t: int)
    requires Apart(scheduled, 1) && Lasting(book, t) && t < c.timestamp
    ensures Lasting(TakeSignals(book, scheduled, c), c.timestamp)
  {
    if book.next < |scheduled| && scheduled[book.next].executionTimestamp == c.timestamp {
      var b := TakeSignal(book, scheduled[book.next].signal, c);
      assert TakeSignals(b, scheduled, c) == b;
    }
  }

  lemma {:induction false} RunLasting(bars: seq<Candle>, scheduled: seq<Scheduled>, s: Strategy, n: nat)
    requires n <= |bars| && StrictlyChronological(bars) && Apart(scheduled, 1)
    ensures Lasting(Run(bars, scheduled, s, n), if n == 0 then 0 else bars[n - 1].timestamp)
  {
    if n > 0 {
      RunLasting(bars, scheduled, s, n - 1);
      var book, c := Run(bars, scheduled, s, n - 1), bars[n - 1];
      var t := if n == 1 then c.timestamp - 1 else bars[n - 2].timestamp;
      assert n == 1 ==> book == EMPTY_BOOK;
      assert Lasting(CloseOnBar(book, c, s), t);
      OneSignalPerBar(CloseOnBar(book, c, s), scheduled, c, t);
    }
  }

  /** When signals are at least one interval apart, every round trip not closed by the end of data is held for
      a positive time. */
  lemma SpacedSignalsHold(signals: seq<Signal>, bars: seq<Candle>, interval: int, s: Strategy)
    requires |bars| > 0 && StrictlyChronological(bars) && interval > 0 && SignalsApart(signals, interval)
    ensures var rts := RoundTrips(bars, Schedule(signals, bars, interval), s);
            forall i :: 0 <= i < |rts| && rts[i].exitReason != EndOfData ==>
              rts[i].entry.timestamp < rts[i].exitTimestamp
  {
    assert Chronological(bars);
    SpacedSignalsExecuteApart(signals, bars, interval);
    RunLasting(bars, Schedule(signals, bars, interval), s, |bars|);
  }

  // ---------------------------------------------------------------- every entry has its signal

  function EntriesOf(rts: seq<RoundTrip>): (r: seq<Entry>)
    ensures |r| == |rts|
  {
    seq(|rts|, i requires 0 <= i < |rts| => rts[i].entry)
  }

  /** The entries made so far, the open one last. */
  function EntriesMade(book: Book): seq<Entry> {
    EntriesOf(book.closed) + if book.open.None? then [] else [book.open.value]
  }

  ghost predicate OpensOn(e: Entry, bars: seq<Candle>) {
    exists j :: 0 <= j < |bars| && bars[j].timestamp == e.timestamp && bars[j].open == e.price
  }

  ghost predicate StrictlyIncreasing(at: seq<nat>) {
    forall i, j :: 0 <= i < j < |at| ==> at[i] < at[j]
  }

  /** Entry k was made on the queue's element at[k], one of the first `next`, at the open of its bar. */
  ghost predicate Sourced(entries: seq<Entry>, scheduled: seq<Scheduled>, bars: seq<Candle>, at: seq<nat>, next: nat) {
    && |at| == |entries| && StrictlyIncreasing(at) && next <= |scheduled|
    && (forall k :: 0 <= k < |at| ==> at[k] < next && EntersOn(entries[k], scheduled[at[k]]))
    && (forall k :: 0 <= k < |entries| ==> OpensOn(entries[k], bars))
  }

  lemma TakeMakes(book: Book, sig: Signal, c: Candle)
    ensures EntriesMade(TakeSignal(book, sig, c)) ==
            EntriesMade(book) + if book.open.Some? && book.open.value.side == sig.side then [] else [EntryAt(sig, c)]
  {
    var b := TakeSignal(book, sig, c);
    if |b.closed| > |book.closed| { assert EntriesOf(b.closed) == EntriesOf(book.closed) + [book.open.value]; }
  }

  lemma CloseMakes(book: Book, c: Candle, s: Strategy)
    ensures EntriesMade(CloseOnBar(book, c, s)) == EntriesMade(book) && CloseOnBar(book, c, s).next == book.next
  {
    var b := CloseOnBar(book, c, s);
    if |b.closed| > |book.closed| { assert EntriesOf(b.closed) == EntriesOf(book.closed) + [book.open.value]; }
  }

  lemma SourceOneMore(entries: seq<Entry>, e: Entry, scheduled: seq<Scheduled>, bars: seq<Candle>, at: seq<nat>,
                      next: nat)
    requires Sourced(entries, scheduled, bars, at, next) && next < |scheduled|
    requires EntersOn(e, scheduled[next]) && OpensOn(e, bars)
    ensures Sourced(entries + [e], scheduled, bars, at + [next], next + 1)
  {
  }

  /** The trip was still open when a signal at time t was taken: rules close before signals, reversals and the end of
      data after. */
  ghost predicate ClosedAfter(rt: RoundTrip, t: int) {
    t < rt.exitTimestamp || (t == rt.exitTimestamp && rt.exitReason in {SignalReversal, EndOfData})
  }

  /** Entry m of the book was open when a signal at time t was taken. */
  ghost predicate OpenThen(book: Book, m: nat, t: int) {
    m < |EntriesMade(book)| && (m < |book.closed| ==> ClosedAfter(book.closed[m], t))
  }

  /** Element k was ignored in favour of the open entry m, made on an earlier element of the same side. */
  ghost predicate IgnoredFor(book: Book, scheduled: seq<Scheduled>, at: seq<nat>, k: nat, m: nat) {
    && k < |scheduled| && m < |at| && at[m] < k && OpenThen(book, m, scheduled[k].executionTimestamp)
    && EntriesMade(book)[m].side == scheduled[k].signal.side
  }

  ghost predicate IgnoredForGood(book: Book, scheduled: seq<Scheduled>, at: seq<nat>) {
    forall k: nat :: k < book.next && k !in at ==> exists m: nat :: IgnoredFor(book, scheduled, at, k, m)
  }

  ghost predicate ConsumedBy(scheduled: seq<Scheduled>, next: nat, t: int) {
    next <= |scheduled| && forall k :: 0 <= k < next ==> scheduled[k].executionTimestamp <= t
  }

  lemma CloseIgnores(book: Book, c: Candle, s: Strategy, scheduled: seq<Scheduled>, at: seq<nat>, t: int)
    requires IgnoredForGood(book, scheduled, at) && ConsumedBy(scheduled, book.next, t) && t < c.timestamp
    ensures IgnoredForGood(CloseOnBar(book, c, s), scheduled, at)
  {
    var b := CloseOnBar(book, c, s);
    CloseMakes(book, c, s);
    forall k: nat | k < b.next && k !in at ensures exists m: nat :: IgnoredFor(b, scheduled, at, k, m) {
      var m: nat :| IgnoredFor(book, scheduled, at, k, m);
      assert IgnoredFor(b, scheduled, at, k, m);
    }
  }

  predicate Ignored(book: Book, sig: Signal) {
    book.open.Some? && book.open.value.side == sig.side
  }

  lemma TakeIgnores(book: Book, c: Candle, scheduled: seq<Scheduled>, bars: seq<Candle>, at: seq<nat>, at': seq<nat>)
    requires book.next < |scheduled| && scheduled[book.next].executionTimestamp == c.timestamp
    requires Sourced(EntriesMade(book), scheduled, bars, at, book.next) && IgnoredForGood(book, scheduled, at)
    requires ConsumedBy(scheduled, book.next, c.timestamp)
    requires at' == if Ignored(book, scheduled[book.next].signal) then at else at + [book.next]
    ensures IgnoredForGood(TakeSignal(book, scheduled[book.next].signal, c), scheduled, at')
  {
    var sig := scheduled[book.next].signal;
    var b := TakeSignal(book, sig, c);
    TakeMakes(book, sig, c);
    forall k: nat | k < b.next && k !in at' ensures exists m: nat :: IgnoredFor(b, scheduled, at', k, m) {
      if k == book.next {
        assert (at + [k])[|at|] == k;
        assert IgnoredFor(b, scheduled, at', k, |book.closed|);
      } else {
        assert k !in at;
        var m: nat :| IgnoredFor(book, scheduled, at, k, m);
        assert IgnoredFor(b, scheduled, at', k, m);
      }
    }
  }

  lemma {:induction false} SignalsSourced(book: Book, scheduled: seq<Scheduled>, c: Candle, bars: seq<Candle>,
                                          at: seq<nat>, strict: bool)
    returns (at': seq<nat>)
    requires Sourced(EntriesMade(book), scheduled, bars, at, book.next) && c in bars
    requires strict ==> IgnoredForGood(book, scheduled, at) && ConsumedBy(scheduled, book.next, c.timestamp)
    ensures var b := TakeSignals(book, scheduled, c);
            && Sourced(EntriesMade(b), scheduled, bars, at', b.next)
            && (strict ==> IgnoredForGood(b, scheduled, at') && ConsumedBy(scheduled, b.next, c.timestamp))
    decreases |scheduled| - book.next
  {
    at' := at;
    if book.next < |scheduled| && scheduled[book.next].executionTimestamp == c.timestamp {
      var sig := scheduled[book.next].signal;
      TakeMakes(book, sig, c);
      if !Ignored(book, sig) {
        SourceOneMore(EntriesMade(book), EntryAt(sig, c), scheduled, bars, at, book.next);
        at' := at + [book.next];
      }
      if strict { TakeIgnores(book, c, scheduled, bars, at, at'); }
      at' := SignalsSourced(TakeSignal(book, sig, c), scheduled, c, bars, at', strict);
    }
  }

  lemma {:induction false} RunSourced(bars: seq<Candle>, scheduled: seq<Scheduled>, s: Strategy, n: nat)
    returns (at: seq<nat>)
    requires n <= |bars|
    ensures var b := Run(bars, scheduled, s, n);
            && Sourced(EntriesMade(b), scheduled, bars, at, b.next) && (n == 0 ==> b == EMPTY_BOOK)
            && (StrictlyChronological(bars) ==>
                  && IgnoredForGood(b, scheduled, at)
                  && (n > 0 ==> ConsumedBy(scheduled, b.next, bars[n - 1].timestamp)))
  {
    if n == 0 { return []; }
    at := RunSourced(bars, scheduled, s, n - 1);
    CloseMakes(Run(bars, scheduled, s, n - 1), bars[n - 1], s);
    if StrictlyChronological(bars) {
      CloseIgnores(Run(bars, scheduled, s, n - 1), bars[n - 1], s, scheduled, at,
                   if n == 1 then bars[0].timestamp - 1 else bars[n - 2].timestamp);
    }
    at := SignalsSourced(CloseOnBar(Run(bars, scheduled, s, n - 1), bars[n - 1], s), scheduled, bars[n - 1], bars, at,
                         StrictlyChronological(bars));
  }

  lemma {:induction false} IncreasingFits(at: seq<nat>, n: nat, bound: nat)
    requires n <= |at| && StrictlyIncreasing(at) && forall k :: 0 <= k < |at| ==> at[k] < bound
    ensures n <= bound && (n > 0 ==> at[n - 1] >= n - 1)
  {
    if n > 0 {
      IncreasingFits(at, n - 1, bound);
      assert at[n - 1] < bound && (n > 1 ==> at[n - 2] < at[n - 1]);
    }
  }

  /** Element k was ignored in favour of round trip m, entered earlier on the same side and open at the time. */
  ghost predicate IgnoredForTrip(rts: seq<RoundTrip>, scheduled: seq<Scheduled>, at: seq<nat>, k: nat, m: nat) {
    && k < |scheduled| && m < |rts| && m < |at| && at[m] < k
    && rts[m].entry.side == scheduled[k].signal.side && ClosedAfter(rts[m], scheduled[k].executionTimestamp)
  }

  ghost predicate OthersIgnored(rts: seq<RoundTrip>, scheduled: seq<Scheduled>, at: seq<nat>) {
    forall k: nat :: k < |scheduled| && k !in at ==> exists m: nat :: IgnoredForTrip(rts, scheduled, at, k, m)
  }

  lemma FinishIgnores(book: Book, last: Candle, scheduled: seq<Scheduled>, at: seq<nat>)
    requires IgnoredForGood(book, scheduled, at) && book.next == |scheduled|
    requires ConsumedBy(scheduled, book.next, last.timestamp)
    ensures OthersIgnored(Finish(book, last), scheduled, at)
  {
    var rts := Finish(book, last);
    assert EntriesOf(rts) == EntriesMade(book);
    forall k: nat | k < |scheduled| && k !in at ensures exists m: nat :: IgnoredForTrip(rts, scheduled, at, k, m) {
      var m: nat :| IgnoredFor(book, scheduled, at, k, m);
      assert EntriesOf(rts)[m] == EntriesMade(book)[m];
      assert IgnoredForTrip(rts, scheduled, at, k, m);
    }
  }

  /** Whatever the exit rules, the round trips were entered on distinct scheduled signals, in queue order: on the
      signal's side, at its execution time, at the open of that bar. On strictly increasing bars every other scheduled
      signal was ignored because a position of its side was open. */
  lemma EntriesHaveSignals(bars: seq<Candle>, scheduled: seq<Scheduled>, s: Strategy) returns (at: seq<nat>)
    ensures var rts := RoundTrips(bars, scheduled, s);
            && Sourced(EntriesOf(rts), scheduled, bars, at, |scheduled|) && |rts| <= |scheduled|
            && (|bars| > 0 && StrictlyChronological(bars) && Ordered(scheduled) && OnBars(scheduled, bars) ==>
                  OthersIgnored(rts, scheduled, at))
  {
    if |bars| == 0 { return []; }
    at := RunSourced(bars, scheduled, s, |bars|);
    var book, rts := Run(bars, scheduled, s, |bars|), RoundTrips(bars, scheduled, s);
    assert EntriesOf(rts) == EntriesMade(book);
    IncreasingFits(at, |at|, |scheduled|);
    if StrictlyChronological(bars) && Ordered(scheduled) && OnBars(scheduled, bars) {
      assert Chronological(bars);
      QueueDrains(bars, scheduled, s);
      FinishIgnores(book, bars[|bars| - 1], scheduled, at);
    }
  }

  // ---------------------------------------------------------------- stop and reverse

  /** The signals that start a maximal run of same-side signals. */
  function RunHeads(scheduled: seq<Scheduled>, n: nat): seq<Scheduled>
    requires n <= |scheduled|
  {
    if n == 0 then []
    else if n > 1 && scheduled[n - 1].signal.side == scheduled[n - 2].signal.side then RunHeads(scheduled, n - 1)
    else RunHeads(scheduled, n - 1) + [scheduled[n - 1]]
  }

  /** The entry made on a run head: its side, at its execution time. */
  ghost predicate EntersOn(e: Entry, head: Scheduled) {
    e.side == head.signal.side && e.timestamp == head.executionTimestamp && e.reason == head.signal.reason
  }

  ghost predicate ReversesInto(rt: RoundTrip, next: Entry) {
    && rt.exitReason == SignalReversal && rt.entry.side != next.side
    && rt.exitTimestamp == next.timestamp && rt.exitPrice == next.price
  }

  ghost predicate Relayed(rts: seq<RoundTrip>) {
    forall j, k :: 0 <= j < k < |rts| && k <= j + 1 ==> ReversesInto(rts[j], rts[k].entry)
  }

  /** Closed trips and the open entry sit on the run heads one for one, each reversing into the next. */
  ghost predicate Reversing(book: Book, scheduled: seq<Scheduled>) {
    && book.next <= |scheduled|
    && var heads := RunHeads(scheduled, book.next);
       if book.next == 0 then book.open.None? && book.closed == []
       else
         && book.open.Some? && |heads| == |book.closed| + 1
         && EntersOn(book.open.value, heads[|book.closed|])
         && book.open.value.side == scheduled[book.next - 1].signal.side
         && (forall k :: 0 <= k < |book.closed| ==> EntersOn(book.closed[k].entry, heads[k]))
         && Relayed(book.closed)
         && (|book.closed| > 0 ==> ReversesInto(book.closed[|book.closed| - 1], book.open.value))
  }

  ghost predicate NoExitRules(s: Strategy) {
    s.targetPct.None? && s.stopLossPct.None? && s.timeExitMinutes.None?
  }

  lemma TakeReversing(book: Book, scheduled: seq<Scheduled>, c: Candle)
    requires Reversing(book, scheduled) && book.next < |scheduled|
    requires scheduled[book.next].executionTimestamp == c.timestamp
    ensures Reversing(TakeSignal(book, scheduled[book.next].signal, c), scheduled)
  {
  }

  lemma {:induction false} SignalsReversing(book: Book, scheduled: seq<Scheduled>, c: Candle)
    requires Reversing(book, scheduled)
    ensures Reversing(TakeSignals(book, scheduled, c), scheduled)
    decreases |scheduled| - book.next
  {
    if book.next < |scheduled| && scheduled[book.next].executionTimestamp == c.timestamp {
      TakeReversing(book, scheduled, c);
      SignalsReversing(TakeSignal(book, scheduled[book.next].signal, c), scheduled, c);
    }
  }

  lemma {:induction false} RunReversing(bars: seq<Candle>, scheduled: seq<Scheduled>, s: Strategy, n: nat)
    requires n <= |bars| && NoExitRules(s)
    ensures Reversing(Run(bars, scheduled, s, n), scheduled)
  {
    if n > 0 {
      RunReversing(bars, scheduled, s, n - 1);
      SignalsReversing(Run(bars, scheduled, s, n - 1), scheduled, bars[n - 1]);
    }
  }

  /** The trips of a finished run sit on the run heads, and only the last was closed by the end of data. */
  ghost predicate StopsAndReverses(rts: seq<RoundTrip>, heads: seq<Scheduled>, last: Candle) {
    && |rts| == |heads| && Relayed(rts)
    && (forall k :: 0 <= k < |rts| ==> EntersOn(rts[k].entry, heads[k]))
    && (|rts| > 0 ==> var final := rts[|rts| - 1];
                      final.exitReason == EndOfData && final.exitPrice == last.close
                      && final.exitTimestamp == last.timestamp)
  }

  lemma FinishReverses(book: Book, scheduled: seq<Scheduled>, last: Candle)
    requires Reversing(book, scheduled)
    ensures StopsAndReverses(Finish(book, last), RunHeads(scheduled, book.next), last)
  {
  }

  /** Without exit rules a run stops and reverses: one round trip per maximal run of same-side scheduled signals,
      each handing over to the next at the same time and price, the last closed by the end of data. */
  lemma StopAndReverse(bars: seq<Candle>, scheduled: seq<Scheduled>, s: Strategy)
    requires |bars| > 0 && Chronological(bars) && Ordered(scheduled) && OnBars(scheduled, bars) && NoExitRules(s)
    ensures StopsAndReverses(RoundTrips(bars, scheduled, s), RunHeads(scheduled, |scheduled|), bars[|bars| - 1])
  {
    QueueDrains(bars, scheduled, s);
    RunReversing(bars, scheduled, s, |bars|);
    FinishReverses(Run(bars, scheduled, s, |bars|), scheduled, bars[|bars| - 1]);
  }
}
