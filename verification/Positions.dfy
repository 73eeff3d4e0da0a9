/** The position state machine at the level of prices: which round trips a run makes, bar by bar. Sizing, capital,
    slippage and charges do not occur here. */
module Positions {
  import opened Types
  import opened Scheduler

  datatype Entry = Entry(timestamp: int, side: Side, price: real, reason: Reason)

  datatype Exit = Exit(reason: ExitReason, price: real)

  datatype RoundTrip = RoundTrip(entry: Entry, exitTimestamp: int, exitPrice: real, exitReason: ExitReason)

  /** At most one open entry, the number of scheduled signals consumed, and the round trips closed so far. */
  datatype Book = Book(open: Option<Entry>, next: nat, closed: seq<RoundTrip>)

  const EMPTY_BOOK := Book(None, 0, [])

  // ---------------------------------------------------------------- exit rules

  function Above(price: real, pct: real): real { price * (1.0 + pct / 100.0) }

  function Below(price: real, pct: real): real { price * (1.0 - pct / 100.0) }

  function TargetExit(e: Entry, c: Candle, targetPct: Option<real>): Option<Exit> {
    if targetPct.None? then None
    else if e.side == Buy then
      if c.high >= Above(e.price, targetPct.value) then Some(Exit(Target, Above(e.price, targetPct.value))) else None
    else
      if c.low <= Below(e.price, targetPct.value) then Some(Exit(Target, Below(e.price, targetPct.value))) else None
  }

  function StopExit(e: Entry, c: Candle, stopLossPct: Option<real>): Option<Exit> {
    if stopLossPct.None? then None
    else if e.side == Buy then
      if c.low <= Below(e.price, stopLossPct.value) then Some(Exit(StopLoss, Below(e.price, stopLossPct.value)))
      else None
    else
      if c.high >= Above(e.price, stopLossPct.value) then Some(Exit(StopLoss, Above(e.price, stopLossPct.value)))
      else None
  }

  function TimedExit(e: Entry, c: Candle, timeExitMinutes: Option<int>): Option<Exit> {
    if timeExitMinutes.Some? && c.timestamp - e.timestamp >= timeExitMinutes.value * MINUTE
    then Some(Exit(TimeExit, c.close)) else None
  }

  /** Target before stop-loss before time exit. */
  function ExitOn(e: Entry, c: Candle, s: Strategy): Option<Exit> {
    var target := TargetExit(e, c, s.targetPct);
    var stop := StopExit(e, c, s.stopLossPct);
    if target.Some? then target else if stop.Some? then stop else TimedExit(e, c, s.timeExitMinutes)
  }

  // ---------------------------------------------------------------- levels and time, without the rules

  /** `pct` percent of a price. */
  function Percent(price: real, pct: real): real {
    price * pct / 100.0
  }

  predicate ReachedTarget(side: Side, price: real, c: Candle, s: Strategy) {
    s.targetPct.Some? &&
    if side == Buy then c.high >= price + Percent(price, s.targetPct.value)
    else c.low <= price - Percent(price, s.targetPct.value)
  }

  predicate ReachedStop(side: Side, price: real, c: Candle, s: Strategy) {
    s.stopLossPct.Some? &&
    if side == Buy then c.low <= price - Percent(price, s.stopLossPct.value)
    else c.high >= price + Percent(price, s.stopLossPct.value)
  }

  /** The configured minutes, of sixty thousand million nanoseconds each, have passed since the entry. */
  predicate TimeUp(entered: int, c: Candle, s: Strategy) {
    s.timeExitMinutes.Some? && c.timestamp - entered >= s.timeExitMinutes.value * 60_000_000_000
  }

  predicate NothingReached(side: Side, price: real, entered: int, c: Candle, s: Strategy) {
    !ReachedTarget(side, price, c, s) && !ReachedStop(side, price, c, s) && !TimeUp(entered, c, s)
  }

  lemma LevelIsPercent(price: real, pct: real)
    ensures Above(price, pct) == price + Percent(price, pct)
    ensures Below(price, pct) == price - Percent(price, pct)
  {
    var q := pct / 100.0;
    assert price * pct / 100.0 == price * q;
  }

  /** Which rule ends a position on a bar, and at what price: the target if it is reached; the stop if it is and the
      target is not; the time exit if the time is up and neither is; nothing if nothing was reached. */
  ghost predicate IsRuledExit(x: Option<Exit>, side: Side, price: real, entered: int, c: Candle, s: Strategy) {
    if ReachedTarget(side, price, c, s) then
      var move := Percent(price, s.targetPct.value);
      x == Some(Exit(Target, if side == Buy then price + move else price - move))
    else if ReachedStop(side, price, c, s) then
      var move := Percent(price, s.stopLossPct.value);
      x == Some(Exit(StopLoss, if side == Buy then price - move else price + move))
    else if TimeUp(entered, c, s) then x == Some(Exit(TimeExit, c.close))
    else x == None
  }

  lemma RuleFiresExactlyWhen(e: Entry, c: Candle, s: Strategy)
    ensures IsRuledExit(ExitOn(e, c, s), e.side, e.price, e.timestamp, c, s)
  {
    if s.targetPct.Some? { LevelIsPercent(e.price, s.targetPct.value); }
    if s.stopLossPct.Some? { LevelIsPercent(e.price, s.stopLossPct.value); }
  }

  // ---------------------------------------------------------------- one bar

  function CloseOnBar(book: Book, c: Candle, s: Strategy): Book {
    match book.open
    case None => book
    case Some(e) =>
      match ExitOn(e, c, s)
      case None => book
      case Some(x) => Book(None, book.next, book.closed + [RoundTrip(e, c.timestamp, x.price, x.reason)])
  }

  function EntryAt(sig: Signal, c: Candle): Entry {
    Entry(c.timestamp, sig.side, c.open, sig.reason)
  }

  function TakeSignal(book: Book, sig: Signal, c: Candle): Book {
    match book.open
    case None => Book(Some(EntryAt(sig, c)), book.next + 1, book.closed)
    case Some(e) =>
      if e.side == sig.side then Book(book.open, book.next + 1, book.closed)
      else Book(Some(EntryAt(sig, c)), book.next + 1, book.closed + [RoundTrip(e, c.timestamp, c.open, SignalReversal)])
  }

  /** All signals at the head of the queue that execute on this bar. */
  function TakeSignals(book: Book, scheduled: seq<Scheduled>, c: Candle): Book
    decreases |scheduled| - book.next
  {
    if book.next < |scheduled| && scheduled[book.next].executionTimestamp == c.timestamp
    then TakeSignals(TakeSignal(book, scheduled[book.next].signal, c), scheduled, c)
    else book
  }

  function Bar(book: Book, c: Candle, scheduled: seq<Scheduled>, s: Strategy): Book {
    TakeSignals(CloseOnBar(book, c, s), scheduled, c)
  }

  /** The book after the first `n` bars. */
  function Run(bars: seq<Candle>, scheduled: seq<Scheduled>, s: Strategy, n: nat): Book
    requires n <= |bars|
  {
    if n == 0 then EMPTY_BOOK else Bar(Run(bars, scheduled, s, n - 1), bars[n - 1], scheduled, s)
  }

  /** A position still open after the last bar is closed at its close. */
  function Finish(book: Book, last: Candle): seq<RoundTrip> {
    book.closed + if book.open.None? then [] else [RoundTrip(book.open.value, last.timestamp, last.close, EndOfData)]
  }

  function RoundTrips(bars: seq<Candle>, scheduled: seq<Scheduled>, s: Strategy): seq<RoundTrip> {
    if |bars| == 0 then [] else Finish(Run(bars, scheduled, s, |bars|), bars[|bars| - 1])
  }
}
