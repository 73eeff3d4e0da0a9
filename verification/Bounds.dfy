/** Stop-loss and target bound what a round trip can lose or gain. */
module Bounds {
  import opened Types
  import opened Scheduler
  import opened Positions

  // ---------------------------------------------------------------- levels

  ghost predicate ValidPercentages(s: Strategy) {
    (s.stopLossPct.Some? ==> s.stopLossPct.value >= 0.0) && (s.targetPct.Some? ==> s.targetPct.value >= 0.0)
  }

  ghost predicate NotBeyondStop(e: Entry, price: real, s: Strategy) {
    s.stopLossPct.Some? ==>
      if e.side == Buy then price >= Below(e.price, s.stopLossPct.value)
      else price <= Above(e.price, s.stopLossPct.value)
  }

  ghost predicate NotBeyondTarget(e: Entry, price: real, s: Strategy) {
    s.targetPct.Some? ==>
      if e.side == Buy then price <= Above(e.price, s.targetPct.value) else price >= Below(e.price, s.targetPct.value)
  }

  /** A price the strategy's levels allow an entry to be closed at. */
  ghost predicate Allowed(e: Entry, price: real, s: Strategy) {
    NotBeyondStop(e, price, s) && NotBeyondTarget(e, price, s)
  }

  lemma LevelsAroundPrice(price: real, pct: real)
    requires price >= 0.0 && pct >= 0.0
    ensures Below(price, pct) <= price <= Above(price, pct)
  {
    assert price * (pct / 100.0) >= 0.0;
  }

  function Level(price: real, pct: real, above: bool): real {
    if above then Above(price, pct) else Below(price, pct)
  }

  lemma LevelsAllowed(e: Entry, s: Strategy)
    requires e.price >= 0.0 && ValidPercentages(s)
    ensures Allowed(e, e.price, s)
    ensures s.targetPct.Some? ==> Allowed(e, Level(e.price, s.targetPct.value, e.side == Buy), s)
    ensures s.stopLossPct.Some? ==> Allowed(e, Level(e.price, s.stopLossPct.value, e.side == Sell), s)
  {
    if s.targetPct.Some? { LevelsAroundPrice(e.price, s.targetPct.value); }
    if s.stopLossPct.Some? { LevelsAroundPrice(e.price, s.stopLossPct.value); }
  }

  // ---------------------------------------------------------------- one bar

  /** Every price of the bar is allowed. */
  ghost predicate Quiet(e: Entry, c: Candle, s: Strategy) {
    forall price :: c.low <= price <= c.high ==> Allowed(e, price, s)
  }

  lemma ExitAllowed(e: Entry, c: Candle, s: Strategy)
    requires e.price >= 0.0 && ValidPercentages(s) && c.WellFormed()
    ensures ExitOn(e, c, s).None? ==> Quiet(e, c, s)
    ensures ExitOn(e, c, s).Some? ==> Allowed(e, ExitOn(e, c, s).value.price, s)
  {
    LevelsAllowed(e, s);
  }

  ghost predicate EnteredOn(e: Entry, c: Candle) {
    e.timestamp == c.timestamp && e.price == c.open
  }

  ghost predicate AllAllowed(rts: seq<RoundTrip>, s: Strategy) {
    forall i :: 0 <= i < |rts| ==> Allowed(rts[i].entry, rts[i].exitPrice, s)
  }

  /** What every bar keeps: closed trips are within the levels, and an open one was either entered on this bar or
      has survived its exit check on this bar. */
  ghost predicate Guarded(book: Book, c: Candle, s: Strategy) {
    && AllAllowed(book.closed, s)
    && (book.open.Some? ==>
        book.open.value.price >= 0.0 && (Quiet(book.open.value, c, s) || EnteredOn(book.open.value, c)))
  }

  lemma {:induction false} SignalsGuarded(book: Book, scheduled: seq<Scheduled>, c: Candle, s: Strategy)
    requires Guarded(book, c, s) && c.WellFormed() && ValidPercentages(s)
    ensures Guarded(TakeSignals(book, scheduled, c), c, s)
    decreases |scheduled| - book.next
  {
    if book.next < |scheduled| && scheduled[book.next].executionTimestamp == c.timestamp {
      var sig := scheduled[book.next].signal;
      if book.open.Some? { LevelsAllowed(book.open.value, s); }
      SignalsGuarded(TakeSignal(book, sig, c), scheduled, c, s);
    }
  }

  lemma CloseGuarded(book: Book, c: Candle, s: Strategy)
    requires AllAllowed(book.closed, s) && (book.open.Some? ==> book.open.value.price >= 0.0)
    requires c.WellFormed() && ValidPercentages(s)
    ensures Guarded(CloseOnBar(book, c, s), c, s)
  {
    if book.open.Some? { ExitAllowed(book.open.value, c, s); }
  }

  lemma {:induction false} RunGuarded(bars: seq<Candle>, scheduled: seq<Scheduled>, s: Strategy, n: nat)
    requires n <= |bars| && ValidPercentages(s) && forall i :: 0 <= i < |bars| ==> bars[i].WellFormed()
    ensures n == 0 ==> Run(bars, scheduled, s, n) == EMPTY_BOOK
    ensures n > 0 ==> Guarded(Run(bars, scheduled, s, n), bars[n - 1], s)
  {
    if n > 0 {
      RunGuarded(bars, scheduled, s, n - 1);
      var book := Run(bars, scheduled, s, n - 1);
      CloseGuarded(book, bars[n - 1], s);
      SignalsGuarded(CloseOnBar(book, bars[n - 1], s), scheduled, bars[n - 1], s);
    }
  }

  // ---------------------------------------------------------------- whole runs

  /** The one position the levels never protect: opened on the last bar, whose own exit rules are never checked. */
  ghost predicate Unprotected(book: Book, last: Candle) {
    book.open.Some? && EnteredOn(book.open.value, last)
  }

  /** Every round trip of every run is closed at a price its levels allow, whatever its exit reason, except a
      position entered on the last bar. That one is allowed exactly when the last close is. */
  lemma RunStaysWithinLevels(bars: seq<Candle>, scheduled: seq<Scheduled>, s: Strategy)
    requires |bars| > 0 && ValidPercentages(s) && forall i :: 0 <= i < |bars| ==> bars[i].WellFormed()
    ensures var book, last, rts := Run(bars, scheduled, s, |bars|), bars[|bars| - 1], RoundTrips(bars, scheduled, s);
            && (AllAllowed(rts, s) <==> (Unprotected(book, last) ==> Allowed(book.open.value, last.close, s)))
            && forall i :: 0 <= i < |rts| && !Allowed(rts[i].entry, rts[i].exitPrice, s) ==>
                 i == |rts| - 1 && rts[i].exitReason == EndOfData && EnteredOn(rts[i].entry, last)
  {
    RunGuarded(bars, scheduled, s, |bars|);
    var book, last, rts := Run(bars, scheduled, s, |bars|), bars[|bars| - 1], RoundTrips(bars, scheduled, s);
    if book.open.Some? {
      assert rts[|rts| - 1] == RoundTrip(book.open.value, last.timestamp, last.close, EndOfData);
      assert Quiet(book.open.value, last, s) ==> Allowed(book.open.value, last.close, s);
    }
  }

  /** What a closing price does to the profit per unit. */
  function UnitProfit(e: Entry, price: real): real {
    if e.side == Buy then price - e.price else e.price - price
  }

  /** Allowed prices are exactly those whose loss and profit stay within the percentages of the entry price. */
  lemma AllowedIsBounded(e: Entry, price: real, s: Strategy)
    ensures NotBeyondStop(e, price, s) <==>
            (s.stopLossPct.Some? ==> UnitProfit(e, price) >= -Move(e.price, s.stopLossPct.value))
    ensures NotBeyondTarget(e, price, s) <==>
            (s.targetPct.Some? ==> UnitProfit(e, price) <= Move(e.price, s.targetPct.value))
  {
    if s.stopLossPct.Some? { LevelOffset(e.price, s.stopLossPct.value); }
    if s.targetPct.Some? { LevelOffset(e.price, s.targetPct.value); }
  }

  function Move(price: real, pct: real): real { price * (pct / 100.0) }

  lemma LevelOffset(price: real, pct: real)
    ensures Above(price, pct) == price + Move(price, pct)
    ensures Below(price, pct) == price - Move(price, pct)
  {
  }
}
