/** On which bars the exit rules meet a position: every bar after its entry bar, and never the entry bar itself. */
module Exits {
  import opened Types
  import opened Scheduler
  import opened Positions
  import opened Engine
  import Guarantees

  // ---------------------------------------------------------------- the life of a position

  predicate ByRule(reason: ExitReason) {
    reason == Target || reason == StopLoss || reason == TimeExit
  }

  /** Entered at the open of bar a, and no rule fired on the bars after it, up to bar n. */
  ghost predicate Survives(e: Entry, bars: seq<Candle>, s: Strategy, a: nat, n: nat)
    requires a < |bars| && n <= |bars|
  {
    && e.timestamp == bars[a].timestamp && e.price == bars[a].open
    && forall j :: a < j < n ==> ExitOn(e, bars[j], s) == None
  }

  /** The round trip lasted from bar a to bar b. A rule exit is the first firing of a rule after bar a; otherwise no
      rule fired after bar a at all, and the exit price is bar b's open or, at the end of the data, its close. */
  ghost predicate Lasted(rt: RoundTrip, bars: seq<Candle>, s: Strategy, a: nat, b: nat) {
    && a <= b < |bars| && Survives(rt.entry, bars, s, a, b) && rt.exitTimestamp == bars[b].timestamp
    && if ByRule(rt.exitReason) then a < b && ExitOn(rt.entry, bars[b], s) == Some(Exit(rt.exitReason, rt.exitPrice))
       else
         && (a < b ==> ExitOn(rt.entry, bars[b], s) == None)
         && (rt.exitReason == SignalReversal ==> rt.exitPrice == bars[b].open)
         && (rt.exitReason == EndOfData ==> b == |bars| - 1 && rt.exitPrice == bars[b].close)
  }

  ghost predicate Accounted(rt: RoundTrip, bars: seq<Candle>, s: Strategy) {
    exists a: nat, b: nat :: Lasted(rt, bars, s, a, b)
  }

  ghost predicate AllAccounted(rts: seq<RoundTrip>, bars: seq<Candle>, s: Strategy) {
    forall i :: 0 <= i < |rts| ==> Accounted(rts[i], bars, s)
  }

  ghost predicate StillOpen(e: Entry, bars: seq<Candle>, s: Strategy, n: nat)
    requires n <= |bars|
  {
    exists a: nat :: a < n && Survives(e, bars, s, a, n)
  }

  /** What every bar keeps: closed trips are accounted for, the open entry has survived all bars after its own. */
  ghost predicate Kept(book: Book, bars: seq<Candle>, s: Strategy, n: nat)
    requires n <= |bars|
  {
    AllAccounted(book.closed, bars, s) && (book.open.Some? ==> StillOpen(book.open.value, bars, s, n))
  }

  lemma RulesGiveRuleReasons(e: Entry, c: Candle, s: Strategy)
    ensures ExitOn(e, c, s).Some? ==> ByRule(ExitOn(e, c, s).value.reason)
  {
  }

  lemma CloseKeeps(book: Book, bars: seq<Candle>, s: Strategy, n: nat)
    requires n < |bars| && Kept(book, bars, s, n)
    ensures Kept(CloseOnBar(book, bars[n], s), bars, s, n + 1)
  {
    if book.open.Some? {
      var e := book.open.value;
      var a: nat :| a < n && Survives(e, bars, s, a, n);
      RulesGiveRuleReasons(e, bars[n], s);
      var exit := ExitOn(e, bars[n], s);
      if exit.Some? {
        assert Lasted(RoundTrip(e, bars[n].timestamp, exit.value.price, exit.value.reason), bars, s, a, n);
      } else {
        assert Survives(e, bars, s, a, n + 1);
      }
    }
  }

  lemma TakeKeeps(book: Book, sig: Signal, bars: seq<Candle>, s: Strategy, n: nat)
    requires n < |bars| && Kept(book, bars, s, n + 1)
    ensures Kept(TakeSignal(book, sig, bars[n]), bars, s, n + 1)
  {
    assert Survives(EntryAt(sig, bars[n]), bars, s, n, n + 1);
    if book.open.Some? {
      var e := book.open.value;
      var a: nat :| a < n + 1 && Survives(e, bars, s, a, n + 1);
      assert Lasted(RoundTrip(e, bars[n].timestamp, bars[n].open, SignalReversal), bars, s, a, n);
    }
  }

  lemma {:induction false} SignalsKeep(book: Book, scheduled: seq<Scheduled>, bars: seq<Candle>, s: Strategy, n: nat)
    requires n < |bars| && Kept(book, bars, s, n + 1)
    ensures Kept(TakeSignals(book, scheduled, bars[n]), bars, s, n + 1)
    decreases |scheduled| - book.next
  {
    if book.next < |scheduled| && scheduled[book.next].executionTimestamp == bars[n].timestamp {
      var sig := scheduled[book.next].signal;
      TakeKeeps(book, sig, bars, s, n);
      SignalsKeep(TakeSignal(book, sig, bars[n]), scheduled, bars, s, n);
    }
  }

  lemma {:induction false} RunKeeps(bars: seq<Candle>, scheduled: seq<Scheduled>, s: Strategy, n: nat)
    requires n <= |bars|
    ensures Kept(Run(bars, scheduled, s, n), bars, s, n)
  {
    if n > 0 {
      RunKeeps(bars, scheduled, s, n - 1);
      CloseKeeps(Run(bars, scheduled, s, n - 1), bars, s, n - 1);
      SignalsKeep(CloseOnBar(Run(bars, scheduled, s, n - 1), bars[n - 1], s), scheduled, bars, s, n - 1);
    }
  }

  /** Every round trip of every run ends on the first bar after its entry bar on which a rule fires, at that rule's
      price, unless a reversal or the end of the data comes before any rule does. */
  lemma FirstRuleEndsPosition(bars: seq<Candle>, scheduled: seq<Scheduled>, s: Strategy)
    ensures AllAccounted(RoundTrips(bars, scheduled, s), bars, s)
  {
    if |bars| > 0 {
      var book, n := Run(bars, scheduled, s, |bars|), |bars|;
      RunKeeps(bars, scheduled, s, n);
      if book.open.Some? {
        var e := book.open.value;
        var a: nat :| a < n && Survives(e, bars, s, a, n);
        assert Lasted(RoundTrip(e, bars[n - 1].timestamp, bars[n - 1].close, EndOfData), bars, s, a, n - 1);
      }
    }
  }

  // ---------------------------------------------------------------- exactly when every bar counts

  /** A rule that fires on any bar of the trip, its entry bar included, ends it there. */
  ghost predicate MeetsRulesOnEveryBar(rt: RoundTrip, bars: seq<Candle>, s: Strategy, a: nat, b: nat)
    requires a <= b < |bars|
  {
    forall j :: a <= j <= b && ExitOn(rt.entry, bars[j], s).Some? ==>
      j == b && ByRule(rt.exitReason) && ExitOn(rt.entry, bars[j], s) == Some(Exit(rt.exitReason, rt.exitPrice))
  }

  /** A position outlives a bar on which a rule fires if and only if it was entered on that bar; so the rules meet it
      on every bar exactly when none fires on the entry bar. */
  lemma EveryBarExactlyWhen(rt: RoundTrip, bars: seq<Candle>, s: Strategy, a: nat, b: nat)
    requires Lasted(rt, bars, s, a, b)
    ensures MeetsRulesOnEveryBar(rt, bars, s, a, b) <==> ExitOn(rt.entry, bars[a], s) == None
    ensures forall j :: a <= j <= b && ExitOn(rt.entry, bars[j], s).Some? ==>
              (j == a <==> !(j == b && ByRule(rt.exitReason)))
  {
  }

  // ---------------------------------------------------------------- whole backtests

  /** The trade as a round trip. */
  function TripOf(t: Trade): RoundTrip
    requires t.exitReason.Some?
  {
    RoundTrip(Entry(t.entryTimestamp, t.side, t.entryPrice, t.reason), t.exitTimestamp, t.exitPrice, t.exitReason.value)
  }

  ghost predicate TradesAccounted(ts: seq<Trade>, bars: seq<Candle>, s: Strategy) {
    forall i :: 0 <= i < |ts| ==> ts[i].exitReason.Some? && Accounted(TripOf(ts[i]), bars, s)
  }

  lemma TripOfSettled(p: Pricing, rt: RoundTrip)
    ensures Settle(p, rt).exitReason.Some? && TripOf(Settle(p, rt)) == rt
  {
  }

  lemma SettledAccounted(p: Pricing, rts: seq<RoundTrip>, bars: seq<Candle>, s: Strategy)
    requires AllAccounted(rts, bars, s)
    ensures TradesAccounted(SettleAll(p, rts), bars, s)
  {
    var ts := SettleAll(p, rts);
    forall i | 0 <= i < |rts| ensures ts[i].exitReason.Some? && Accounted(TripOf(ts[i]), bars, s) {
      TripOfSettled(p, rts[i]);
    }
  }

  /** Every trade of every backtest ends on the first bar after its entry bar on which target, stop-loss or time exit
      fires, at that rule's price; or by a reversal or the end of the data before any of them does. */
  lemma FirstRuleEndsTrade(charges: ChargeCalculator, strategy: Strategy, inputs: EngineInputs, cfg: RunConfig)
    ensures var b := Backtest(charges, strategy, inputs, cfg);
            b.Ok? ==> TradesAccounted(b.value.trades, inputs.tradeCandles, strategy)
  {
    BacktestPricesDecisions(charges, strategy, inputs, cfg);
    if Guarantees.Runnable(strategy, inputs) {
      Guarantees.DecisionsAreRoundTrips(strategy, inputs);
      FirstRuleEndsPosition(inputs.tradeCandles, Guarantees.Queue(strategy, inputs), strategy);
      SettledAccounted(PricingOf(charges, strategy, cfg), Decisions(strategy, inputs).value, inputs.tradeCandles,
                       strategy);
    }
  }
}
