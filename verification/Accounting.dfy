/** Money: nothing is lost between trades, account and result, and how amounts respond to lots, slippage and the
    charge calculator. */
module Accounting {
  import opened Types
  import opened Scheduler
  import opened Engine
  import P = Positions
  import Bounds
  import Charges
  import Rounding

  // ---------------------------------------------------------------- conservation

  ghost predicate Netted(trades: seq<Trade>) {
    forall i :: 0 <= i < |trades| ==>
      trades[i].netPnL == trades[i].grossPnL - trades[i].charges.total - trades[i].slippage
  }

  lemma SettledIsNetted(p: Pricing, rts: seq<P.RoundTrip>)
    ensures Netted(SettleAll(p, rts))
  {
  }

  lemma {:induction false} NetIsSum(trades: seq<Trade>, n: nat)
    requires n <= |trades| && Netted(trades)
    ensures SumOf(trades, GrossPnL, n) - SumOf(trades, TotalCharges, n) - SumOf(trades, SlippageCost, n) ==
            SumOf(trades, NetPnL, n)
  {
    if n > 0 { NetIsSum(trades, n - 1); }
  }

  lemma {:induction false} EquityIsCapitalPlusNet(capital: real, trades: seq<Trade>, n: nat)
    requires n <= |trades|
    ensures AccountAfter(capital, trades, n).equity == capital + SumOf(trades, NetPnL, n)
  {
    if n > 0 { EquityIsCapitalPlusNet(capital, trades, n - 1); }
  }

  function Zeros(trades: seq<Trade>, n: nat): nat
    requires n <= |trades|
  {
    if n == 0 then 0 else Zeros(trades, n - 1) + if trades[n - 1].netPnL == 0.0 then 1 else 0
  }

  lemma {:induction false} OutcomesPartition(trades: seq<Trade>, n: nat)
    requires n <= |trades|
    ensures Wins(trades, n) + Losses(trades, n) + Zeros(trades, n) == n
  {
    if n > 0 { OutcomesPartition(trades, n - 1); }
  }

  const PNL_IDENTITY_TOLERANCE := 1.0

  /** The consistency check the service makes before it stores a result. */
  predicate PassesIdentityCheck(r: BacktestResult) {
    var diff := r.grossPnL - r.totalCharges - r.slippage - r.netPnL;
    -PNL_IDENTITY_TOLERANCE <= diff <= PNL_IDENTITY_TOLERANCE
  }

  ghost predicate Conserved(r: BacktestResult, capital: real) {
    var n := |r.trades|;
    && r.netPnL == SumOf(r.trades, NetPnL, n)
    && AccountAfter(capital, r.trades, n).equity == capital + r.netPnL
    && r.totalTrades == n == r.winCount + r.lossCount + Zeros(r.trades, n)
    && PassesIdentityCheck(r)
  }

  /** Money is conserved: the reported net is the sum of the trades' nets and what the account moved by, wins,
      losses and zero trades make up the total, and the service's identity check never rejects an engine result. */
  lemma MoneyIsConserved(charges: ChargeCalculator, strategy: Strategy, inputs: EngineInputs, cfg: RunConfig)
    ensures var r := Backtest(charges, strategy, inputs, cfg); r.Ok? ==> Conserved(r.value, cfg.initialCapital)
  {
    if Backtest(charges, strategy, inputs, cfg).Ok? {
      BacktestPricesDecisions(charges, strategy, inputs, cfg);
      var r := Backtest(charges, strategy, inputs, cfg).value;
      SettledIsNetted(PricingOf(charges, strategy, cfg), Decisions(strategy, inputs).value);
      ResultIsSummary(charges, strategy, inputs, cfg);
      AggregatesConserve(r, cfg.initialCapital);
    }
  }

  lemma AggregatesConserve(r: BacktestResult, capital: real)
    requires Aggregates(r) && Netted(r.trades)
    ensures Conserved(r, capital)
  {
    NetIsSum(r.trades, |r.trades|);
    EquityIsCapitalPlusNet(capital, r.trades, |r.trades|);
    OutcomesPartition(r.trades, |r.trades|);
  }

  ghost predicate Aggregates(r: BacktestResult) {
    var n := |r.trades|;
    && r.grossPnL == SumOf(r.trades, GrossPnL, n) && r.totalCharges == SumOf(r.trades, TotalCharges, n)
    && r.slippage == SumOf(r.trades, SlippageCost, n) && r.netPnL == r.grossPnL - r.totalCharges - r.slippage
    && r.totalTrades == n && r.winCount == Wins(r.trades, n) && r.lossCount == Losses(r.trades, n)
  }

  lemma ResultIsSummary(charges: ChargeCalculator, strategy: Strategy, inputs: EngineInputs, cfg: RunConfig)
    ensures var r := Backtest(charges, strategy, inputs, cfg); r.Ok? ==> Aggregates(r.value)
  {
    assert Wins([], 0) == 0 && Losses([], 0) == 0;
  }

  // ---------------------------------------------------------------- the streaming drawdown against its meaning

  /** Capital plus the nets of the first k trades. */
  function Equity(capital: real, trades: seq<Trade>, k: nat): real
    requires k <= |trades|
  {
    capital + SumOf(trades, NetPnL, k)
  }

  /** `peak` is the largest of the equities after 0 to n trades. */
  ghost predicate IsPeak(capital: real, trades: seq<Trade>, n: nat, peak: real)
    requires n <= |trades|
  {
    && (forall k :: 0 <= k <= n ==> Equity(capital, trades, k) <= peak)
    && exists k :: 0 <= k <= n && Equity(capital, trades, k) == peak
  }

  /** `drop` is how far the equity after k trades lies under the largest equity until then, as a share of it. */
  ghost predicate IsDrop(capital: real, trades: seq<Trade>, k: nat, drop: real)
    requires k <= |trades|
  {
    exists peak :: IsPeak(capital, trades, k, peak) && drop == Fraction(peak, Equity(capital, trades, k))
  }

  /** `drawdown` is the largest such drop, over 0 to n trades. */
  ghost predicate IsLargestDrop(capital: real, trades: seq<Trade>, n: nat, drawdown: real)
    requires n <= |trades|
  {
    && (forall k, drop :: 0 <= k <= n && IsDrop(capital, trades, k, drop) ==> drop <= drawdown)
    && exists k :: 0 <= k <= n && IsDrop(capital, trades, k, drawdown)
  }

  /** The running peak is the largest equity so far. */
  lemma {:induction false} PeakIsLargest(capital: real, trades: seq<Trade>, n: nat)
    requires n <= |trades|
    ensures IsPeak(capital, trades, n, AccountAfter(capital, trades, n).peak)
  {
    EquityIsCapitalPlusNet(capital, trades, n);
    if n == 0 {
      assert Equity(capital, trades, 0) == capital;
    } else {
      PeakIsLargest(capital, trades, n - 1);
      var before, peak := AccountAfter(capital, trades, n - 1).peak, AccountAfter(capital, trades, n).peak;
      if peak == before {
        var k :| 0 <= k <= n - 1 && Equity(capital, trades, k) == before;
        assert 0 <= k <= n;
      } else {
        assert Equity(capital, trades, n) == peak;
      }
    }
  }

  lemma PeakIsUnique(capital: real, trades: seq<Trade>, n: nat, p: real, q: real)
    requires n <= |trades| && IsPeak(capital, trades, n, p) && IsPeak(capital, trades, n, q)
    ensures p == q
  {
  }

  lemma DropOf(capital: real, trades: seq<Trade>, k: nat) returns (drop: real)
    requires k <= |trades|
    ensures drop == Fraction(AccountAfter(capital, trades, k).peak, AccountAfter(capital, trades, k).equity)
    ensures forall d :: IsDrop(capital, trades, k, d) <==> d == drop
  {
    var a := AccountAfter(capital, trades, k);
    PeakIsLargest(capital, trades, k);
    EquityIsCapitalPlusNet(capital, trades, k);
    drop := Fraction(a.peak, a.equity);
    forall d | IsDrop(capital, trades, k, d) ensures d == drop {
      var peak :| IsPeak(capital, trades, k, peak) && d == Fraction(peak, Equity(capital, trades, k));
      PeakIsUnique(capital, trades, k, peak, a.peak);
    }
  }

  /** The streamed maximum drawdown is the largest drop from the largest equity so far. */
  lemma {:induction false} DrawdownIsLargestDrop(capital: real, trades: seq<Trade>, n: nat)
    requires n <= |trades|
    ensures IsLargestDrop(capital, trades, n, AccountAfter(capital, trades, n).maxDrawdown)
  {
    var drop := DropOf(capital, trades, n);
    var m := AccountAfter(capital, trades, n).maxDrawdown;
    if n == 0 {
      assert IsDrop(capital, trades, 0, 0.0);
    } else {
      DrawdownIsLargestDrop(capital, trades, n - 1);
      var before := AccountAfter(capital, trades, n - 1).maxDrawdown;
      if m == before {
        var k :| 0 <= k <= n - 1 && IsDrop(capital, trades, k, before);
        assert 0 <= k <= n;
      } else {
        assert IsDrop(capital, trades, n, m);
      }
    }
  }

  /** The drawdown a backtest reports is the largest drop of its trades' equity, rounded to four places. */
  lemma ReportedDrawdown(charges: ChargeCalculator, strategy: Strategy, inputs: EngineInputs, cfg: RunConfig)
    returns (drawdown: real)
    ensures var b := Backtest(charges, strategy, inputs, cfg);
            b.Ok? ==> && IsLargestDrop(cfg.initialCapital, b.value.trades, |b.value.trades|, drawdown)
                      && b.value.maxDrawdown == Rounding.Round4(drawdown)
  {
    drawdown := 0.0;
    var b := Backtest(charges, strategy, inputs, cfg);
    if b.Ok? {
      var trades := b.value.trades;
      BacktestPricesDecisions(charges, strategy, inputs, cfg);
      drawdown := AccountAfter(cfg.initialCapital, trades, |trades|).maxDrawdown;
      DrawdownIsLargestDrop(cfg.initialCapital, trades, |trades|);
      Rounding.Round2Zero();
    }
  }

  // ---------------------------------------------------------------- decisions ignore the amounts

  /** What a trade was, apart from its size and amounts. */
  ghost predicate SameDecision(x: Trade, y: Trade) {
    && x.entryTimestamp == y.entryTimestamp && x.exitTimestamp == y.exitTimestamp && x.side == y.side
    && x.entryPrice == y.entryPrice && x.exitPrice == y.exitPrice && x.reason == y.reason
    && x.exitReason == y.exitReason
  }

  ghost predicate SameDecisions(xs: seq<Trade>, ys: seq<Trade>) {
    |xs| == |ys| && forall i :: 0 <= i < |xs| ==> SameDecision(xs[i], ys[i])
  }

  /** Success, times, prices, sides and reasons do not depend on lots, capital, slippage or the charge calculator. */
  lemma DecisionsIgnoreAmounts(charges1: ChargeCalculator, cfg1: RunConfig, charges2: ChargeCalculator, cfg2: RunConfig,
                               strategy: Strategy, inputs: EngineInputs)
    ensures var x, y := Backtest(charges1, strategy, inputs, cfg1), Backtest(charges2, strategy, inputs, cfg2);
            && (x.Ok? <==> y.Ok?)
            && (x.Ok? ==> SameDecisions(x.value.trades, y.value.trades))
  {
    BacktestPricesDecisions(charges1, strategy, inputs, cfg1);
    BacktestPricesDecisions(charges2, strategy, inputs, cfg2);
  }

  // ---------------------------------------------------------------- non-negative prices

  ghost predicate Priced(rt: P.RoundTrip) {
    rt.entry.price >= 0.0 && rt.exitPrice >= 0.0
  }

  ghost predicate BookPriced(book: P.Book) {
    && (book.open.Some? ==> book.open.value.price >= 0.0)
    && forall i :: 0 <= i < |book.closed| ==> Priced(book.closed[i])
  }

  /** A level above a price is non-negative, and one below it is only ever reached from above by a bar's low. */
  lemma ExitNonNegative(e: P.Entry, c: Candle, s: Strategy)
    requires e.price >= 0.0 && c.WellFormed() && Bounds.ValidPercentages(s)
    ensures P.ExitOn(e, c, s).Some? ==> P.ExitOn(e, c, s).value.price >= 0.0
  {
    if s.stopLossPct.Some? { Bounds.LevelsAroundPrice(e.price, s.stopLossPct.value); }
    if s.targetPct.Some? { Bounds.LevelsAroundPrice(e.price, s.targetPct.value); }
  }

  lemma {:induction false} SignalsPriced(book: P.Book, scheduled: seq<Scheduled>, c: Candle)
    requires BookPriced(book) && c.WellFormed()
    ensures BookPriced(P.TakeSignals(book, scheduled, c))
    decreases |scheduled| - book.next
  {
    if book.next < |scheduled| && scheduled[book.next].executionTimestamp == c.timestamp {
      SignalsPriced(P.TakeSignal(book, scheduled[book.next].signal, c), scheduled, c);
    }
  }

  lemma {:induction false} RunPriced(bars: seq<Candle>, scheduled: seq<Scheduled>, s: Strategy, n: nat)
    requires n <= |bars| && Bounds.ValidPercentages(s) && forall i :: 0 <= i < |bars| ==> bars[i].WellFormed()
    ensures BookPriced(P.Run(bars, scheduled, s, n))
  {
    if n > 0 {
      RunPriced(bars, scheduled, s, n - 1);
      var book := P.Run(bars, scheduled, s, n - 1);
      if book.open.Some? { ExitNonNegative(book.open.value, bars[n - 1], s); }
      SignalsPriced(P.CloseOnBar(book, bars[n - 1], s), scheduled, bars[n - 1]);
    }
  }

  ghost predicate RealisticInputs(strategy: Strategy, inputs: EngineInputs) {
    && Bounds.ValidPercentages(strategy)
    && forall i :: 0 <= i < |inputs.tradeCandles| ==> inputs.tradeCandles[i].WellFormed()
  }

  lemma DecisionsPriced(strategy: Strategy, inputs: EngineInputs)
    requires RealisticInputs(strategy, inputs)
    ensures var d := Decisions(strategy, inputs); d.Ok? ==> forall i :: 0 <= i < |d.value| ==> Priced(d.value[i])
  {
    var bars := inputs.tradeCandles;
    if |inputs.signalCandles| > 0 && |bars| > 0 && Decisions(strategy, inputs).Ok? {
      var signals := Evaluator.Evaluation(strategy.entryCondition, inputs.signalCandles).value;
      RunPriced(bars, Schedule(signals, bars, IntervalDuration(inputs.interval).value), strategy, |bars|);
    }
  }

  // ---------------------------------------------------------------- lots

  lemma AmountsAdd(side: Side, entryPrice: real, exitPrice: real, slippagePct: real, q1: int, q2: int)
    ensures Gross(side, entryPrice, exitPrice, q1 + q2) ==
            Gross(side, entryPrice, exitPrice, q1) + Gross(side, entryPrice, exitPrice, q2)
    ensures Slippage(slippagePct, entryPrice, exitPrice, q1 + q2) ==
            Slippage(slippagePct, entryPrice, exitPrice, q1) + Slippage(slippagePct, entryPrice, exitPrice, q2)
  {
    var k := slippagePct / 100.0 * (entryPrice + exitPrice);
    assert (q1 + q2) as real == q1 as real + q2 as real;
    assert k * (q1 as real + q2 as real) == k * q1 as real + k * q2 as real;
  }

  /** A trade of the combined size against the two separate ones. */
  ghost predicate Combines(t: Trade, t1: Trade, t2: Trade) {
    && t.grossPnL == t1.grossPnL + t2.grossPnL && t.slippage == t1.slippage + t2.slippage
    && t.charges.total <= t1.charges.total + t2.charges.total && t.netPnL >= t1.netPnL + t2.netPnL
  }

  lemma AssembleCombines(rt: P.RoundTrip, q: int, q1: int, q2: int, g1: real, g2: real, cb: ChargeBreakdown,
                         cb1: ChargeBreakdown, cb2: ChargeBreakdown, s1: real, s2: real)
    requires cb.total <= cb1.total + cb2.total
    ensures Combines(Assemble(rt, q, g1 + g2, cb, s1 + s2), Assemble(rt, q1, g1, cb1, s1),
                     Assemble(rt, q2, g2, cb2, s2))
  {
  }

  lemma ChargesCombine(segment: string, side: Side, entryPrice: real, exitPrice: real, q1: int, q2: int)
    requires entryPrice >= 0.0 && exitPrice >= 0.0 && q1 >= 0 && q2 >= 0
    ensures Charges.Compute(segment, side, entryPrice, exitPrice, q1 + q2).total <=
            Charges.Compute(segment, side, entryPrice, exitPrice, q1).total +
            Charges.Compute(segment, side, entryPrice, exitPrice, q2).total
  {
    Charges.ComputeFacts(segment, side, entryPrice, exitPrice, q1, q2);
  }

  lemma SettleCombines(segment: string, slippagePct: real, q1: int, q2: int, rt: P.RoundTrip)
    requires q1 >= 0 && q2 >= 0 && Priced(rt)
    ensures Combines(Settle(Pricing(Charges.Compute, segment, q1 + q2, slippagePct), rt),
                     Settle(Pricing(Charges.Compute, segment, q1, slippagePct), rt),
                     Settle(Pricing(Charges.Compute, segment, q2, slippagePct), rt))
  {
    var side, entry, exit := rt.entry.side, rt.entry.price, rt.exitPrice;
    AmountsAdd(side, entry, exit, slippagePct, q1, q2);
    ChargesCombine(segment, side, entry, exit, q1, q2);
    AssembleCombines(rt, q1 + q2, q1, q2, Gross(side, entry, exit, q1), Gross(side, entry, exit, q2),
                     Charges.Compute(segment, side, entry, exit, q1 + q2),
                     Charges.Compute(segment, side, entry, exit, q1),
                     Charges.Compute(segment, side, entry, exit, q2),
                     Slippage(slippagePct, entry, exit, q1), Slippage(slippagePct, entry, exit, q2));
  }

  lemma {:induction false} SumsCombine(ts: seq<Trade>, ts1: seq<Trade>, ts2: seq<Trade>, n: nat)
    requires n <= |ts| == |ts1| == |ts2| && forall i :: 0 <= i < n ==> Combines(ts[i], ts1[i], ts2[i])
    ensures SumOf(ts, GrossPnL, n) == SumOf(ts1, GrossPnL, n) + SumOf(ts2, GrossPnL, n)
    ensures SumOf(ts, SlippageCost, n) == SumOf(ts1, SlippageCost, n) + SumOf(ts2, SlippageCost, n)
    ensures SumOf(ts, TotalCharges, n) <= SumOf(ts1, TotalCharges, n) + SumOf(ts2, TotalCharges, n)
  {
    if n > 0 { SumsCombine(ts, ts1, ts2, n - 1); }
  }

  function WithLots(cfg: RunConfig, lots: int): RunConfig { cfg.(lots := lots) }

  /** One run against two smaller ones. */
  ghost predicate ResultCombines(r: BacktestResult, r1: BacktestResult, r2: BacktestResult) {
    && r.grossPnL == r1.grossPnL + r2.grossPnL && r.slippage == r1.slippage + r2.slippage
    && r.totalCharges <= r1.totalCharges + r2.totalCharges && r.netPnL >= r1.netPnL + r2.netPnL
  }

  lemma RunWithLots(strategy: Strategy, inputs: EngineInputs, cfg: RunConfig, lots: int, qty: int)
    requires lots >= 1 && qty == OrOne(strategy.lotSize) * lots
    ensures var r, d := Backtest(Charges.Compute, strategy, inputs, WithLots(cfg, lots)), Decisions(strategy, inputs);
            && (r.Ok? <==> d.Ok?)
            && (r.Ok? ==> Sized(r.value, Pricing(Charges.Compute, strategy.segment, qty, cfg.slippagePct), d.value))
  {
    BacktestPricesDecisions(Charges.Compute, strategy, inputs, WithLots(cfg, lots));
    ResultIsSummary(Charges.Compute, strategy, inputs, WithLots(cfg, lots));
  }

  ghost predicate Sized(r: BacktestResult, p: Pricing, rts: seq<P.RoundTrip>) {
    Aggregates(r) && r.trades == SettleAll(p, rts)
  }

  lemma ResultsCombine(r: BacktestResult, r1: BacktestResult, r2: BacktestResult, segment: string, slippagePct: real,
                       q: int, q1: int, q2: int, rts: seq<P.RoundTrip>)
    requires q == q1 + q2 && q1 >= 0 && q2 >= 0 && forall i :: 0 <= i < |rts| ==> Priced(rts[i])
    requires Sized(r, Pricing(Charges.Compute, segment, q, slippagePct), rts)
    requires Sized(r1, Pricing(Charges.Compute, segment, q1, slippagePct), rts)
    requires Sized(r2, Pricing(Charges.Compute, segment, q2, slippagePct), rts)
    ensures ResultCombines(r, r1, r2)
  {
    SettleAllCombines(segment, slippagePct, q1, q2, rts);
    TotalsCombine(r, r1, r2);
  }

  /** The column sums of three trade lists combine. */
  ghost predicate ColumnsCombine(ts: seq<Trade>, ts1: seq<Trade>, ts2: seq<Trade>) {
    && SumOf(ts, GrossPnL, |ts|) == SumOf(ts1, GrossPnL, |ts1|) + SumOf(ts2, GrossPnL, |ts2|)
    && SumOf(ts, SlippageCost, |ts|) == SumOf(ts1, SlippageCost, |ts1|) + SumOf(ts2, SlippageCost, |ts2|)
    && SumOf(ts, TotalCharges, |ts|) <= SumOf(ts1, TotalCharges, |ts1|) + SumOf(ts2, TotalCharges, |ts2|)
  }

  lemma TotalsCombine(r: BacktestResult, r1: BacktestResult, r2: BacktestResult)
    requires Aggregates(r) && Aggregates(r1) && Aggregates(r2) && ColumnsCombine(r.trades, r1.trades, r2.trades)
    ensures ResultCombines(r, r1, r2)
  {
  }

  /** Buying more lots at once: gross profit and slippage add up, charges add up to at most the sum, so the net of
      the larger run is at least the sum of the nets of the smaller ones. */
  lemma LotsCombine(strategy: Strategy, inputs: EngineInputs, cfg: RunConfig, l1: int, l2: int)
    requires l1 >= 1 && l2 >= 1 && RealisticInputs(strategy, inputs)
    ensures var r := Backtest(Charges.Compute, strategy, inputs, WithLots(cfg, l1 + l2));
            var r1 := Backtest(Charges.Compute, strategy, inputs, WithLots(cfg, l1));
            var r2 := Backtest(Charges.Compute, strategy, inputs, WithLots(cfg, l2));
            && (r.Ok? <==> r1.Ok?) && (r.Ok? <==> r2.Ok?)
            && (r.Ok? ==> ResultCombines(r.value, r1.value, r2.value))
  {
    var lot := OrOne(strategy.lotSize);
    var q, q1, q2 := lot * (l1 + l2), lot * l1, lot * l2;
    QuantitySplits(lot, l1, l2);
    RunWithLots(strategy, inputs, cfg, l1 + l2, q);
    RunWithLots(strategy, inputs, cfg, l1, q1);
    RunWithLots(strategy, inputs, cfg, l2, q2);
    DecisionsPriced(strategy, inputs);
    if Decisions(strategy, inputs).Ok? {
      ResultsCombine(Backtest(Charges.Compute, strategy, inputs, WithLots(cfg, l1 + l2)).value,
                     Backtest(Charges.Compute, strategy, inputs, WithLots(cfg, l1)).value,
                     Backtest(Charges.Compute, strategy, inputs, WithLots(cfg, l2)).value,
                     strategy.segment, cfg.slippagePct, q, q1, q2, Decisions(strategy, inputs).value);
    }
  }

  lemma QuantitySplits(lot: int, l1: int, l2: int)
    requires lot >= 1 && l1 >= 1 && l2 >= 1
    ensures lot * (l1 + l2) == lot * l1 + lot * l2 && lot * l1 >= 0 && lot * l2 >= 0
  {
  }

  lemma SettleAllCombines(segment: string, slippagePct: real, q1: int, q2: int, rts: seq<P.RoundTrip>)
    requires q1 >= 0 && q2 >= 0 && forall i :: 0 <= i < |rts| ==> Priced(rts[i])
    ensures ColumnsCombine(SettleAll(Pricing(Charges.Compute, segment, q1 + q2, slippagePct), rts),
                           SettleAll(Pricing(Charges.Compute, segment, q1, slippagePct), rts),
                           SettleAll(Pricing(Charges.Compute, segment, q2, slippagePct), rts))
  {
    var ts := SettleAll(Pricing(Charges.Compute, segment, q1 + q2, slippagePct), rts);
    var ts1 := SettleAll(Pricing(Charges.Compute, segment, q1, slippagePct), rts);
    var ts2 := SettleAll(Pricing(Charges.Compute, segment, q2, slippagePct), rts);
    forall i | 0 <= i < |rts| ensures Combines(ts[i], ts1[i], ts2[i]) {
      SettleCombines(segment, slippagePct, q1, q2, rts[i]);
    }
    SumsCombine(ts, ts1, ts2, |rts|);
  }

  // ---------------------------------------------------------------- slippage

  lemma SlippageGrows(pct1: real, pct2: real, entryPrice: real, exitPrice: real, qty: int)
    requires pct1 <= pct2 && entryPrice >= 0.0 && exitPrice >= 0.0 && qty >= 0
    ensures Slippage(pct1, entryPrice, exitPrice, qty) <= Slippage(pct2, entryPrice, exitPrice, qty)
  {
    var notional := (entryPrice + exitPrice) * qty as real;
    assert notional >= 0.0;
    assert (pct2 / 100.0 - pct1 / 100.0) * notional >= 0.0;
    assert Slippage(pct1, entryPrice, exitPrice, qty) == pct1 / 100.0 * notional;
    assert Slippage(pct2, entryPrice, exitPrice, qty) == pct2 / 100.0 * notional;
  }

  ghost predicate CostsMore(t1: Trade, t2: Trade) {
    t1.grossPnL == t2.grossPnL && t1.charges == t2.charges && t1.slippage <= t2.slippage && t1.netPnL >= t2.netPnL
  }

  lemma {:induction false} SumsCostMore(ts1: seq<Trade>, ts2: seq<Trade>, n: nat)
    requires n <= |ts1| == |ts2| && forall i :: 0 <= i < n ==> CostsMore(ts1[i], ts2[i])
    ensures SumOf(ts1, GrossPnL, n) == SumOf(ts2, GrossPnL, n)
    ensures SumOf(ts1, TotalCharges, n) == SumOf(ts2, TotalCharges, n)
    ensures SumOf(ts1, SlippageCost, n) <= SumOf(ts2, SlippageCost, n)
  {
    if n > 0 { SumsCostMore(ts1, ts2, n - 1); }
  }

  /** A higher slippage assumption never improves a run, trade by trade and in total. */
  lemma SlippageNeverHelps(charges: ChargeCalculator, strategy: Strategy, inputs: EngineInputs, cfg1: RunConfig,
                           cfg2: RunConfig)
    requires RealisticInputs(strategy, inputs) && Decisions(strategy, inputs).Ok?
    requires cfg1.lots == cfg2.lots && cfg1.slippagePct <= cfg2.slippagePct
    ensures Backtest(charges, strategy, inputs, cfg1).Ok? && Backtest(charges, strategy, inputs, cfg2).Ok?
    ensures var r1 := Backtest(charges, strategy, inputs, cfg1).value;
            var r2 := Backtest(charges, strategy, inputs, cfg2).value;
            && |r1.trades| == |r2.trades|
            && (forall i :: 0 <= i < |r1.trades| ==> CostsMore(r1.trades[i], r2.trades[i]))
            && r1.netPnL >= r2.netPnL
  {
    BacktestPricesDecisions(charges, strategy, inputs, cfg1);
    BacktestPricesDecisions(charges, strategy, inputs, cfg2);
    ResultIsSummary(charges, strategy, inputs, cfg1);
    ResultIsSummary(charges, strategy, inputs, cfg2);
    DecisionsPriced(strategy, inputs);
    var rts := Decisions(strategy, inputs).value;
    var ts1 := SettleAll(PricingOf(charges, strategy, cfg1), rts);
    var ts2 := SettleAll(PricingOf(charges, strategy, cfg2), rts);
    QuantityNonNegative(strategy.lotSize, cfg1.lots);
    forall i | 0 <= i < |rts| ensures CostsMore(ts1[i], ts2[i]) {
      SlippageGrows(cfg1.slippagePct, cfg2.slippagePct, rts[i].entry.price, rts[i].exitPrice,
                    PricingOf(charges, strategy, cfg1).qty);
    }
    SumsCostMore(ts1, ts2, |rts|);
  }

  lemma QuantityNonNegative(lotSize: int, lots: int)
    ensures OrOne(lotSize) * OrOne(lots) >= 1
  {
  }
}
