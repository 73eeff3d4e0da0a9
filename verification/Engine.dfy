/** The backtest loop: positions are opened and closed bar by bar, each closed trade is charged and recorded. */
module Engine {
  import opened Types
  import opened Rounding
  import opened Scheduler
  import P = Positions
  import Evaluator

  // ---------------------------------------------------------------- reference definition

  /** A trade as opened: exit fields and amounts are still zero. */
  function Opened(e: P.Entry, qty: int): Trade {
    Trade(e.timestamp, 0, e.side, qty, e.price, 0.0, 0.0, 0.0, NO_CHARGES, 0.0, e.reason, None)
  }

  function Gross(side: Side, entryPrice: real, exitPrice: real, qty: int): real {
    if side == Buy then (exitPrice - entryPrice) * qty as real else (entryPrice - exitPrice) * qty as real
  }

  function Slippage(slippagePct: real, entryPrice: real, exitPrice: real, qty: int): real {
    slippagePct / 100.0 * (entryPrice + exitPrice) * qty as real
  }

  /** The parameters that price a round trip. */
  datatype Pricing = Pricing(charges: ChargeCalculator, segment: string, qty: int, slippagePct: real)

  /** The trade of a round trip with given amounts. */
  function Assemble(rt: P.RoundTrip, qty: int, gross: real, cb: ChargeBreakdown, slippage: real): Trade {
    var e := rt.entry;
    Trade(e.timestamp, rt.exitTimestamp, e.side, qty, e.price, rt.exitPrice, gross, slippage, cb,
          gross - cb.total - slippage, e.reason, Some(rt.exitReason))
  }

  /** A round trip priced: the trade it becomes. */
  function Settle(p: Pricing, rt: P.RoundTrip): Trade {
    var e := rt.entry;
    Assemble(rt, p.qty, Gross(e.side, e.price, rt.exitPrice, p.qty),
             p.charges(p.segment, e.side, e.price, rt.exitPrice, p.qty),
             Slippage(p.slippagePct, e.price, rt.exitPrice, p.qty))
  }

  function SettleAll(p: Pricing, rts: seq<P.RoundTrip>): (r: seq<Trade>)
    ensures |r| == |rts|
    ensures forall i :: 0 <= i < |rts| ==> r[i] == Settle(p, rts[i])
  {
    seq(|rts|, i requires 0 <= i < |rts| => Settle(p, rts[i]))
  }

  /** Running equity, its peak and the largest drawdown as a fraction of the peak. */
  datatype Account = Account(equity: real, peak: real, maxDrawdown: real)

  function Fraction(peak: real, equity: real): real {
    if peak > 0.0 then (peak - equity) / peak else 0.0
  }

  function Post(a: Account, netPnL: real): Account {
    var equity := a.equity + netPnL;
    var peak := if equity > a.peak then equity else a.peak;
    var dd := Fraction(peak, equity);
    Account(equity, peak, if dd > a.maxDrawdown then dd else a.maxDrawdown)
  }

  /** The account after the first `n` trades, from a given capital. */
  function AccountAfter(capital: real, trades: seq<Trade>, n: nat): Account
    requires n <= |trades|
  {
    if n == 0 then Account(capital, capital, 0.0) else Post(AccountAfter(capital, trades, n - 1), trades[n - 1].netPnL)
  }

  function IntervalDuration(interval: string): Option<int> {
    match interval
    case "1d" => Some(24 * HOUR)
    case "5m" => Some(5 * MINUTE)
    case _ => None
  }

  function OrOne(n: int): int { if n <= 0 then 1 else n }

  function PricingOf(charges: ChargeCalculator, strategy: Strategy, cfg: RunConfig): Pricing {
    Pricing(charges, strategy.segment, OrOne(strategy.lotSize) * OrOne(cfg.lots), cfg.slippagePct)
  }

  const UNKNOWN_INTERVAL := "unknown candle interval: "

  /** The round trips of a run, or its configuration error. They depend on the candles and the strategy alone. */
  ghost function Decisions(strategy: Strategy, inputs: EngineInputs): Result<seq<P.RoundTrip>> {
    if |inputs.signalCandles| == 0 || |inputs.tradeCandles| == 0 then Ok([])
    else
      match Evaluator.Evaluation(strategy.entryCondition, inputs.signalCandles)
      case Err(e) => Err(e)
      case Ok(signals) =>
        match IntervalDuration(inputs.interval)
        case None => Err(UNKNOWN_INTERVAL + inputs.interval)
        case Some(interval) =>
          Ok(P.RoundTrips(inputs.tradeCandles, Schedule(signals, inputs.tradeCandles, interval), strategy))
  }

  datatype Column = GrossPnL | TotalCharges | SlippageCost | NetPnL

  function Amount(t: Trade, column: Column): real {
    match column
    case GrossPnL => t.grossPnL
    case TotalCharges => t.charges.total
    case SlippageCost => t.slippage
    case NetPnL => t.netPnL
  }

  function SumOf(trades: seq<Trade>, column: Column, n: nat): real
    requires n <= |trades|
  {
    if n == 0 then 0.0 else SumOf(trades, column, n - 1) + Amount(trades[n - 1], column)
  }

  function Wins(trades: seq<Trade>, n: nat): nat
    requires n <= |trades|
  {
    if n == 0 then 0 else Wins(trades, n - 1) + if trades[n - 1].netPnL > 0.0 then 1 else 0
  }

  function Losses(trades: seq<Trade>, n: nat): nat
    requires n <= |trades|
  {
    if n == 0 then 0 else Losses(trades, n - 1) + if trades[n - 1].netPnL < 0.0 then 1 else 0
  }

  /** The aggregate of a trade list. */
  function Summary(trades: seq<Trade>, capital: real, slippagePct: real): BacktestResult {
    var n := |trades|;
    var gross, charges := SumOf(trades, GrossPnL, n), SumOf(trades, TotalCharges, n);
    var slippage := SumOf(trades, SlippageCost, n);
    BacktestResult(trades, gross, charges, slippage, slippagePct, gross - charges - slippage, n,
                   Wins(trades, n), Losses(trades, n), Round4(AccountAfter(capital, trades, n).maxDrawdown))
  }

  /** What a backtest returns: the decided round trips, priced and summed up. */
  ghost function Backtest(charges: ChargeCalculator, strategy: Strategy, inputs: EngineInputs, cfg: RunConfig)
    : Result<BacktestResult>
  {
    if |inputs.signalCandles| == 0 || |inputs.tradeCandles| == 0 then Ok(EMPTY_RESULT)
    else
      match Decisions(strategy, inputs)
      case Err(e) => Err(e)
      case Ok(rts) => Ok(Summary(SettleAll(PricingOf(charges, strategy, cfg), rts), cfg.initialCapital,
                                 cfg.slippagePct))
  }

  /** A backtest fails exactly when its decisions do, and its trades are the decided round trips, priced. */
  lemma BacktestPricesDecisions(charges: ChargeCalculator, strategy: Strategy, inputs: EngineInputs, cfg: RunConfig)
    ensures var r, d := Backtest(charges, strategy, inputs, cfg), Decisions(strategy, inputs);
            && (r.Ok? <==> d.Ok?)
            && (r.Ok? ==> r.value.trades == SettleAll(PricingOf(charges, strategy, cfg), d.value))
            && (r.Ok? && d.value != [] ==> r.value == Summary(r.value.trades, cfg.initialCapital, cfg.slippagePct))
  {
  }

  /** A trade of which only the net matters. */
  function NetTrade(netPnL: real): Trade {
    Trade(0, 0, Buy, 1, 0.0, 0.0, netPnL, 0.0, NO_CHARGES, netPnL, Reason(Momentum, Buy), None)
  }

  // ---------------------------------------------------------------- the loop

  /** The state of one run: the open trade, the head of the signal queue, the recorded trades and the account. */
  class Session {
    const pricing: Pricing
    const strategy: Strategy
    const capital: real
    var openTrade: Option<Trade>
    var sigIdx: nat
    var trades: seq<Trade>
    var equity: real
    var peakEquity: real
    var maxDrawdown: real

    constructor (pricing: Pricing, strategy: Strategy, capital: real)
      ensures this.pricing == pricing && this.strategy == strategy && this.capital == capital
      ensures Follows(P.EMPTY_BOOK)
    {
      this.pricing, this.strategy, this.capital := pricing, strategy, capital;
      openTrade, sigIdx, trades := None, 0, [];
      equity, peakEquity, maxDrawdown := capital, capital, 0.0;
    }

    ghost predicate AccountKept()
      reads this
    {
      Account(equity, peakEquity, maxDrawdown) == AccountAfter(capital, trades, |trades|)
    }

    /** The session holds exactly what the book says, priced. */
    ghost predicate Follows(book: P.Book)
      reads this
    {
      && openTrade == (if book.open.None? then None else Some(Opened(book.open.value, pricing.qty)))
      && sigIdx == book.next
      && trades == SettleAll(pricing, book.closed)
      && AccountKept()
    }

    /** Appends a closed trade and updates running equity, its peak and the drawdown. */
    method RecordTrade(trade: Trade)
      requires AccountKept()
      modifies `trades, `equity, `peakEquity, `maxDrawdown
      ensures trades == old(trades) + [trade]
      ensures AccountKept()
    {
      ghost var before := trades;
      trades := trades + [trade];
      AccountOfPrefix(capital, before, trade);
      equity := equity + trade.netPnL;
      if equity > peakEquity {
        peakEquity := equity;
      }
      var dd := Fraction(peakEquity, equity);
      if dd > maxDrawdown {
        maxDrawdown := dd;
      }
    }

    /** Fills in the exit of the open trade: frictionless profit, charges, slippage and what is left of it. */
    method CloseTrade(exitPrice: real, exitTime: int, reason: ExitReason, ghost e: P.Entry)
      requires openTrade == Some(Opened(e, pricing.qty))
      modifies `openTrade
      ensures openTrade == Some(Settle(pricing, P.RoundTrip(e, exitTime, exitPrice, reason)))
    {
      var t := openTrade.value;
      t := t.(exitTimestamp := exitTime, exitPrice := exitPrice, exitReason := Some(reason));
      if t.side == Buy {
        t := t.(grossPnL := (exitPrice - t.entryPrice) * pricing.qty as real);
      } else {
        t := t.(grossPnL := (t.entryPrice - exitPrice) * pricing.qty as real);
      }
      t := t.(charges := pricing.charges(pricing.segment, t.side, t.entryPrice, exitPrice, pricing.qty));
      t := t.(slippage := Slippage(pricing.slippagePct, t.entryPrice, exitPrice, pricing.qty));
      t := t.(netPnL := t.grossPnL - t.charges.total - t.slippage);
      assert t.grossPnL == Gross(e.side, e.price, exitPrice, pricing.qty);
      assert t.charges == pricing.charges(pricing.segment, e.side, e.price, exitPrice, pricing.qty);
      assert t.slippage == Slippage(pricing.slippagePct, e.price, exitPrice, pricing.qty);
      openTrade := Some(t);
    }

    /** Closes the open trade, records it and goes flat. */
    method CloseAndRecord(exitPrice: real, exitTime: int, reason: ExitReason, ghost book: P.Book)
      requires Follows(book) && book.open.Some?
      modifies this
      ensures Follows(P.Book(None, book.next,
                             book.closed + [P.RoundTrip(book.open.value, exitTime, exitPrice, reason)]))
    {
      CloseTrade(exitPrice, exitTime, reason, book.open.value);
      RecordTrade(openTrade.value);
      openTrade := None;
    }

    /** Tests target, stop-loss and time exit, in that order; prices are exact levels or the close. */
    method CheckExitConditions(candle: Candle, ghost e: P.Entry) returns (hit: Option<P.Exit>)
      requires openTrade == Some(Opened(e, pricing.qty))
      ensures hit == P.ExitOn(e, candle, strategy)
      ensures P.IsRuledExit(hit, openTrade.value.side, openTrade.value.entryPrice, openTrade.value.entryTimestamp,
                            candle, strategy)
    {
      P.RuleFiresExactlyWhen(e, candle, strategy);
      var trade := openTrade.value;
      if strategy.targetPct.Some? {
        if trade.side == Buy {
          if candle.high >= P.Above(trade.entryPrice, strategy.targetPct.value) {
            return Some(P.Exit(Target, P.Above(trade.entryPrice, strategy.targetPct.value)));
          }
        } else if candle.low <= P.Below(trade.entryPrice, strategy.targetPct.value) {
          return Some(P.Exit(Target, P.Below(trade.entryPrice, strategy.targetPct.value)));
        }
      }
      if strategy.stopLossPct.Some? {
        if trade.side == Buy {
          if candle.low <= P.Below(trade.entryPrice, strategy.stopLossPct.value) {
            return Some(P.Exit(StopLoss, P.Below(trade.entryPrice, strategy.stopLossPct.value)));
          }
        } else if candle.high >= P.Above(trade.entryPrice, strategy.stopLossPct.value) {
          return Some(P.Exit(StopLoss, P.Above(trade.entryPrice, strategy.stopLossPct.value)));
        }
      }
      if strategy.timeExitMinutes.Some? {
        var elapsed := candle.timestamp - trade.entryTimestamp;
        if elapsed >= strategy.timeExitMinutes.value * MINUTE {
          return Some(P.Exit(TimeExit, candle.close));
        }
      }
      return None;
    }

    /** Opens a trade at the bar's open. */
    method Open(sig: Signal, candle: Candle, ghost book: P.Book)
      requires Follows(book) && book.open.None?
      modifies `openTrade
      ensures Follows(P.Book(Some(P.EntryAt(sig, candle)), book.next, book.closed))
    {
      openTrade := Some(Opened(P.EntryAt(sig, candle), pricing.qty));
    }

    /** One scheduled signal: ignored in the direction of the open trade, a reversal against it. */
    method TakeSignal(sig: Signal, candle: Candle, ghost book: P.Book)
      requires Follows(book)
      modifies this
      ensures Follows(P.TakeSignal(book, sig, candle))
    {
      sigIdx := sigIdx + 1;
      ghost var b := P.Book(book.open, book.next + 1, book.closed);
      if openTrade.Some? {
        if openTrade.value.side == sig.side {
          return;
        }
        CloseAndRecord(candle.open, candle.timestamp, SignalReversal, b);
        b := P.Book(None, b.next,
                    b.closed + [P.RoundTrip(book.open.value, candle.timestamp, candle.open, SignalReversal)]);
      }
      Open(sig, candle, b);
    }

    /** One trade bar: exits first, then every signal that executes on it. */
    method Step(candle: Candle, scheduled: seq<Scheduled>, ghost book: P.Book)
      requires Follows(book)
      modifies this
      ensures Follows(P.Bar(book, candle, scheduled, strategy))
    {
      ghost var b := P.CloseOnBar(book, candle, strategy);
      if openTrade.Some? {
        var hit := CheckExitConditions(candle, book.open.value);
        if hit.Some? {
          CloseAndRecord(hit.value.price, candle.timestamp, hit.value.reason, book);
        }
      }
      while sigIdx < |scheduled| && scheduled[sigIdx].executionTimestamp == candle.timestamp
        invariant Follows(b)
        invariant P.TakeSignals(b, scheduled, candle) == P.Bar(book, candle, scheduled, strategy)
        decreases |scheduled| - sigIdx
      {
        ghost var sig := scheduled[sigIdx].signal;
        TakeSignal(scheduled[sigIdx].signal, candle, b);
        b := P.TakeSignal(b, sig, candle);
      }
    }

    /** All trade bars, then the forced close at the last one. */
    method Simulate(bars: seq<Candle>, scheduled: seq<Scheduled>)
      requires Follows(P.EMPTY_BOOK) && |bars| > 0
      modifies this
      ensures trades == SettleAll(pricing, P.RoundTrips(bars, scheduled, strategy))
      ensures sigIdx == P.Run(bars, scheduled, strategy, |bars|).next
      ensures AccountKept()
    {
      for i := 0 to |bars|
        invariant Follows(P.Run(bars, scheduled, strategy, i))
      {
        Step(bars[i], scheduled, P.Run(bars, scheduled, strategy, i));
      }
      if openTrade.Some? {
        var last := bars[|bars| - 1];
        CloseAndRecord(last.close, last.timestamp, EndOfData, P.Run(bars, scheduled, strategy, |bars|));
      }
    }
  }

  method Summarise(trades: seq<Trade>, maxDrawdown: real, slippagePct: real, ghost capital: real)
    returns (r: BacktestResult)
    requires maxDrawdown == AccountAfter(capital, trades, |trades|).maxDrawdown
    ensures r == Summary(trades, capital, slippagePct)
  {
    var grossPnL, totalCharges, slippage := 0.0, 0.0, 0.0;
    var winCount, lossCount := 0, 0;
    for i := 0 to |trades|
      invariant grossPnL == SumOf(trades, GrossPnL, i) && totalCharges == SumOf(trades, TotalCharges, i)
      invariant slippage == SumOf(trades, SlippageCost, i)
      invariant winCount == Wins(trades, i) && lossCount == Losses(trades, i)
    {
      var tr := trades[i];
      grossPnL := grossPnL + tr.grossPnL;
      totalCharges := totalCharges + tr.charges.total;
      slippage := slippage + tr.slippage;
      if tr.netPnL > 0.0 {
        winCount := winCount + 1;
      } else if tr.netPnL < 0.0 {
        lossCount := lossCount + 1;
      }
    }
    r := BacktestResult(trades, grossPnL, totalCharges, slippage, slippagePct, grossPnL - totalCharges - slippage,
                        |trades|, winCount, lossCount, Round4(maxDrawdown));
  }

  /** The engine's entry point. Candle streams must be in chronological order. */
  method RunBacktest(charges: ChargeCalculator, strategy: Strategy, inputs: EngineInputs, cfg: RunConfig)
    returns (r: Result<BacktestResult>)
    requires Chronological(inputs.signalCandles) && Chronological(inputs.tradeCandles)
    ensures r == Backtest(charges, strategy, inputs, cfg)
  {
    if |inputs.signalCandles| == 0 || |inputs.tradeCandles| == 0 {
      return Ok(EMPTY_RESULT);
    }
    var evaluated := Evaluator.Evaluate(strategy.entryCondition, inputs.signalCandles);
    if evaluated.Err? {
      return Err(evaluated.error);
    }
    var interval := IntervalDuration(inputs.interval);
    if interval.None? {
      return Err(UNKNOWN_INTERVAL + inputs.interval);
    }
    Evaluator.EvaluationChronological(strategy.entryCondition, inputs.signalCandles);
    var scheduled := ScheduleSignals(evaluated.value, inputs.tradeCandles, interval.value);
    var lotSize := if strategy.lotSize <= 0 then 1 else strategy.lotSize;
    var lots := if cfg.lots <= 0 then 1 else cfg.lots;
    var pricing := Pricing(charges, strategy.segment, lotSize * lots, cfg.slippagePct);
    var session := new Session(pricing, strategy, cfg.initialCapital);
    session.Simulate(inputs.tradeCandles, scheduled);
    var result := Summarise(session.trades, session.maxDrawdown, cfg.slippagePct, cfg.initialCapital);
    return Ok(result);
  }

  lemma AccountOfPrefix(capital: real, trades: seq<Trade>, t: Trade)
    ensures AccountAfter(capital, trades + [t], |trades| + 1) == Post(AccountAfter(capital, trades, |trades|), t.netPnL)
  {
    AccountAgrees(capital, trades, trades + [t], |trades|);
  }

  lemma {:induction false} AccountAgrees(capital: real, xs: seq<Trade>, ys: seq<Trade>, n: nat)
    requires n <= |xs| && n <= |ys| && xs[..n] == ys[..n]
    ensures AccountAfter(capital, xs, n) == AccountAfter(capital, ys, n)
  {
    if n > 0 {
      assert xs[..n][..n - 1] == xs[..n - 1] && ys[..n][..n - 1] == ys[..n - 1];
      assert xs[n - 1] == xs[..n][n - 1] && ys[n - 1] == ys[..n][n - 1];
      AccountAgrees(capital, xs, ys, n - 1);
    }
  }
}
