/** What the trades of a backtest are, told from candles, percentages and sizes alone: when and at what price each one
    ends, and what it earns and costs. */
module TradeFacts {
  import opened Types
  import P = Positions
  import Engine
  import Exits
  import Guarantees

  // ---------------------------------------------------------------- how a trade ends

  ghost predicate NothingReachedOn(t: Trade, c: Candle, s: Strategy) {
    P.NothingReached(t.side, t.entryPrice, t.entryTimestamp, c, s)
  }

  /** A stop loses exactly its percentage of the entry value, a target gains exactly its own; a time exit is at the
      close of a bar that reached neither level; and without a rule exit nothing was reached after the entry bar. */
  ghost predicate EndsBetween(t: Trade, bars: seq<Candle>, s: Strategy, a: nat, b: nat) {
    && a <= b < |bars| && t.entryTimestamp == bars[a].timestamp && t.entryPrice == bars[a].open
    && t.exitTimestamp == bars[b].timestamp && t.exitReason.Some?
    && (forall j :: a < j < b ==> NothingReachedOn(t, bars[j], s))
    && match t.exitReason.value
       case Target =>
         && a < b && P.ReachedTarget(t.side, t.entryPrice, bars[b], s)
         && t.grossPnL == P.Percent(t.entryPrice, s.targetPct.value) * t.quantity as real
       case StopLoss =>
         && a < b
         && P.ReachedStop(t.side, t.entryPrice, bars[b], s) && !P.ReachedTarget(t.side, t.entryPrice, bars[b], s)
         && t.grossPnL == -(P.Percent(t.entryPrice, s.stopLossPct.value) * t.quantity as real)
       case TimeExit =>
         && a < b && P.TimeUp(t.entryTimestamp, bars[b], s) && t.exitPrice == bars[b].close
         && !P.ReachedTarget(t.side, t.entryPrice, bars[b], s) && !P.ReachedStop(t.side, t.entryPrice, bars[b], s)
       case SignalReversal => (a < b ==> NothingReachedOn(t, bars[b], s)) && t.exitPrice == bars[b].open
       case EndOfData =>
         (a < b ==> NothingReachedOn(t, bars[b], s)) && b == |bars| - 1 && t.exitPrice == bars[b].close
  }

  ghost predicate EndsAsRuled(t: Trade, bars: seq<Candle>, s: Strategy) {
    exists a: nat, b: nat :: EndsBetween(t, bars, s, a, b)
  }

  lemma GrossOfMove(side: Side, price: real, move: real, qty: int)
    ensures Engine.Gross(side, price, if side == Buy then price + move else price - move, qty) == move * qty as real
    ensures Engine.Gross(side, price, if side == Buy then price - move else price + move, qty) == -(move * qty as real)
  {
    var q := qty as real;
    assert (0.0 - move) * q == -(move * q);
  }

  lemma SurvivorReachedNothing(e: P.Entry, bars: seq<Candle>, s: Strategy, a: nat, b: nat)
    requires a <= b < |bars| && Exits.Survives(e, bars, s, a, b)
    ensures forall j :: a < j < b ==> P.NothingReached(e.side, e.price, e.timestamp, bars[j], s)
  {
    forall j | a < j < b ensures P.NothingReached(e.side, e.price, e.timestamp, bars[j], s) {
      P.RuleFiresExactlyWhen(e, bars[j], s);
    }
  }

  lemma SettledEnds(p: Engine.Pricing, rt: P.RoundTrip, bars: seq<Candle>, s: Strategy, a: nat, b: nat)
    requires Exits.Lasted(rt, bars, s, a, b)
    ensures EndsBetween(Engine.Settle(p, rt), bars, s, a, b)
  {
    var e, t := rt.entry, Engine.Settle(p, rt);
    SurvivorReachedNothing(e, bars, s, a, b);
    P.RuleFiresExactlyWhen(e, bars[b], s);
    assert t.grossPnL == Engine.Gross(e.side, e.price, rt.exitPrice, p.qty);
    if rt.exitReason == Target {
      GrossOfMove(e.side, e.price, P.Percent(e.price, s.targetPct.value), p.qty);
    } else if rt.exitReason == StopLoss {
      GrossOfMove(e.side, e.price, P.Percent(e.price, s.stopLossPct.value), p.qty);
    }
  }

  ghost predicate AllEndAsRuled(ts: seq<Trade>, bars: seq<Candle>, s: Strategy) {
    forall i :: 0 <= i < |ts| ==> EndsAsRuled(ts[i], bars, s)
  }

  lemma AllSettledEnd(p: Engine.Pricing, rts: seq<P.RoundTrip>, bars: seq<Candle>, s: Strategy)
    requires Exits.AllAccounted(rts, bars, s)
    ensures AllEndAsRuled(Engine.SettleAll(p, rts), bars, s)
  {
    var ts := Engine.SettleAll(p, rts);
    forall i | 0 <= i < |rts| ensures EndsAsRuled(ts[i], bars, s) {
      assert Exits.Accounted(rts[i], bars, s);
      var a: nat, b: nat :| Exits.Lasted(rts[i], bars, s, a, b);
      SettledEnds(p, rts[i], bars, s, a, b);
      assert EndsBetween(ts[i], bars, s, a, b);
    }
  }

  /** How every trade of every backtest ends. */
  lemma TradesEndAsRuled(charges: ChargeCalculator, strategy: Strategy, inputs: EngineInputs, cfg: RunConfig)
    ensures var b := Engine.Backtest(charges, strategy, inputs, cfg);
            b.Ok? ==> AllEndAsRuled(b.value.trades, inputs.tradeCandles, strategy)
  {
    Engine.BacktestPricesDecisions(charges, strategy, inputs, cfg);
    if Guarantees.Runnable(strategy, inputs) {
      Guarantees.DecisionsAreRoundTrips(strategy, inputs);
      Exits.FirstRuleEndsPosition(inputs.tradeCandles, Guarantees.Queue(strategy, inputs), strategy);
      AllSettledEnd(Engine.PricingOf(charges, strategy, cfg), Engine.Decisions(strategy, inputs).value,
                    inputs.tradeCandles, strategy);
    }
  }

  // ---------------------------------------------------------------- what a trade earns and costs

  /** Lots times lot size, each counting as one when it is not positive. */
  function Size(strategy: Strategy, cfg: RunConfig): int {
    (if strategy.lotSize >= 1 then strategy.lotSize else 1) * (if cfg.lots >= 1 then cfg.lots else 1)
  }

  /** What a leg of the trade turns over. */
  function Turnover(price: real, qty: int): real {
    price * qty as real
  }

  /** The gross of a long is what its exit turns over less what its entry does, and the other way round for a short;
      each leg pays the slippage percentage of its turnover; the calculator is asked about the trade's own segment,
      side, prices and size; and the net is the gross less both costs. */
  ghost predicate PricedAs(t: Trade, charges: ChargeCalculator, strategy: Strategy, cfg: RunConfig) {
    var entry, exit := Turnover(t.entryPrice, t.quantity), Turnover(t.exitPrice, t.quantity);
    && t.quantity == Size(strategy, cfg)
    && t.grossPnL == (if t.side == Buy then exit - entry else entry - exit)
    && t.slippage == P.Percent(entry, cfg.slippagePct) + P.Percent(exit, cfg.slippagePct)
    && t.charges == charges(strategy.segment, t.side, t.entryPrice, t.exitPrice, t.quantity)
    && t.netPnL == t.grossPnL - t.charges.total - t.slippage
  }

  lemma LegsAddUp(side: Side, entryPrice: real, exitPrice: real, qty: int, slippagePct: real)
    ensures var entry, exit := Turnover(entryPrice, qty), Turnover(exitPrice, qty);
            && Engine.Gross(side, entryPrice, exitPrice, qty) == (if side == Buy then exit - entry else entry - exit)
            && Engine.Slippage(slippagePct, entryPrice, exitPrice, qty) ==
               P.Percent(entry, slippagePct) + P.Percent(exit, slippagePct)
  {
    var q, k := qty as real, slippagePct / 100.0;
    assert (exitPrice - entryPrice) * q == exitPrice * q - entryPrice * q;
    assert k * (entryPrice + exitPrice) * q == k * (entryPrice * q) + k * (exitPrice * q);
    LegPercent(entryPrice * q, slippagePct);
    LegPercent(exitPrice * q, slippagePct);
  }

  lemma LegPercent(turnover: real, pct: real)
    ensures P.Percent(turnover, pct) == pct / 100.0 * turnover
  {
    var k := pct / 100.0;
    assert turnover * pct == 100.0 * (k * turnover);
  }

  lemma SettledPriced(charges: ChargeCalculator, strategy: Strategy, cfg: RunConfig, rt: P.RoundTrip)
    ensures PricedAs(Engine.Settle(Engine.PricingOf(charges, strategy, cfg), rt), charges, strategy, cfg)
  {
    var p := Engine.PricingOf(charges, strategy, cfg);
    LegsAddUp(rt.entry.side, rt.entry.price, rt.exitPrice, p.qty, cfg.slippagePct);
  }

  ghost predicate AllPricedAs(ts: seq<Trade>, charges: ChargeCalculator, strategy: Strategy, cfg: RunConfig) {
    forall i :: 0 <= i < |ts| ==> PricedAs(ts[i], charges, strategy, cfg)
  }

  /** What every trade of every backtest earns and costs. */
  lemma TradesArePriced(charges: ChargeCalculator, strategy: Strategy, inputs: EngineInputs, cfg: RunConfig)
    ensures var b := Engine.Backtest(charges, strategy, inputs, cfg);
            b.Ok? ==> AllPricedAs(b.value.trades, charges, strategy, cfg)
  {
    Engine.BacktestPricesDecisions(charges, strategy, inputs, cfg);
    var decided := Engine.Decisions(strategy, inputs);
    if decided.Ok? {
      var ts := Engine.SettleAll(Engine.PricingOf(charges, strategy, cfg), decided.value);
      forall i | 0 <= i < |ts| ensures PricedAs(ts[i], charges, strategy, cfg) {
        SettledPriced(charges, strategy, cfg, decided.value[i]);
      }
    }
  }
}
