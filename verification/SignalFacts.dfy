/** What the five evaluators signal, told from closes, highs, volumes and readings at single bars: which bars carry a
    BUY, which a SELL, and that nothing else is emitted. */
module SignalFacts {
  import opened Types
  import opened Series
  import Indicators
  import Trend
  import Evaluator
  import opened IndicatorFacts

  function ClosePrices(cs: seq<Candle>): seq<real> {
    seq(|cs|, i requires 0 <= i < |cs| => cs[i].close)
  }

  // ---------------------------------------------------------------- the conditions at one bar

  predicate ShortOverLong(cs: seq<Candle>, i: nat)
    requires 20 <= i < |cs|
  {
    RangeSum(ClosePrices(cs), i - 8, i + 1) / 9.0 > RangeSum(ClosePrices(cs), i - 20, i + 1) / 21.0
  }

  /** The share of the rises in all movement of the closes, averaged over fourteen bars. */
  function Strength(cs: seq<Candle>, i: nat): real
    requires 14 <= i < |cs|
  {
    Share(MoveAverage(true, ClosePrices(cs), 14, i), MoveAverage(false, ClosePrices(cs), 14, i))
  }

  function Direction(cs: seq<Candle>, i: nat): int
    requires 9 <= i < |cs|
  {
    Trend.StAt(cs, 10, 3.0, i).dir
  }

  /** The close is positive and above each of the last twenty highs; with fewer bars before it no bar is. */
  predicate AboveHighs(cs: seq<Candle>, i: nat)
    requires i < |cs|
  {
    i >= 20 && cs[i].close > 0.0 && forall j :: i - 20 <= j < i ==> cs[j].high < cs[i].close
  }

  /** The last twenty bars, this one included, traded something. */
  predicate Traded(cs: seq<Candle>, i: nat)
    requires 19 <= i < |cs|
  {
    VolumeSum(cs, i - 19, i + 1) > 0
  }

  /** The close is above the mean of the typical prices of the last twenty bars, weighted by volume. */
  predicate AboveMean(cs: seq<Candle>, i: nat)
    requires 19 <= i < |cs|
  {
    3.0 * cs[i].close * VolumeSum(cs, i - 19, i + 1) as real > ThreefoldValue(cs, i - 19, i + 1)
  }

  /** The bars that carry a BUY. */
  ghost predicate Buys(kind: Kind, cs: seq<Candle>, i: nat)
    requires i < |cs|
  {
    match kind
    case MaCrossover => i >= 21 && !ShortOverLong(cs, i - 1) && ShortOverLong(cs, i)
    case Supertrend => i >= 10 && Direction(cs, i - 1) == -1 && Direction(cs, i) == 1
    case RsiOversold => i >= 15 && Strength(cs, i - 1) >= 30.0 && Strength(cs, i) < 30.0
    case Momentum => i >= 20 && !AboveHighs(cs, i - 1) && AboveHighs(cs, i)
    case VwapCrossover =>
      i >= 20 && Traded(cs, i - 1) && Traded(cs, i) && !AboveMean(cs, i - 1) && AboveMean(cs, i)
  }

  /** The bars that carry a SELL. */
  ghost predicate Sells(kind: Kind, cs: seq<Candle>, i: nat)
    requires i < |cs|
  {
    match kind
    case MaCrossover => i >= 21 && ShortOverLong(cs, i - 1) && !ShortOverLong(cs, i)
    case Supertrend => i >= 10 && Direction(cs, i - 1) == 1 && Direction(cs, i) == -1
    case RsiOversold => i >= 15 && Strength(cs, i - 1) <= 70.0 && Strength(cs, i) > 70.0
    case Momentum => i >= 20 && AboveHighs(cs, i - 1) && !AboveHighs(cs, i)
    case VwapCrossover =>
      i >= 20 && Traded(cs, i - 1) && Traded(cs, i) && AboveMean(cs, i - 1) && !AboveMean(cs, i)
  }

  // ---------------------------------------------------------------- the evaluators' own terms agree

  lemma ClosesArePrices(cs: seq<Candle>)
    ensures Trend.Closes(cs) == ClosePrices(cs)
  {
  }

  lemma MaStateIs(cs: seq<Candle>, i: nat)
    requires 20 <= i < |cs|
    ensures var c := Trend.Closes(cs);
            var short, long := Indicators.SmaAt(c, Evaluator.SHORT_MA, i), Indicators.SmaAt(c, Evaluator.LONG_MA, i);
            Evaluator.Greater(short, long) <==> ShortOverLong(cs, i)
  {
    ClosesArePrices(cs);
    SmaIsMean(ClosePrices(cs), 9, i);
    SmaIsMean(ClosePrices(cs), 21, i);
  }

  lemma {:induction false} PeriodHighIs(window: seq<Candle>, x: real)
    ensures x > Evaluator.PeriodHigh(window) <==> x > 0.0 && forall j :: 0 <= j < |window| ==> window[j].high < x
  {
    if |window| > 0 {
      PeriodHighIs(window[..|window| - 1], x);
    }
  }

  lemma BreakoutStateIs(cs: seq<Candle>, i: nat)
    requires i < |cs|
    ensures Evaluator.BrokeOut(cs, i) <==> AboveHighs(cs, i)
  {
    if i >= 20 {
      var window := cs[i - 20..i];
      PeriodHighIs(window, cs[i].close);
      assert forall j :: i - 20 <= j < i ==> cs[j] == window[j - (i - 20)];
    }
  }

  lemma AboveBalance(close: real, mean: real, volume: real, threefold: real)
    requires volume > 0.0 && 3.0 * mean * volume == threefold
    ensures close > mean <==> 3.0 * close * volume > threefold
  {
    assert 3.0 * close * volume - threefold == 3.0 * ((close - mean) * volume);
    assert close > mean <==> (close - mean) * volume > 0.0;
  }

  lemma VwapStateIs(cs: seq<Candle>, i: nat)
    requires 19 <= i < |cs|
    ensures Evaluator.VwapState(cs[i].close, Trend.VwapAt(cs, Evaluator.VWAP_PERIOD, i)) ==
            if Traded(cs, i) then Some(AboveMean(cs, i)) else None
  {
    VwapBalances(cs, 20, i);
    var r := Trend.VwapAt(cs, 20, i);
    if r.Some? {
      AboveBalance(cs[i].close, r.value, VolumeSum(cs, i - 19, i + 1) as real, ThreefoldValue(cs, i - 19, i + 1));
    }
  }

  // ---------------------------------------------------------------- the side of one bar

  ghost predicate SideTold(kind: Kind, cs: seq<Candle>, i: nat)
    requires i < |cs|
  {
    && (Evaluator.Sides(kind, cs)[i] == Some(Buy) <==> Buys(kind, cs, i))
    && (Evaluator.Sides(kind, cs)[i] == Some(Sell) <==> Sells(kind, cs, i))
  }

  lemma MaSideTold(cs: seq<Candle>, i: nat)
    requires 21 <= i < |cs|
    ensures SideTold(MaCrossover, cs, i)
  {
    Evaluator.MaSide(cs, i);
    MaStateIs(cs, i - 1);
    MaStateIs(cs, i);
  }

  lemma DirectionIs(cs: seq<Candle>, i: nat)
    requires 9 <= i < |cs|
    ensures Evaluator.State(Supertrend, cs[..i + 1]) == Some(Direction(cs, i) == 1)
    ensures Direction(cs, i) in {1, -1}
  {
    Evaluator.StOfHistory(cs, 10, 3.0, i);
    Trend.DirIsUnit(cs, 10, 3.0, i);
  }

  lemma SupertrendSideTold(cs: seq<Candle>, i: nat)
    requires 10 <= i < |cs|
    ensures SideTold(Supertrend, cs, i)
  {
    Evaluator.SideIsCross(Supertrend, cs, i);
    assert cs[..i - 1 + 1] == cs[..i];
    DirectionIs(cs, i - 1);
    DirectionIs(cs, i);
  }

  lemma RsiSideTold(cs: seq<Candle>, i: nat)
    requires 15 <= i < |cs|
    ensures SideTold(RsiOversold, cs, i)
  {
    Evaluator.RsiSideIs(cs, i);
    ClosesArePrices(cs);
    RsiIsShareOfRises(ClosePrices(cs), 14, i - 1);
    RsiIsShareOfRises(ClosePrices(cs), 14, i);
  }

  lemma MomentumSideTold(cs: seq<Candle>, i: nat)
    requires 20 <= i < |cs|
    ensures SideTold(Momentum, cs, i)
  {
    Evaluator.SideIsCross(Momentum, cs, i);
    Evaluator.BreakoutIs(cs, i - 1);
    Evaluator.BreakoutIs(cs, i);
    BreakoutStateIs(cs, i - 1);
    BreakoutStateIs(cs, i);
  }

  lemma VwapSideTold(cs: seq<Candle>, i: nat)
    requires 20 <= i < |cs|
    ensures SideTold(VwapCrossover, cs, i)
  {
    Evaluator.SideIsCross(VwapCrossover, cs, i);
    Evaluator.AboveVwapIs(cs, i - 1);
    Evaluator.AboveVwapIs(cs, i);
    VwapStateIs(cs, i - 1);
    VwapStateIs(cs, i);
  }

  lemma SidesAreTold(kind: Kind, cs: seq<Candle>, i: nat)
    requires i < |cs|
    ensures SideTold(kind, cs, i)
  {
    Evaluator.WarmupIsSilent(kind, cs);
    match kind
    case MaCrossover => if i >= 21 { MaSideTold(cs, i); }
    case Supertrend => if i >= 10 { SupertrendSideTold(cs, i); }
    case RsiOversold => if i >= 15 { RsiSideTold(cs, i); }
    case Momentum => if i >= 20 { MomentumSideTold(cs, i); }
    case VwapCrossover => if i >= 20 { VwapSideTold(cs, i); }
  }

  // ---------------------------------------------------------------- the list of signals

  /** The bars `at` are those of the first `n` that have a side, in order, and the signals are theirs. */
  ghost predicate Placed(signals: seq<Signal>, at: seq<nat>, kind: Kind, cs: seq<Candle>, sides: seq<Option<Side>>,
                         n: nat)
    requires n <= |cs| == |sides|
  {
    && |at| == |signals|
    && (forall k :: 0 <= k < |at| ==> at[k] < n && sides[at[k]] == Some(signals[k].side))
    && (forall k :: 0 <= k < |at| ==> IsSignalOf(signals[k], kind, cs, at[k]))
    && (forall k, l :: 0 <= k < l < |at| ==> at[k] < at[l])
    && (forall i :: 0 <= i < n && sides[i].Some? ==> i in at)
  }

  /** The signal carries the bar's time and close, and names its evaluator and side. */
  ghost predicate IsSignalOf(s: Signal, kind: Kind, cs: seq<Candle>, i: nat) {
    i < |cs| && s == Signal(cs[i].timestamp, s.side, cs[i].close, Reason(kind, s.side))
  }

  lemma SkipPlaces(signals: seq<Signal>, at: seq<nat>, kind: Kind, cs: seq<Candle>, sides: seq<Option<Side>>, n: nat)
    requires n < |cs| == |sides| && sides[n].None? && Placed(signals, at, kind, cs, sides, n)
    ensures Placed(signals, at, kind, cs, sides, n + 1)
  {
  }

  lemma PushPlaces(signals: seq<Signal>, at: seq<nat>, kind: Kind, cs: seq<Candle>, sides: seq<Option<Side>>, n: nat,
                   s: Signal)
    requires n < |cs| == |sides| && Placed(signals, at, kind, cs, sides, n)
    requires sides[n] == Some(s.side) && IsSignalOf(s, kind, cs, n)
    ensures Placed(signals + [s], at + [n], kind, cs, sides, n + 1)
  {
    var at' := at + [n];
    assert at'[|at|] == n;
    forall i | 0 <= i < n + 1 && sides[i].Some? ensures i in at' {
      assert i < n ==> i in at;
    }
  }

  lemma {:induction false} CollectPlaces(kind: Kind, cs: seq<Candle>, sides: seq<Option<Side>>, n: nat)
    returns (at: seq<nat>)
    requires n <= |cs| == |sides|
    ensures Placed(Evaluator.Collect(kind, cs, sides, n), at, kind, cs, sides, n)
  {
    at := [];
    if n > 0 {
      at := CollectPlaces(kind, cs, sides, n - 1);
      var before := Evaluator.Collect(kind, cs, sides, n - 1);
      match sides[n - 1]
      case None =>
        assert Evaluator.Collect(kind, cs, sides, n) == before;
        SkipPlaces(before, at, kind, cs, sides, n - 1);
      case Some(side) =>
        var s := Signal(cs[n - 1].timestamp, side, cs[n - 1].close, Reason(kind, side));
        PushPlaces(before, at, kind, cs, sides, n - 1, s);
        at := at + [n - 1];
    }
  }

  /** The signals, in the order of their bars `at`: a BUY on exactly the bars that buy, a SELL on exactly those that
      sell, and no other signal. */
  ghost predicate TellsBars(signals: seq<Signal>, at: seq<nat>, kind: Kind, cs: seq<Candle>) {
    && |at| == |signals|
    && (forall k, l :: 0 <= k < l < |at| ==> at[k] < at[l])
    && (forall k :: 0 <= k < |at| ==> IsSignalOf(signals[k], kind, cs, at[k]))
    && (forall k :: 0 <= k < |at| ==> if signals[k].side == Buy then Buys(kind, cs, at[k]) else Sells(kind, cs, at[k]))
    && (forall i :: 0 <= i < |cs| && (Buys(kind, cs, i) || Sells(kind, cs, i)) ==> i in at)
  }

  ghost predicate Tells(r: Result<seq<Signal>>, kind: Kind, cs: seq<Candle>) {
    r.Ok? && exists at: seq<nat> :: TellsBars(r.value, at, kind, cs)
  }

  lemma PlacedTells(signals: seq<Signal>, at: seq<nat>, kind: Kind, cs: seq<Candle>)
    requires Placed(signals, at, kind, cs, Evaluator.Sides(kind, cs), |cs|)
    ensures TellsBars(signals, at, kind, cs)
  {
    forall k | 0 <= k < |at|
      ensures if signals[k].side == Buy then Buys(kind, cs, at[k]) else Sells(kind, cs, at[k])
    {
      SidesAreTold(kind, cs, at[k]);
    }
    forall i | 0 <= i < |cs| && (Buys(kind, cs, i) || Sells(kind, cs, i)) ensures i in at {
      SidesAreTold(kind, cs, i);
    }
  }

  lemma KindTells(condition: string, kind: Kind, cs: seq<Candle>)
    requires Evaluator.ParseKind(condition) == Some(kind)
    ensures Tells(Evaluator.Evaluation(condition, cs), kind, cs)
  {
    if cs == [] {
      assert TellsBars([], [], kind, cs);
    } else {
      var at := CollectPlaces(kind, cs, Evaluator.Sides(kind, cs), |cs|);
      PlacedTells(Evaluator.Signals(kind, cs), at, kind, cs);
    }
  }

  /** Any other condition is refused, with its name in the message, unless there is nothing to evaluate. */
  lemma OthersAreRefused(condition: string, cs: seq<Candle>)
    requires condition !in {"MA_CROSSOVER", "SUPERTREND", "RSI_OVERSOLD", "MOMENTUM", "VWAP_CROSSOVER"}
    ensures Evaluator.Evaluation(condition, cs) ==
            if cs == [] then Ok([]) else Err("unknown entry condition type: " + condition)
  {
  }

  /** Which bars each of the five entry conditions signals on. */
  lemma ConditionsTellBars(cs: seq<Candle>)
    ensures Tells(Evaluator.Evaluation("MA_CROSSOVER", cs), MaCrossover, cs)
    ensures Tells(Evaluator.Evaluation("SUPERTREND", cs), Supertrend, cs)
    ensures Tells(Evaluator.Evaluation("RSI_OVERSOLD", cs), RsiOversold, cs)
    ensures Tells(Evaluator.Evaluation("MOMENTUM", cs), Momentum, cs)
    ensures Tells(Evaluator.Evaluation("VWAP_CROSSOVER", cs), VwapCrossover, cs)
  {
    KindTells("MA_CROSSOVER", MaCrossover, cs);
    KindTells("SUPERTREND", Supertrend, cs);
    KindTells("RSI_OVERSOLD", RsiOversold, cs);
    KindTells("MOMENTUM", Momentum, cs);
    KindTells("VWAP_CROSSOVER", VwapCrossover, cs);
  }
}
