/** Signal generation: each evaluator scans the candles once and emits a signal where its state crosses over. */
module Evaluator {
  import opened Types
  import Indicators
  import Trend

  const SHORT_MA := 9
  const LONG_MA := 21
  const SUPERTREND_PERIOD := 10
  const SUPERTREND_MULTIPLIER := 3.0
  const RSI_PERIOD := 14
  const RSI_OVERSOLD := 30.0
  const RSI_OVERBOUGHT := 70.0
  const MOMENTUM_LOOKBACK := 20
  const VWAP_PERIOD := 20

  function ParseKind(condition: string): Option<Kind> {
    match condition
    case "MA_CROSSOVER" => Some(MaCrossover)
    case "SUPERTREND" => Some(Supertrend)
    case "RSI_OVERSOLD" => Some(RsiOversold)
    case "MOMENTUM" => Some(Momentum)
    case "VWAP_CROSSOVER" => Some(VwapCrossover)
    case _ => None
  }

  // ---------------------------------------------------------------- reference definition

  /** A comparison of readings; like NaN, an undefined reading compares false. */
  predicate Greater(x: Option<real>, y: Option<real>) {
    x.Some? && y.Some? && x.value > y.value
  }

  function PeriodHigh(window: seq<Candle>): real {
    if |window| == 0 then 0.0 else Trend.Max(window[|window| - 1].high, PeriodHigh(window[..|window| - 1]))
  }

  predicate ShortAbove(h: seq<Candle>)
    requires |h| > 0
  {
    Greater(Indicators.SmaAt(Trend.Closes(h), SHORT_MA, |h| - 1), Indicators.SmaAt(Trend.Closes(h), LONG_MA, |h| - 1))
  }

  predicate Bullish(h: seq<Candle>)
    requires |h| > 0
  {
    |h| < SUPERTREND_PERIOD || Trend.StAt(h, SUPERTREND_PERIOD, SUPERTREND_MULTIPLIER, |h| - 1).dir == 1
  }

  predicate InBreakout(h: seq<Candle>)
    requires |h| > 0
  {
    |h| > MOMENTUM_LOOKBACK && h[|h| - 1].close > PeriodHigh(h[|h| - 1 - MOMENTUM_LOOKBACK..|h| - 1])
  }

  function AboveVwap(h: seq<Candle>): Option<bool>
    requires |h| > 0
  {
    var v := Trend.VwapAt(h, VWAP_PERIOD, |h| - 1);
    if v.None? then None else Some(h[|h| - 1].close > v.value)
  }

  function RsiNow(h: seq<Candle>): Option<real>
    requires |h| > 0
  {
    Indicators.RsiAt(Trend.Closes(h), RSI_PERIOD, |h| - 1)
  }

  /** The first index at which an evaluator looks for a signal. */
  function Warmup(kind: Kind): nat {
    match kind
    case MaCrossover => LONG_MA
    case Supertrend => SUPERTREND_PERIOD
    case RsiOversold => RSI_PERIOD + 1
    case Momentum => MOMENTUM_LOOKBACK
    case VwapCrossover => VWAP_PERIOD
  }

  /** The two-valued state whose changes are the signals, at the last bar of a history. It is undefined for VWAP
      without volume; RSI is not of this form. */
  function State(kind: Kind, h: seq<Candle>): Option<bool>
    requires |h| > 0
  {
    match kind
    case MaCrossover => Some(ShortAbove(h))
    case Supertrend => Some(Bullish(h))
    case Momentum => Some(InBreakout(h))
    case VwapCrossover => AboveVwap(h)
    case RsiOversold => None
  }

  function CrossSide(prev: Option<bool>, now: Option<bool>): Option<Side> {
    if prev.None? || now.None? || prev == now then None else Some(if now.value then Buy else Sell)
  }

  function RsiSide(prev: Option<real>, now: Option<real>): Option<Side> {
    if prev.None? || now.None? then None
    else if now.value < RSI_OVERSOLD && prev.value >= RSI_OVERSOLD then Some(Buy)
    else if now.value > RSI_OVERBOUGHT && prev.value <= RSI_OVERBOUGHT then Some(Sell)
    else None
  }

  /** The side signalled at the last bar of a history, if any. */
  function SideOn(kind: Kind, h: seq<Candle>): Option<Side>
    requires |h| > 0
  {
    if |h| <= Warmup(kind) then None
    else if kind == RsiOversold then RsiSide(RsiNow(h[..|h| - 1]), RsiNow(h))
    else CrossSide(State(kind, h[..|h| - 1]), State(kind, h))
  }

  function Sides(kind: Kind, cs: seq<Candle>): (r: seq<Option<Side>>)
    ensures |r| == |cs|
  {
    seq(|cs|, i requires 0 <= i < |cs| => SideOn(kind, cs[..i + 1]))
  }

  /** The signals of the first `n` bars, for given sides per bar. */
  function Collect(kind: Kind, cs: seq<Candle>, sides: seq<Option<Side>>, n: nat): seq<Signal>
    requires n <= |cs| == |sides|
  {
    if n == 0 then [] else Collect(kind, cs, sides, n - 1) + Emit(kind, cs[n - 1], sides[n - 1])
  }

  function Emit(kind: Kind, c: Candle, side: Option<Side>): seq<Signal> {
    if side.None? then [] else [Signal(c.timestamp, side.value, c.close, Reason(kind, side.value))]
  }

  function Signals(kind: Kind, cs: seq<Candle>): seq<Signal> {
    Collect(kind, cs, Sides(kind, cs), |cs|)
  }

  const UNKNOWN_CONDITION := "unknown entry condition type: "

  /** What the dispatcher returns: nothing for no candles, an error for an unknown condition, else the signals. */
  function Evaluation(condition: string, cs: seq<Candle>): Result<seq<Signal>> {
    if |cs| == 0 then Ok([])
    else
      match ParseKind(condition)
      case Some(kind) => Ok(Signals(kind, cs))
      case None => Err(UNKNOWN_CONDITION + condition)
  }

  // ---------------------------------------------------------------- the scanning loops

  ghost predicate SilentBefore(sides: seq<Option<Side>>, n: nat) {
    forall i :: 0 <= i < n && i < |sides| ==> sides[i] == None
  }

  lemma {:induction false} CollectSilent(kind: Kind, cs: seq<Candle>, sides: seq<Option<Side>>, n: nat)
    requires n <= |cs| == |sides| && SilentBefore(sides, n)
    ensures Collect(kind, cs, sides, n) == []
  {
    if n > 0 { CollectSilent(kind, cs, sides, n - 1); }
  }

  function Min(a: nat, b: nat): nat { if a < b then a else b }

  method ScanMACrossover(cs: seq<Candle>, shortMA: seq<Option<real>>, longMA: seq<Option<real>>,
                         ghost sides: seq<Option<Side>>)
    returns (signals: seq<Signal>)
    requires |shortMA| == |longMA| == |sides| == |cs| && SilentBefore(sides, LONG_MA)
    requires forall i :: LONG_MA <= i < |cs| ==>
               sides[i] == CrossSide(Some(Greater(shortMA[i - 1], longMA[i - 1])), Some(Greater(shortMA[i], longMA[i])))
    ensures signals == Collect(MaCrossover, cs, sides, |cs|)
  {
    signals := [];
    CollectSilent(MaCrossover, cs, sides, Min(LONG_MA, |cs|));
    for i := Min(LONG_MA, |cs|) to |cs|
      invariant signals == Collect(MaCrossover, cs, sides, i)
    {
      var prevShortAbove := Greater(shortMA[i - 1], longMA[i - 1]);
      var currShortAbove := Greater(shortMA[i], longMA[i]);
      if currShortAbove && !prevShortAbove {
        signals := signals + Emit(MaCrossover, cs[i], Some(Buy));
      } else if !currShortAbove && prevShortAbove {
        signals := signals + Emit(MaCrossover, cs[i], Some(Sell));
      }
    }
  }

  method ScanSupertrend(cs: seq<Candle>, dir: seq<int>, ghost sides: seq<Option<Side>>) returns (signals: seq<Signal>)
    requires |dir| == |sides| == |cs| && SilentBefore(sides, SUPERTREND_PERIOD)
    requires forall i :: 0 <= i < |cs| ==> dir[i] == 1 || dir[i] == -1
    requires forall i :: SUPERTREND_PERIOD <= i < |cs| ==>
             sides[i] == CrossSide(Some(dir[i - 1] == 1), Some(dir[i] == 1))
    ensures signals == Collect(Supertrend, cs, sides, |cs|)
  {
    signals := [];
    CollectSilent(Supertrend, cs, sides, Min(SUPERTREND_PERIOD, |cs|));
    for i := Min(SUPERTREND_PERIOD, |cs|) to |cs|
      invariant signals == Collect(Supertrend, cs, sides, i)
    {
      if dir[i] == 1 && dir[i - 1] == -1 {
        signals := signals + Emit(Supertrend, cs[i], Some(Buy));
      } else if dir[i] == -1 && dir[i - 1] == 1 {
        signals := signals + Emit(Supertrend, cs[i], Some(Sell));
      }
    }
  }

  method ScanRSI(cs: seq<Candle>, rsi: seq<Option<real>>, ghost sides: seq<Option<Side>>) returns (signals: seq<Signal>)
    requires |rsi| == |sides| == |cs| && SilentBefore(sides, RSI_PERIOD + 1)
    requires forall i :: RSI_PERIOD <= i < |cs| ==> rsi[i].Some?
    requires forall i :: RSI_PERIOD + 1 <= i < |cs| ==> sides[i] == RsiSide(rsi[i - 1], rsi[i])
    ensures signals == Collect(RsiOversold, cs, sides, |cs|)
  {
    signals := [];
    CollectSilent(RsiOversold, cs, sides, Min(RSI_PERIOD + 1, |cs|));
    for i := Min(RSI_PERIOD + 1, |cs|) to |cs|
      invariant signals == Collect(RsiOversold, cs, sides, i)
    {
      var prev, now := rsi[i - 1].value, rsi[i].value;
      assert sides[i] == RsiSide(Some(prev), Some(now));
      if now < RSI_OVERSOLD && prev >= RSI_OVERSOLD {
        signals := signals + Emit(RsiOversold, cs[i], Some(Buy));
      } else if now > RSI_OVERBOUGHT && prev <= RSI_OVERBOUGHT {
        signals := signals + Emit(RsiOversold, cs[i], Some(Sell));
      }
    }
  }

  method HighOfPeriod(cs: seq<Candle>, i: nat) returns (periodHigh: real)
    requires MOMENTUM_LOOKBACK <= i <= |cs|
    ensures periodHigh == PeriodHigh(cs[i - MOMENTUM_LOOKBACK..i])
  {
    periodHigh := 0.0;
    for j := i - MOMENTUM_LOOKBACK to i
      invariant periodHigh == PeriodHigh(cs[i - MOMENTUM_LOOKBACK..j])
    {
      assert cs[i - MOMENTUM_LOOKBACK..j + 1][..j - (i - MOMENTUM_LOOKBACK)] == cs[i - MOMENTUM_LOOKBACK..j];
      if cs[j].high > periodHigh {
        periodHigh := cs[j].high;
      }
    }
  }

  predicate BrokeOut(cs: seq<Candle>, i: nat)
    requires i < |cs|
  {
    i >= MOMENTUM_LOOKBACK && cs[i].close > PeriodHigh(cs[i - MOMENTUM_LOOKBACK..i])
  }

  method ScanMomentum(cs: seq<Candle>, ghost sides: seq<Option<Side>>) returns (signals: seq<Signal>)
    requires |sides| == |cs| && SilentBefore(sides, MOMENTUM_LOOKBACK)
    requires forall i :: MOMENTUM_LOOKBACK <= i < |cs| ==>
             sides[i] == CrossSide(Some(BrokeOut(cs, i - 1)), Some(BrokeOut(cs, i)))
    ensures signals == Collect(Momentum, cs, sides, |cs|)
  {
    var n := |cs|;
    if n <= MOMENTUM_LOOKBACK {
      CollectSilent(Momentum, cs, sides, n);
      return [];
    }
    signals := [];
    var inBreakout := false;
    CollectSilent(Momentum, cs, sides, MOMENTUM_LOOKBACK);
    for i := MOMENTUM_LOOKBACK to n
      invariant signals == Collect(Momentum, cs, sides, i)
      invariant inBreakout == BrokeOut(cs, i - 1)
    {
      var periodHigh := HighOfPeriod(cs, i);
      assert BrokeOut(cs, i) <==> cs[i].close > periodHigh;
      if cs[i].close > periodHigh && !inBreakout {
        signals := signals + Emit(Momentum, cs[i], Some(Buy));
        inBreakout := true;
      } else if cs[i].close <= periodHigh {
        if inBreakout {
          signals := signals + Emit(Momentum, cs[i], Some(Sell));
        }
        inBreakout := false;
      }
    }
  }

  function VwapState(close: real, vwap: Option<real>): Option<bool> {
    if vwap.None? then None else Some(close > vwap.value)
  }

  method ScanVWAPCrossover(cs: seq<Candle>, vwap: seq<Option<real>>, ghost sides: seq<Option<Side>>)
    returns (signals: seq<Signal>)
    requires |vwap| == |sides| == |cs| && SilentBefore(sides, VWAP_PERIOD)
    requires forall i :: VWAP_PERIOD <= i < |cs| ==>
               sides[i] == CrossSide(VwapState(cs[i - 1].close, vwap[i - 1]), VwapState(cs[i].close, vwap[i]))
    ensures signals == Collect(VwapCrossover, cs, sides, |cs|)
  {
    signals := [];
    CollectSilent(VwapCrossover, cs, sides, Min(VWAP_PERIOD, |cs|));
    for i := Min(VWAP_PERIOD, |cs|) to |cs|
      invariant signals == Collect(VwapCrossover, cs, sides, i)
    {
      if vwap[i] == None || vwap[i - 1] == None {
        continue;
      }
      var prevAbove := cs[i - 1].close > vwap[i - 1].value;
      var currAbove := cs[i].close > vwap[i].value;
      assert sides[i] == CrossSide(Some(prevAbove), Some(currAbove));
      if currAbove && !prevAbove {
        signals := signals + Emit(VwapCrossover, cs[i], Some(Buy));
      } else if !currAbove && prevAbove {
        signals := signals + Emit(VwapCrossover, cs[i], Some(Sell));
      }
    }
  }

  // ---------------------------------------------------------------- the evaluators

  lemma ClosesOfPrefix(cs: seq<Candle>, n: nat)
    requires n <= |cs|
    ensures Trend.Closes(cs[..n]) == Trend.Closes(cs)[..n]
  {
  }

  lemma WarmupIsSilent(kind: Kind, cs: seq<Candle>)
    ensures SilentBefore(Sides(kind, cs), Warmup(kind))
  {
  }

  lemma SmaOfHistory(cs: seq<Candle>, period: int, i: nat)
    requires i < |cs| && 0 < period
    ensures Indicators.SmaAt(Trend.Closes(cs[..i + 1]), period, i) == Indicators.SmaAt(Trend.Closes(cs), period, i)
  {
    ClosesOfPrefix(cs, i + 1);
    if period <= i + 1 {
      assert Trend.Closes(cs)[..i + 1][i + 1 - period..i + 1] == Trend.Closes(cs)[i + 1 - period..i + 1];
    }
  }

  lemma ShortAboveIs(cs: seq<Candle>, i: nat)
    requires i < |cs|
    ensures ShortAbove(cs[..i + 1]) ==
            Greater(Indicators.SmaAt(Trend.Closes(cs), SHORT_MA, i), Indicators.SmaAt(Trend.Closes(cs), LONG_MA, i))
  {
    SmaOfHistory(cs, SHORT_MA, i);
    SmaOfHistory(cs, LONG_MA, i);
  }

  lemma SideIsCross(kind: Kind, cs: seq<Candle>, i: nat)
    requires kind != RsiOversold && Warmup(kind) <= i < |cs|
    ensures Sides(kind, cs)[i] == CrossSide(State(kind, cs[..i]), State(kind, cs[..i + 1]))
  {
    assert cs[..i + 1][..i] == cs[..i];
  }

  lemma MaSide(cs: seq<Candle>, i: nat)
    requires LONG_MA <= i < |cs|
    ensures var c := Trend.Closes(cs);
            Sides(MaCrossover, cs)[i] ==
            CrossSide(Some(Greater(Indicators.SmaAt(c, SHORT_MA, i - 1), Indicators.SmaAt(c, LONG_MA, i - 1))),
                      Some(Greater(Indicators.SmaAt(c, SHORT_MA, i), Indicators.SmaAt(c, LONG_MA, i))))
  {
    SideIsCross(MaCrossover, cs, i);
    ShortAboveIs(cs, i - 1);
    ShortAboveIs(cs, i);
  }

  method EvaluateMACrossover(cs: seq<Candle>) returns (signals: seq<Signal>)
    ensures signals == Signals(MaCrossover, cs)
  {
    var closes := Trend.Closes(cs);
    var shortMA := Indicators.SMA(closes, SHORT_MA);
    var longMA := Indicators.SMA(closes, LONG_MA);
    WarmupIsSilent(MaCrossover, cs);
    forall i | LONG_MA <= i < |cs|
      ensures Sides(MaCrossover, cs)[i] ==
              CrossSide(Some(Greater(shortMA[i - 1], longMA[i - 1])), Some(Greater(shortMA[i], longMA[i])))
    {
      MaSide(cs, i);
    }
    signals := ScanMACrossover(cs, shortMA, longMA, Sides(MaCrossover, cs));
  }

  lemma StOfHistory(cs: seq<Candle>, period: int, multiplier: real, i: nat)
    requires 0 < period <= i + 1 <= |cs|
    ensures Trend.StAt(cs[..i + 1], period, multiplier, i) == Trend.StAt(cs, period, multiplier, i)
  {
    var h := cs[..i + 1];
    forall j | period - 1 <= j <= i
      ensures Trend.BandAt(h, period, multiplier, j) == Trend.BandAt(cs, period, multiplier, j)
    {
      assert h[..j + 1] == cs[..j + 1];
    }
    assert Trend.Bands(h, period, multiplier)[..i + 2 - period] ==
           Trend.Bands(cs, period, multiplier)[..i + 2 - period];
    assert Trend.SeededCloses(h, period)[..i + 2 - period] == Trend.SeededCloses(cs, period)[..i + 2 - period];
  }

  lemma BullishIs(cs: seq<Candle>, st: Option<real>, dir: int, i: nat)
    requires i < |cs| && Trend.SupertrendOutput(cs, SUPERTREND_PERIOD, SUPERTREND_MULTIPLIER, st, dir, i)
    ensures Bullish(cs[..i + 1]) <==> dir == 1
    ensures dir == 1 || dir == -1
  {
    if i + 1 >= SUPERTREND_PERIOD {
      StOfHistory(cs, SUPERTREND_PERIOD, SUPERTREND_MULTIPLIER, i);
      Trend.DirIsUnit(cs, SUPERTREND_PERIOD, SUPERTREND_MULTIPLIER, i);
    }
  }

  method EvaluateSupertrend(cs: seq<Candle>) returns (signals: seq<Signal>)
    ensures signals == Signals(Supertrend, cs)
  {
    var line, dir := Trend.Supertrend(cs, SUPERTREND_PERIOD, SUPERTREND_MULTIPLIER);
    WarmupIsSilent(Supertrend, cs);
    forall i | 0 <= i < |cs|
      ensures Bullish(cs[..i + 1]) <==> dir[i] == 1
      ensures dir[i] == 1 || dir[i] == -1
    {
      BullishIs(cs, line[i], dir[i], i);
    }
    forall i | SUPERTREND_PERIOD <= i < |cs|
      ensures Sides(Supertrend, cs)[i] == CrossSide(Some(dir[i - 1] == 1), Some(dir[i] == 1))
    {
      SideIsCross(Supertrend, cs, i);
      assert Bullish(cs[..i - 1 + 1]) <==> dir[i - 1] == 1;
    }
    signals := ScanSupertrend(cs, dir, Sides(Supertrend, cs));
  }

  lemma RsiSideIs(cs: seq<Candle>, i: nat)
    requires RSI_PERIOD + 1 <= i < |cs|
    ensures var c := Trend.Closes(cs);
            Sides(RsiOversold, cs)[i] ==
              RsiSide(Indicators.RsiAt(c, RSI_PERIOD, i - 1), Indicators.RsiAt(c, RSI_PERIOD, i))
  {
    assert cs[..i + 1][..i] == cs[..i];
    ClosesOfPrefix(cs, i);
    ClosesOfPrefix(cs, i + 1);
    var c := Trend.Closes(cs);
    assert c[..i][..i] == c[..i] && c[..i + 1][..i + 1] == c[..i + 1];
  }

  method EvaluateRSI(cs: seq<Candle>) returns (signals: seq<Signal>)
    ensures signals == Signals(RsiOversold, cs)
  {
    var closes := Trend.Closes(cs);
    var rsi := Indicators.RSI(closes, RSI_PERIOD);
    WarmupIsSilent(RsiOversold, cs);
    forall i | RSI_PERIOD + 1 <= i < |cs| ensures Sides(RsiOversold, cs)[i] == RsiSide(rsi[i - 1], rsi[i]) {
      RsiSideIs(cs, i);
    }
    signals := ScanRSI(cs, rsi, Sides(RsiOversold, cs));
  }

  lemma BreakoutIs(cs: seq<Candle>, i: nat)
    requires i < |cs|
    ensures InBreakout(cs[..i + 1]) == BrokeOut(cs, i)
  {
    if i >= MOMENTUM_LOOKBACK {
      assert cs[..i + 1][i - MOMENTUM_LOOKBACK..i] == cs[i - MOMENTUM_LOOKBACK..i];
    }
  }

  method EvaluateMomentum(cs: seq<Candle>) returns (signals: seq<Signal>)
    ensures signals == Signals(Momentum, cs)
  {
    WarmupIsSilent(Momentum, cs);
    forall i | MOMENTUM_LOOKBACK <= i < |cs|
      ensures Sides(Momentum, cs)[i] == CrossSide(Some(BrokeOut(cs, i - 1)), Some(BrokeOut(cs, i)))
    {
      SideIsCross(Momentum, cs, i);
      BreakoutIs(cs, i - 1);
      BreakoutIs(cs, i);
    }
    signals := ScanMomentum(cs, Sides(Momentum, cs));
  }

  lemma AboveVwapIs(cs: seq<Candle>, i: nat)
    requires i < |cs|
    ensures AboveVwap(cs[..i + 1]) == VwapState(cs[i].close, Trend.VwapAt(cs, VWAP_PERIOD, i))
  {
    if VWAP_PERIOD <= i + 1 {
      assert cs[..i + 1][i + 1 - VWAP_PERIOD..i + 1] == cs[i + 1 - VWAP_PERIOD..i + 1];
    }
  }

  method EvaluateVWAPCrossover(cs: seq<Candle>) returns (signals: seq<Signal>)
    ensures signals == Signals(VwapCrossover, cs)
  {
    var vwap := Trend.RollingVWAP(cs, VWAP_PERIOD);
    WarmupIsSilent(VwapCrossover, cs);
    forall i | VWAP_PERIOD <= i < |cs|
      ensures Sides(VwapCrossover, cs)[i] ==
              CrossSide(VwapState(cs[i - 1].close, vwap[i - 1]), VwapState(cs[i].close, vwap[i]))
    {
      SideIsCross(VwapCrossover, cs, i);
      AboveVwapIs(cs, i - 1);
      AboveVwapIs(cs, i);
    }
    signals := ScanVWAPCrossover(cs, vwap, Sides(VwapCrossover, cs));
  }

  method Evaluate(condition: string, cs: seq<Candle>) returns (r: Result<seq<Signal>>)
    ensures r == Evaluation(condition, cs)
  {
    if |cs| == 0 {
      return Ok([]);
    }
    var signals: seq<Signal>;
    match ParseKind(condition) {
      case Some(MaCrossover) => signals := EvaluateMACrossover(cs);
      case Some(Supertrend) => signals := EvaluateSupertrend(cs);
      case Some(RsiOversold) => signals := EvaluateRSI(cs);
      case Some(Momentum) => signals := EvaluateMomentum(cs);
      case Some(VwapCrossover) => signals := EvaluateVWAPCrossover(cs);
      case None => return Err(UNKNOWN_CONDITION + condition);
    }
    return Ok(signals);
  }

  // ---------------------------------------------------------------- signals follow the candles

  ghost predicate NoneWithin(s: seq<Signal>, cs: seq<Candle>, n: nat, gap: int) {
    forall i, j :: 0 <= i < |s| && n <= j < |cs| ==> s[i].timestamp + gap <= cs[j].timestamp
  }

  lemma EmitApart(s: seq<Signal>, kind: Kind, cs: seq<Candle>, n: nat, side: Option<Side>, gap: int)
    requires n < |cs| && CandlesApart(cs, gap) && SignalsApart(s, gap) && NoneWithin(s, cs, n, gap)
    ensures var r := s + Emit(kind, cs[n], side); SignalsApart(r, gap) && NoneWithin(r, cs, n + 1, gap)
  {
    if side.Some? {
      var r := s + Emit(kind, cs[n], side);
      forall j | n + 1 <= j < |cs| ensures cs[n].timestamp + gap <= cs[j].timestamp {}
    } else {
      assert s + Emit(kind, cs[n], side) == s;
    }
  }

  lemma {:induction false} CollectApart(kind: Kind, cs: seq<Candle>, sides: seq<Option<Side>>, n: nat, gap: int)
    requires n <= |cs| == |sides| && CandlesApart(cs, gap)
    ensures SignalsApart(Collect(kind, cs, sides, n), gap) && NoneWithin(Collect(kind, cs, sides, n), cs, n, gap)
  {
    if n > 0 {
      CollectApart(kind, cs, sides, n - 1, gap);
      EmitApart(Collect(kind, cs, sides, n - 1), kind, cs, n - 1, sides[n - 1], gap);
    }
  }

  /** Signals are at least as far apart as the candles. */
  lemma EvaluationApart(condition: string, cs: seq<Candle>, gap: int)
    requires CandlesApart(cs, gap)
    ensures var r := Evaluation(condition, cs); r.Ok? ==> SignalsApart(r.value, gap)
  {
    var kind := ParseKind(condition);
    if |cs| > 0 && kind.Some? {
      CollectApart(kind.value, cs, Sides(kind.value, cs), |cs|, gap);
    }
  }

  lemma EvaluationChronological(condition: string, cs: seq<Candle>)
    requires Chronological(cs)
    ensures var r := Evaluation(condition, cs); r.Ok? ==> SignalsChronological(r.value)
  {
    EvaluationApart(condition, cs, 0);
  }
}
