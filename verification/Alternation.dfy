/** When crossover evaluators emit alternating sides. */
module Alternation {
  import opened Types
  import opened Evaluator
  import Trend

  ghost predicate Alternating(sides: seq<Side>) {
    forall k :: 0 < k < |sides| ==> sides[k] != sides[k - 1]
  }

  function SidesOf(signals: seq<Signal>): (r: seq<Side>)
    ensures |r| == |signals|
  {
    seq(|signals|, i requires 0 <= i < |signals| => signals[i].side)
  }

  /** The sides emitted by the first `n` bars. */
  function Emitted(sides: seq<Option<Side>>, n: nat): seq<Side>
    requires n <= |sides|
  {
    if n == 0 then []
    else if sides[n - 1].None? then Emitted(sides, n - 1)
    else Emitted(sides, n - 1) + [sides[n - 1].value]
  }

  lemma {:induction false} CollectEmits(kind: Kind, cs: seq<Candle>, sides: seq<Option<Side>>, n: nat)
    requires n <= |cs| == |sides|
    ensures SidesOf(Collect(kind, cs, sides, n)) == Emitted(sides, n)
  {
    if n > 0 { CollectEmits(kind, cs, sides, n - 1); }
  }

  /** The states of an evaluator at every bar. */
  function States(kind: Kind, cs: seq<Candle>): (r: seq<Option<bool>>)
    ensures |r| == |cs|
  {
    seq(|cs|, i requires 0 <= i < |cs| => State(kind, cs[..i + 1]))
  }

  /** The last defined state among the first `n`. */
  function LastDefined(states: seq<Option<bool>>, n: nat): Option<bool>
    requires n <= |states|
  {
    if n == 0 then None else if states[n - 1].Some? then states[n - 1] else LastDefined(states, n - 1)
  }

  /** Bar `j` ends a gap in the state, and the state is not what it was before the gap. */
  predicate HiddenFlip(states: seq<Option<bool>>, j: nat)
    requires j < |states|
  {
    && j > 0 && states[j].Some? && states[j - 1].None?
    && LastDefined(states, j).Some? && states[j] != LastDefined(states, j)
  }

  /** The state is known at bar `j` and the bar before, and changes. */
  predicate Crosses(states: seq<Option<bool>>, warmup: nat, j: nat)
    requires j < |states| && warmup > 0
  {
    j >= warmup && CrossSide(states[j - 1], states[j]).Some?
  }

  /** The flips hidden in gaps since the last crossing among the first `n` bars. */
  function HiddenSince(states: seq<Option<bool>>, warmup: nat, n: nat): nat
    requires n <= |states| && warmup > 0
  {
    if n == 0 || Crosses(states, warmup, n - 1) then 0
    else HiddenSince(states, warmup, n - 1) + if HiddenFlip(states, n - 1) then 1 else 0
  }

  /** Between any two consecutive crossings the state flips an even number of times inside gaps. */
  ghost predicate HiddenFlipsCancel(states: seq<Option<bool>>, warmup: nat, n: nat)
    requires n <= |states| && warmup > 0
  {
    forall i, j :: 0 <= i < j < n && Crosses(states, warmup, i) && Crosses(states, warmup, j) ==>
      HiddenSince(states, warmup, j) % 2 == 0
  }

  ghost predicate CrossesFrom(states: seq<Option<bool>>, sides: seq<Option<Side>>, warmup: nat) {
    && |states| == |sides| && SilentBefore(sides, warmup) && warmup > 0
    && forall i :: warmup <= i < |sides| ==> sides[i] == CrossSide(states[i - 1], states[i])
  }

  lemma {:induction false} SilentSides(sides: seq<Option<Side>>, n: nat)
    requires n <= |sides| && SilentBefore(sides, n)
    ensures Emitted(sides, n) == []
  {
    if n > 0 { SilentSides(sides, n - 1); }
  }

  /** A signal falls on each crossing and nowhere else. */
  lemma SignalOnCrossing(states: seq<Option<bool>>, sides: seq<Option<Side>>, warmup: nat, j: nat)
    requires j < |sides| && CrossesFrom(states, sides, warmup)
    ensures sides[j].Some? <==> Crosses(states, warmup, j)
  {
    assert j >= warmup ==> sides[j] == CrossSide(states[j - 1], states[j]);
  }

  ghost predicate CrossedBefore(states: seq<Option<bool>>, warmup: nat, n: nat)
    requires n <= |states| && warmup > 0
  {
    exists j :: 0 <= j < n && Crosses(states, warmup, j)
  }

  lemma {:induction false} SomeEmitted(states: seq<Option<bool>>, sides: seq<Option<Side>>, warmup: nat, n: nat)
    requires n <= |sides| && CrossesFrom(states, sides, warmup)
    ensures Emitted(sides, n) != [] <==> CrossedBefore(states, warmup, n)
  {
    if n > 0 {
      SomeEmitted(states, sides, warmup, n - 1);
      SignalOnCrossing(states, sides, warmup, n - 1);
    }
  }

  /** The state is the one the last signal left, up to the flips hidden since. */
  lemma {:induction false} StateSinceSignal(states: seq<Option<bool>>, sides: seq<Option<Side>>, warmup: nat, n: nat)
    requires n <= |sides| && CrossesFrom(states, sides, warmup)
    ensures var s := Emitted(sides, n);
            s != [] ==> LastDefined(states, n) == Some((s[|s| - 1] == Buy) == (HiddenSince(states, warmup, n) % 2 == 0))
  {
    if n > 0 {
      StateSinceSignal(states, sides, warmup, n - 1);
      if n <= warmup {
        SilentSides(sides, n);
      } else {
        assert sides[n - 1] == CrossSide(states[n - 2], states[n - 1]);
        assert states[n - 2].Some? ==> LastDefined(states, n - 1) == states[n - 2];
        if sides[n - 1].Some? {
          assert states[n - 1] == Some(sides[n - 1].value == Buy) && HiddenSince(states, warmup, n) == 0;
        } else if HiddenFlip(states, n - 1) {
          OneMoreFlip(HiddenSince(states, warmup, n - 1));
          assert states[n - 1].value != LastDefined(states, n - 1).value;
        }
      }
    }
  }

  lemma OneMoreFlip(flips: nat)
    ensures (flips + 1) % 2 == 0 <==> flips % 2 != 0
  {
  }

  lemma AlternatesOneMore(before: seq<Side>, side: Side)
    ensures Alternating(before + [side]) <==> Alternating(before) && (before != [] ==> before[|before| - 1] != side)
  {
    var after := before + [side];
    if Alternating(after) {
      forall k | 0 < k < |before| ensures before[k] != before[k - 1] {
        assert after[k] != after[k - 1];
      }
      assert before != [] ==> after[|before|] != after[|before| - 1];
    }
  }

  lemma CancelOneMore(states: seq<Option<bool>>, warmup: nat, n: nat)
    requires n < |states| && warmup > 0
    ensures HiddenFlipsCancel(states, warmup, n + 1) <==>
            && HiddenFlipsCancel(states, warmup, n)
            && (Crosses(states, warmup, n) && CrossedBefore(states, warmup, n) ==>
                HiddenSince(states, warmup, n) % 2 == 0)
  {
  }

  /** A signal differs from the one before exactly when the flips hidden in between cancel out. */
  lemma SignalTurns(states: seq<Option<bool>>, sides: seq<Option<Side>>, warmup: nat, n: nat)
    requires n < |sides| && CrossesFrom(states, sides, warmup) && sides[n].Some?
    ensures var s := Emitted(sides, n);
            s != [] ==> (s[|s| - 1] != sides[n].value <==> HiddenSince(states, warmup, n) % 2 == 0)
  {
    StateSinceSignal(states, sides, warmup, n);
    assert sides[n] == CrossSide(states[n - 1], states[n]);
    assert LastDefined(states, n) == states[n - 1];
  }

  lemma SignalAlternates(states: seq<Option<bool>>, sides: seq<Option<Side>>, warmup: nat, n: nat)
    requires n < |sides| && CrossesFrom(states, sides, warmup) && sides[n].Some?
    ensures Alternating(Emitted(sides, n + 1)) <==>
            && Alternating(Emitted(sides, n))
            && (CrossedBefore(states, warmup, n) ==> HiddenSince(states, warmup, n) % 2 == 0)
  {
    SomeEmitted(states, sides, warmup, n);
    SignalTurns(states, sides, warmup, n);
    AlternatesOneMore(Emitted(sides, n), sides[n].value);
  }

  /** One more bar alternates exactly when, if it signals at all, the flips since the last signal cancel out. */
  lemma BarAlternates(states: seq<Option<bool>>, sides: seq<Option<Side>>, warmup: nat, n: nat)
    requires n < |sides| && CrossesFrom(states, sides, warmup)
    ensures Alternating(Emitted(sides, n + 1)) <==>
            && Alternating(Emitted(sides, n))
            && (Crosses(states, warmup, n) && CrossedBefore(states, warmup, n) ==>
                  HiddenSince(states, warmup, n) % 2 == 0)
  {
    SignalOnCrossing(states, sides, warmup, n);
    if sides[n].Some? { SignalAlternates(states, sides, warmup, n); }
  }

  ghost predicate Agreed(states: seq<Option<bool>>, sides: seq<Option<Side>>, warmup: nat, n: nat)
    requires n <= |states| == |sides| && warmup > 0
  {
    Alternating(Emitted(sides, n)) <==> HiddenFlipsCancel(states, warmup, n)
  }

  lemma StepAgrees(states: seq<Option<bool>>, sides: seq<Option<Side>>, warmup: nat, n: nat)
    requires n < |sides| && CrossesFrom(states, sides, warmup) && Agreed(states, sides, warmup, n)
    ensures Agreed(states, sides, warmup, n + 1)
  {
    BarAlternates(states, sides, warmup, n);
    CancelOneMore(states, warmup, n);
  }

  lemma {:induction false} CrossingsAlternate(states: seq<Option<bool>>, sides: seq<Option<Side>>, warmup: nat, n: nat)
    requires n <= |sides| && CrossesFrom(states, sides, warmup)
    ensures Agreed(states, sides, warmup, n)
  {
    if n > 0 {
      CrossingsAlternate(states, sides, warmup, n - 1);
      StepAgrees(states, sides, warmup, n - 1);
    }
  }

  lemma {:induction false} NothingHidden(states: seq<Option<bool>>, warmup: nat, n: nat)
    requires n <= |states| && warmup > 0 && forall j :: 0 <= j < |states| ==> !HiddenFlip(states, j)
    ensures HiddenSince(states, warmup, n) == 0
  {
    if n > 0 { NothingHidden(states, warmup, n - 1); }
  }

  lemma StatesCross(kind: Kind, cs: seq<Candle>)
    requires kind != RsiOversold
    ensures CrossesFrom(States(kind, cs), Sides(kind, cs), Warmup(kind))
  {
    WarmupIsSilent(kind, cs);
    forall i | Warmup(kind) <= i < |cs|
      ensures Sides(kind, cs)[i] == CrossSide(States(kind, cs)[i - 1], States(kind, cs)[i])
    {
      SideIsCross(kind, cs, i);
      assert cs[..i - 1 + 1] == cs[..i];
    }
  }

  /** The signals of a crossover evaluator alternate exactly when the flips hidden between crossings cancel out. The
      condition speaks of the readings and closes alone. */
  lemma SignalsAlternateExactlyWhen(kind: Kind, cs: seq<Candle>)
    requires kind != RsiOversold
    ensures Alternating(SidesOf(Signals(kind, cs))) <==> HiddenFlipsCancel(States(kind, cs), Warmup(kind), |cs|)
  {
    StatesCross(kind, cs);
    CrossingsAlternate(States(kind, cs), Sides(kind, cs), Warmup(kind), |cs|);
    CollectEmits(kind, cs, Sides(kind, cs), |cs|);
  }

  lemma NothingToCancel(states: seq<Option<bool>>, warmup: nat)
    requires warmup > 0 && forall j :: 0 <= j < |states| ==> !HiddenFlip(states, j)
    ensures HiddenFlipsCancel(states, warmup, |states|)
  {
    forall n | 0 <= n <= |states| ensures HiddenSince(states, warmup, n) == 0 {
      NothingHidden(states, warmup, n);
    }
  }

  /** MA crossover, Supertrend and momentum never signal the same side twice in a row, on any candles. */
  lemma SignalsAlternate(kind: Kind, cs: seq<Candle>)
    requires kind == MaCrossover || kind == Supertrend || kind == Momentum
    ensures Alternating(SidesOf(Signals(kind, cs)))
  {
    forall i | 0 <= i < |cs| ensures States(kind, cs)[i].Some? {
      StateDefined(kind, cs[..i + 1]);
    }
    NothingToCancel(States(kind, cs), Warmup(kind));
    SignalsAlternateExactlyWhen(kind, cs);
  }

  lemma StateDefined(kind: Kind, h: seq<Candle>)
    requires |h| > 0 && kind != RsiOversold && kind != VwapCrossover
    ensures State(kind, h).Some?
  {
  }

  /** VWAP crossover alternates whenever every full window traded. */
  lemma VwapAlternatesWithVolume(cs: seq<Candle>)
    requires forall i :: VWAP_PERIOD - 1 <= i < |cs| ==> Trend.VwapAt(cs, VWAP_PERIOD, i).Some?
    ensures Alternating(SidesOf(Signals(VwapCrossover, cs)))
  {
    var states := States(VwapCrossover, cs);
    forall i | 0 <= i < |cs| ensures states[i].Some? <==> i >= VWAP_PERIOD - 1 {
      AboveVwapIs(cs, i);
    }
    Undefined(states, VWAP_PERIOD - 1);
    NothingToCancel(states, VWAP_PERIOD);
    SignalsAlternateExactlyWhen(VwapCrossover, cs);
  }

  lemma {:induction false} Undefined(states: seq<Option<bool>>, n: nat)
    requires forall i :: 0 <= i < n && i < |states| ==> states[i].None?
    ensures n <= |states| ==> LastDefined(states, n).None?
  {
    if 0 < n <= |states| { Undefined(states, n - 1); }
  }

  lemma {:induction false} FirstIsBuy(states: seq<Option<bool>>, sides: seq<Option<Side>>, warmup: nat, n: nat)
    requires n <= |sides| && CrossesFrom(states, sides, warmup)
    requires forall i :: 0 <= i < |states| ==> states[i].Some? && (i < warmup ==> states[i] == Some(false))
    ensures if Emitted(sides, n) != [] then Emitted(sides, n)[0] == Buy else n > 0 ==> states[n - 1] == Some(false)
  {
    if n > 0 { FirstIsBuy(states, sides, warmup, n - 1); }
  }

  /** Momentum always opens with a breakout: its first signal is a BUY. */
  lemma MomentumStartsWithBuy(cs: seq<Candle>)
    ensures var s := SidesOf(Signals(Momentum, cs)); s != [] ==> s[0] == Buy
  {
    StatesCross(Momentum, cs);
    forall i | 0 <= i < |cs|
      ensures States(Momentum, cs)[i] == Some(BrokeOut(cs, i))
    {
      BreakoutIs(cs, i);
    }
    FirstIsBuy(States(Momentum, cs), Sides(Momentum, cs), Warmup(Momentum), |cs|);
    CollectEmits(Momentum, cs, Sides(Momentum, cs), |cs|);
  }

  // ---------------------------------------------------------------- VWAP across a gap without volume

  function GapBar(i: int): Candle {
    if i == 22 then Candle(i, 5.0, 20.0, 5.0, 5.0, 1)
    else if i == 1 then Candle(i, 10.0, 10.0, 10.0, 10.0, 1)
    else
      var p := if i == 20 || i == 23 then 15.0 else 5.0;
      Candle(i, p, p, p, p, 0)
  }

  lemma GapBarFacts(j: int)
    ensures Trend.TradedWithin(GapBar(j), 10.0, 10.0)
    ensures GapBar(j).volume == if j == 1 || j == 22 then 1 else 0
    ensures GapBar(j).close > 10.0 <==> j == 20 || j == 23
  {
  }

  lemma GapReading(cs: seq<Candle>, i: nat)
    requires |cs| == 24 && (forall j :: 0 <= j < 24 ==> cs[j] == GapBar(j)) && 19 <= i < 24
    ensures AboveVwap(cs[..i + 1]) == if i == 21 then None else Some(i == 20 || i == 23)
  {
    var window := cs[i - 19..i + 1];
    forall k | 0 <= k < |window|
      ensures Trend.TradedWithin(window[k], 10.0, 10.0)
      ensures window[k].volume == if k == 20 - i || k == 41 - i then 1 else 0
    {
      GapBarFacts(i - 19 + k);
    }
    GapBarFacts(i);
    GapWindow(window, i);
    AboveVwapIs(cs, i);
  }

  lemma GapWindow(window: seq<Candle>, i: nat)
    requires |window| == 20 && 19 <= i < 24
    requires forall k :: 0 <= k < |window| ==> Trend.TradedWithin(window[k], 10.0, 10.0)
    requires forall k :: 0 <= k < |window| ==> window[k].volume == if k == 20 - i || k == 41 - i then 1 else 0
    ensures Trend.Vwap(window) == if i == 21 then None else Some(10.0)
  {
    Trend.VwapWithin(window, 10.0, 10.0);
    if i <= 20 { assert window[20 - i].volume == 1; }
    if i >= 22 { assert window[41 - i].volume == 1; }
  }

  lemma GapSide(cs: seq<Candle>, i: nat)
    requires |cs| == 24 && (forall j :: 0 <= j < 24 ==> cs[j] == GapBar(j)) && 20 <= i < 24
    ensures Sides(VwapCrossover, cs)[i] == if i == 20 || i == 23 then Some(Buy) else None
  {
    GapReading(cs, i - 1);
    GapReading(cs, i);
    SideIsCross(VwapCrossover, cs, i);
  }

  function GapBars(): seq<Candle> {
    seq(24, i => GapBar(i))
  }

  lemma GapSides()
    ensures var sides := Sides(VwapCrossover, GapBars());
            && SilentBefore(sides, 20)
            && sides[20] == Some(Buy) && sides[21] == None && sides[22] == None && sides[23] == Some(Buy)
  {
    var cs := GapBars();
    GapSide(cs, 20);
    GapSide(cs, 21);
    GapSide(cs, 22);
    GapSide(cs, 23);
    WarmupIsSilent(VwapCrossover, cs);
  }

  lemma CollectFour(cs: seq<Candle>, sides: seq<Option<Side>>)
    requires |cs| == |sides| == 24 && SilentBefore(sides, 20)
    requires sides[20] == Some(Buy) && sides[21] == None && sides[22] == None && sides[23] == Some(Buy)
    ensures Collect(VwapCrossover, cs, sides, 24) ==
            Emit(VwapCrossover, cs[20], Some(Buy)) + Emit(VwapCrossover, cs[23], Some(Buy))
  {
    CollectSilent(VwapCrossover, cs, sides, 20);
    assert Collect(VwapCrossover, cs, sides, 21) == Emit(VwapCrossover, cs[20], Some(Buy));
    assert Collect(VwapCrossover, cs, sides, 22) == Emit(VwapCrossover, cs[20], Some(Buy));
    assert Collect(VwapCrossover, cs, sides, 23) == Emit(VwapCrossover, cs[20], Some(Buy));
  }

  lemma GapIsRealistic()
    ensures StrictlyChronological(GapBars())
    ensures forall i :: 0 <= i < 24 ==> GapBars()[i].WellFormed() && GapBars()[i].volume >= 0
  {
    forall i | 0 <= i < 24
      ensures GapBar(i).WellFormed() && GapBar(i).volume >= 0 && GapBar(i).timestamp == i && GapBars()[i] == GapBar(i)
    {
    }
  }

  lemma GapSignals()
    ensures var reason := Reason(VwapCrossover, Buy);
            Signals(VwapCrossover, GapBars()) == [Signal(20, Buy, 15.0, reason), Signal(23, Buy, 15.0, reason)]
  {
    var cs := GapBars();
    GapSides();
    CollectFour(cs, Sides(VwapCrossover, cs));
    assert cs[20] == GapBar(20) && cs[23] == GapBar(23);
  }

  lemma TwoBuys(signals: seq<Signal>)
    requires |signals| == 2 && signals[0].side == Buy && signals[1].side == Buy
    ensures SidesOf(signals) == [Buy, Buy]
  {
  }

  lemma GapSidesRepeat()
    ensures SidesOf(Signals(VwapCrossover, GapBars())) == [Buy, Buy]
  {
    GapSignals();
    TwoBuys(Signals(VwapCrossover, GapBars()));
  }

  /** Without volume it can fail: two BUY signals in a row, the drop below VWAP being hidden in the gap. */
  lemma VwapCanRepeat() returns (cs: seq<Candle>)
    ensures cs == GapBars() && StrictlyChronological(cs)
    ensures forall i :: 0 <= i < |cs| ==> cs[i].WellFormed() && cs[i].volume >= 0
    ensures SidesOf(Signals(VwapCrossover, cs)) == [Buy, Buy]
  {
    cs := GapBars();
    GapIsRealistic();
    GapSidesRepeat();
  }
}
