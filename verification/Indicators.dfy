/** Technical indicators over closing prices and candles. A NaN reading of the source is `None`.

    Each reference definition gives the reading at one bar from the bars up to it; each method is the
    source's single-pass loop, proved to fill every position with exactly that reading. */
module Indicators {
  import opened Types
  import opened Series

  // ---------------------------------------------------------------- simple moving average

  function SmaAt(closes: seq<real>, period: int, i: nat): Option<real>
    requires i < |closes|
  {
    if 0 < period <= i + 1 then Some(Sum(closes[i + 1 - period..i + 1]) / period as real) else None
  }

  /** A freshly made output slice: NaN on the first `warmup` positions, zero elsewhere. */
  method MakeOutput(n: nat, warmup: int) returns (out: array<Option<real>>)
    ensures fresh(out) && out.Length == n
    ensures forall i :: 0 <= i < n ==> out[i] == if i < warmup then None else Some(0.0)
  {
    out := new Option<real>[n](_ => Some(0.0));
    var i := 0;
    while i < warmup && i < n
      invariant 0 <= i <= n
      invariant forall j :: 0 <= j < n ==> out[j] == if j < i then None else Some(0.0)
      invariant i <= warmup || i == 0
    {
      out[i] := None;
      i := i + 1;
    }
  }

  method SumFirst(s: seq<real>, period: nat) returns (sum: real)
    requires period <= |s|
    ensures sum == Sum(s[0..period])
  {
    sum := 0.0;
    for i := 0 to period
      invariant sum == Sum(s[0..i])
    {
      SumPop(s, 0, i);
      sum := sum + s[i];
    }
  }

  method SMA(closes: seq<real>, period: int) returns (out: seq<Option<real>>)
    ensures |out| == |closes|
    ensures forall i :: 0 <= i < |closes| ==> out[i] == SmaAt(closes, period, i)
  {
    var n := |closes|;
    if period <= 0 || n == 0 {
      var nan := MakeOutput(n, n);
      return nan[..];
    }
    var a := MakeOutput(n, period - 1);
    if period > n {
      return a[..];
    }
    var sum := SumFirst(closes, period);
    a[period - 1] := Some(sum / period as real);
    assert closes[0..period] == closes[period - 1 + 1 - period..period - 1 + 1];
    assert a[period - 1] == SmaAt(closes, period, period - 1);
    assert forall j :: 0 <= j < period - 1 ==> a[j] == None;
    var i := period;
    while i < n
      invariant period <= i <= n
      invariant sum == Sum(closes[i - period..i])
      invariant forall j :: 0 <= j < i ==> a[j] == SmaAt(closes, period, j)
    {
      SumSlide(closes, i - period, i);
      sum := sum + closes[i] - closes[i - period];
      a[i] := Some(sum / period as real);
      i := i + 1;
    }
    return a[..];
  }

  // ---------------------------------------------------------------- exponential moving average

  /** The smoothed average of a whole history, seeded with the mean of its first `period` closes. */
  function Ema(closes: seq<real>, period: int): real
    requires 0 < period <= |closes|
  {
    var n := |closes|;
    if n == period then Sum(closes) / period as real
    else EmaStep(Ema(closes[..n - 1], period), closes[n - 1], 2.0 / (period + 1) as real)
  }

  function EmaStep(prev: real, x: real, k: real): real {
    x * k + prev * (1.0 - k)
  }

  function EmaAt(closes: seq<real>, period: int, i: nat): Option<real>
    requires i < |closes|
  {
    if 0 < period <= i + 1 then Some(Ema(closes[..i + 1], period)) else None
  }

  method EMA(closes: seq<real>, period: int) returns (out: seq<Option<real>>)
    ensures |out| == |closes|
    ensures forall i :: 0 <= i < |closes| ==> out[i] == EmaAt(closes, period, i)
  {
    var n := |closes|;
    if period <= 0 || n == 0 {
      var nan := MakeOutput(n, n);
      return nan[..];
    }
    var a := MakeOutput(n, period - 1);
    if period > n {
      return a[..];
    }
    var sum := SumFirst(closes, period);
    a[period - 1] := Some(sum / period as real);
    assert closes[0..period] == closes[..period];
    var k := 2.0 / (period + 1) as real;
    var i := period;
    while i < n
      invariant period <= i <= n
      invariant forall j :: 0 <= j < i ==> a[j] == EmaAt(closes, period, j)
    {
      assert closes[..i + 1][..i] == closes[..i] && a[i - 1] == EmaAt(closes, period, i - 1);
      a[i] := Some(EmaStep(a[i - 1].value, closes[i], k));
      i := i + 1;
    }
    return a[..];
  }

  /** The average never leaves the range of the closes it has seen. */
  lemma {:induction false} EmaWithin(closes: seq<real>, period: int, lo: real, hi: real)
    requires 0 < period <= |closes| && Within(closes, lo, hi)
    ensures lo <= Ema(closes, period) <= hi
  {
    var n := |closes|;
    if n == period {
      MeanWithin(closes, lo, hi);
    } else {
      EmaWithin(closes[..n - 1], period, lo, hi);
      var x, e, q := closes[n - 1], Ema(closes[..n - 1], period), (period + 1) as real;
      DivWithin(2.0, q, 0.0, 1.0);
      MixWithin(x, e, 2.0 / q, lo, hi);
    }
  }

  lemma MixWithin(x: real, y: real, k: real, lo: real, hi: real)
    requires 0.0 <= k <= 1.0 && lo <= x <= hi && lo <= y <= hi
    ensures lo <= EmaStep(y, x, k) <= hi
  {
    assert (x - lo) * k >= 0.0 && (hi - x) * k >= 0.0;
    assert (y - lo) * (1.0 - k) >= 0.0 && (hi - y) * (1.0 - k) >= 0.0;
  }

  // ---------------------------------------------------------------- relative strength index

  function Gain(closes: seq<real>, i: nat): real
    requires i < |closes|
  {
    if i == 0 || closes[i] - closes[i - 1] <= 0.0 then 0.0 else closes[i] - closes[i - 1]
  }

  function Loss(closes: seq<real>, i: nat): real
    requires i < |closes|
  {
    if i == 0 || closes[i] - closes[i - 1] > 0.0 then 0.0 else closes[i - 1] - closes[i]
  }

  function Gains(closes: seq<real>): (r: seq<real>)
    ensures |r| == |closes|
  {
    seq(|closes|, i requires 0 <= i < |closes| => Gain(closes, i))
  }

  function Losses(closes: seq<real>): (r: seq<real>)
    ensures |r| == |closes|
  {
    seq(|closes|, i requires 0 <= i < |closes| => Loss(closes, i))
  }

  function RsiValue(avgGain: real, avgLoss: real): real
    requires avgGain >= 0.0 && avgLoss >= 0.0
  {
    if avgLoss == 0.0 then 100.0
    else
      var rs := avgGain / avgLoss;
      assert rs >= 0.0 by { DivWithin(avgGain, avgLoss, 0.0, avgGain / avgLoss); }
      100.0 - 100.0 / (1.0 + rs)
  }

  /** Wilder's average gain (or loss) over a whole history; the first bar has no predecessor and is skipped. */
  function AvgGain(closes: seq<real>, period: int): (g: real)
    requires 0 < period < |closes|
    ensures g >= 0.0
  {
    NonNegativeWilder(Gains(closes)[1..], period);
    Wilder(Gains(closes)[1..], period)
  }

  function AvgLoss(closes: seq<real>, period: int): (l: real)
    requires 0 < period < |closes|
    ensures l >= 0.0
  {
    NonNegativeWilder(Losses(closes)[1..], period);
    Wilder(Losses(closes)[1..], period)
  }

  lemma NonNegativeWilder(s: seq<real>, period: int)
    requires 0 < period <= |s| && forall i :: 0 <= i < |s| ==> s[i] >= 0.0
    ensures Wilder(s, period) >= 0.0
  {
    var hi := UpperBound(s);
    WilderWithin(s, period, 0.0, hi);
  }

  lemma UpperBound(s: seq<real>) returns (hi: real)
    ensures forall i :: 0 <= i < |s| ==> s[i] <= hi
  {
    hi := 0.0;
    for i := 0 to |s|
      invariant forall j :: 0 <= j < i ==> s[j] <= hi
    {
      if s[i] > hi { hi := s[i]; }
    }
  }

  function Rsi(closes: seq<real>, period: int): real
    requires 0 < period < |closes|
  {
    RsiValue(AvgGain(closes, period), AvgLoss(closes, period))
  }

  function RsiAt(closes: seq<real>, period: int, i: nat): Option<real>
    requires i < |closes|
  {
    if 0 < period <= i then Some(Rsi(closes[..i + 1], period)) else None
  }

  method PriceMoves(closes: seq<real>) returns (gains: seq<real>, losses: seq<real>)
    requires |closes| > 0
    ensures gains == Gains(closes) && losses == Losses(closes)
  {
    var n := |closes|;
    var up, down := new real[n](_ => 0.0), new real[n](_ => 0.0);
    for i := 1 to n
      invariant forall j :: 0 <= j < n ==> up[j] == if j < i then Gain(closes, j) else 0.0
      invariant forall j :: 0 <= j < n ==> down[j] == if j < i then Loss(closes, j) else 0.0
    {
      var delta := closes[i] - closes[i - 1];
      if delta > 0.0 {
        up[i] := delta;
      } else {
        down[i] := -delta;
      }
    }
    return up[..], down[..];
  }

  method RSI(closes: seq<real>, period: int) returns (out: seq<Option<real>>)
    ensures |out| == |closes|
    ensures forall i :: 0 <= i < |closes| ==> out[i] == RsiAt(closes, period, i)
  {
    var n := |closes|;
    if period <= 0 || n == 0 {
      var nan := MakeOutput(n, n);
      return nan[..];
    }
    var a := MakeOutput(n, period + 1);
    if n < period + 1 {
      return a[..];
    }
    var gains, losses := PriceMoves(closes);
    var sumGain := SumFirst(gains[1..], period);
    var sumLoss := SumFirst(losses[1..], period);
    var avgGain, avgLoss := sumGain / period as real, sumLoss / period as real;
    AveragesSeed(closes, period);
    a[period] := Some(RsiValue(avgGain, avgLoss));
    SmoothReadings(closes, gains, losses, period, avgGain, avgLoss, a);
    return a[..];
  }

  /** The smoothing loop: fills the positions after the seed. */
  method SmoothReadings(closes: seq<real>, gains: seq<real>, losses: seq<real>, period: int,
                        seedGain: real, seedLoss: real, a: array<Option<real>>)
    requires 0 < period < |closes| == a.Length && gains == Gains(closes) && losses == Losses(closes)
    requires seedGain == AvgGain(closes[..period + 1], period) && seedLoss == AvgLoss(closes[..period + 1], period)
    requires forall j :: 0 <= j <= period ==> a[j] == RsiAt(closes, period, j)
    modifies a
    ensures forall j :: 0 <= j < a.Length ==> a[j] == RsiAt(closes, period, j)
  {
    var avgGain, avgLoss := seedGain, seedLoss;
    for i := period + 1 to |closes|
      invariant avgGain == AvgGain(closes[..i], period) && avgLoss == AvgLoss(closes[..i], period)
      invariant forall j :: 0 <= j < i ==> a[j] == RsiAt(closes, period, j)
    {
      AveragesStep(closes, period, i);
      avgGain := Smooth(avgGain, gains[i], period);
      avgLoss := Smooth(avgLoss, losses[i], period);
      a[i] := Some(RsiValue(avgGain, avgLoss));
    }
  }

  lemma AveragesSeed(closes: seq<real>, period: int)
    requires 0 < period < |closes|
    ensures AvgGain(closes[..period + 1], period) == Sum(Gains(closes)[1..][0..period]) / period as real
    ensures AvgLoss(closes[..period + 1], period) == Sum(Losses(closes)[1..][0..period]) / period as real
  {
    MoveHistory(closes, period);
    assert Gains(closes)[1..][0..period] == Gains(closes[..period + 1])[1..];
    assert Losses(closes)[1..][0..period] == Losses(closes[..period + 1])[1..];
  }

  lemma AveragesStep(closes: seq<real>, period: int, i: nat)
    requires 0 < period < i < |closes|
    ensures AvgGain(closes[..i + 1], period) == Smooth(AvgGain(closes[..i], period), Gains(closes)[i], period)
    ensures AvgLoss(closes[..i + 1], period) == Smooth(AvgLoss(closes[..i], period), Losses(closes)[i], period)
  {
    MoveHistory(closes, i);
    WilderPush(Gains(closes[..i])[1..], Gains(closes)[i], period);
    WilderPush(Losses(closes[..i])[1..], Losses(closes)[i], period);
  }

  lemma WilderPush(s: seq<real>, x: real, period: int)
    requires 0 < period <= |s|
    ensures Wilder(s + [x], period) == Smooth(Wilder(s, period), x, period)
  {
    assert (s + [x])[..|s|] == s;
  }

  /** The moves of the history up to bar `i` are the moves of the whole series up to bar `i`. */
  lemma MoveHistory(closes: seq<real>, i: nat)
    requires 0 < i < |closes|
    ensures Gains(closes[..i + 1])[1..] == Gains(closes)[1..i + 1]
    ensures Gains(closes[..i + 1])[1..] == Gains(closes[..i])[1..] + [Gains(closes)[i]]
    ensures Losses(closes[..i + 1])[1..] == Losses(closes)[1..i + 1]
    ensures Losses(closes[..i + 1])[1..] == Losses(closes[..i])[1..] + [Losses(closes)[i]]
  {
  }

  /** The reading is the share of gains in all movement, in percent, whenever there was any movement. */
  lemma RsiIsGainShare(g: real, l: real)
    requires g >= 0.0 && l >= 0.0 && g + l > 0.0
    ensures RsiValue(g, l) == 100.0 * g / (g + l)
    ensures 0.0 <= RsiValue(g, l) <= 100.0
  {
    if l > 0.0 {
      var rs := g / l;
      var v := 100.0 / (1.0 + rs);
      assert g == rs * l;
      calc {
        (100.0 - v) * (g + l);
        (100.0 - v) * ((1.0 + rs) * l);
        (100.0 * (1.0 + rs) - v * (1.0 + rs)) * l;
        { assert v * (1.0 + rs) == 100.0; }
        100.0 * rs * l;
        100.0 * g;
      }
    }
    DivWithin(100.0 * g, g + l, 0.0, 100.0);
  }

  /** Every defined reading lies in [0, 100]; it is the gain share unless nothing moved, when it is 100. */
  lemma RsiRange(closes: seq<real>, period: int)
    requires 0 < period < |closes|
    ensures 0.0 <= Rsi(closes, period) <= 100.0
    ensures var g, l := AvgGain(closes, period), AvgLoss(closes, period);
            Rsi(closes, period) == if g + l > 0.0 then 100.0 * g / (g + l) else 100.0
  {
    var g, l := AvgGain(closes, period), AvgLoss(closes, period);
    if g + l > 0.0 { RsiIsGainShare(g, l); }
  }

  /** Turning the price series upside down turns the reading upside down, unless nothing moved. */
  lemma RsiMirror(closes: seq<real>, period: int)
    requires 0 < period < |closes|
    requires AvgGain(closes, period) + AvgLoss(closes, period) > 0.0
    ensures Rsi(Negated(closes), period) == 100.0 - Rsi(closes, period)
  {
    var g, l := AvgGain(closes, period), AvgLoss(closes, period);
    assert Gains(Negated(closes)) == Losses(closes) && Losses(Negated(closes)) == Gains(closes);
    RsiIsGainShare(g, l);
    RsiIsGainShare(l, g);
    assert 100.0 * g / (g + l) + 100.0 * l / (g + l) == 100.0 by { SharesAddUp(g, l); }
  }

  lemma SharesAddUp(g: real, l: real)
    requires g + l > 0.0
    ensures 100.0 * g / (g + l) + 100.0 * l / (g + l) == 100.0
  {
    var x, y := 100.0 * g / (g + l), 100.0 * l / (g + l);
    assert (x + y - 100.0) * (g + l) == 0.0;
  }
}
