/** Volatility and trend indicators over candles: average true range, Supertrend and rolling VWAP. */
module Trend {
  import opened Types
  import opened Series
  import Indicators

  // ---------------------------------------------------------------- average true range

  function Max(x: real, y: real): real { if x >= y then x else y }

  function Abs(x: real): real { if x >= 0.0 then x else -x }

  function TrueRange(cs: seq<Candle>, i: nat): real
    requires i < |cs|
  {
    var hl := cs[i].high - cs[i].low;
    if i == 0 then hl
    else Max(hl, Max(Abs(cs[i].high - cs[i - 1].close), Abs(cs[i].low - cs[i - 1].close)))
  }

  function TrueRanges(cs: seq<Candle>): (r: seq<real>)
    ensures |r| == |cs|
  {
    seq(|cs|, i requires 0 <= i < |cs| => TrueRange(cs, i))
  }

  /** The average true range at the last bar of a history. */
  function Atr(cs: seq<Candle>, period: int): real
    requires 0 < period <= |cs|
  {
    Wilder(TrueRanges(cs), period)
  }

  function AtrAt(cs: seq<Candle>, period: int, i: nat): Option<real>
    requires i < |cs|
  {
    if 0 < period <= i + 1 then Some(Atr(cs[..i + 1], period)) else None
  }

  lemma RangesOfPrefix(cs: seq<Candle>, n: nat)
    requires n <= |cs|
    ensures TrueRanges(cs[..n]) == TrueRanges(cs)[..n]
  {
  }

  method ATR(cs: seq<Candle>, period: int) returns (out: seq<Option<real>>)
    ensures |out| == |cs|
    ensures forall i :: 0 <= i < |cs| ==> out[i] == AtrAt(cs, period, i)
  {
    var n := |cs|;
    if period <= 0 || n == 0 {
      var nan := Indicators.MakeOutput(n, n);
      return nan[..];
    }
    var tr := RangeSeries(cs);
    var a := Indicators.MakeOutput(n, period);
    if period > n {
      return a[..];
    }
    var sum := Indicators.SumFirst(tr, period);
    a[period - 1] := Some(sum / period as real);
    assert tr[0..period] == tr[..period];
    SmoothSeries(tr, period, a);
    forall i | 0 <= i < n ensures a[i] == AtrAt(cs, period, i) {
      RangesOfPrefix(cs, i + 1);
    }
    return a[..];
  }

  /** The smoothing loop: fills the positions after the seed. */
  method SmoothSeries(xs: seq<real>, period: int, a: array<Option<real>>)
    requires 0 < period <= |xs| == a.Length
    requires forall j :: 0 <= j < period - 1 ==> a[j] == None
    requires a[period - 1] == Some(Wilder(xs[..period], period))
    modifies a
    ensures forall j :: 0 <= j < a.Length ==> a[j] == if j + 1 < period then None else Some(Wilder(xs[..j + 1], period))
  {
    for i := period to |xs|
      invariant forall j :: 0 <= j < i ==> a[j] == if j + 1 < period then None else Some(Wilder(xs[..j + 1], period))
    {
      assert xs[..i + 1] == xs[..i] + [xs[i]];
      Indicators.WilderPush(xs[..i], xs[i], period);
      a[i] := Some(Smooth(a[i - 1].value, xs[i], period));
    }
  }

  method RangeSeries(cs: seq<Candle>) returns (tr: seq<real>)
    requires |cs| > 0
    ensures tr == TrueRanges(cs)
  {
    var a := new real[|cs|](_ => 0.0);
    a[0] := cs[0].high - cs[0].low;
    for i := 1 to |cs|
      invariant forall j :: 0 <= j < i ==> a[j] == TrueRange(cs, j)
    {
      var hl := cs[i].high - cs[i].low;
      var hpc := Abs(cs[i].high - cs[i - 1].close);
      var lpc := Abs(cs[i].low - cs[i - 1].close);
      a[i] := Max(hl, Max(hpc, lpc));
    }
    return a[..];
  }

  // ---------------------------------------------------------------- Supertrend

  datatype Band = Band(upper: real, lower: real)

  /** The bands, the line and the direction at one bar. */
  datatype Reading = Reading(upper: real, lower: real, line: real, dir: int)

  /** The fresh band of a bar: its midpoint, widened by a multiple of the average true range. */
  function BasicBand(c: Candle, atr: real, multiplier: real): Band {
    var hl2 := (c.high + c.low) / 2.0;
    Band(hl2 + multiplier * atr, hl2 - multiplier * atr)
  }

  function BandAt(cs: seq<Candle>, period: int, multiplier: real, i: nat): Band
    requires 0 < period <= i + 1 <= |cs|
  {
    BasicBand(cs[i], Atr(cs[..i + 1], period), multiplier)
  }

  /** The fresh bands of all bars from the one that seeds the average true range. */
  function Bands(cs: seq<Candle>, period: int, multiplier: real): (r: seq<Band>)
    requires 0 < period
    ensures |r| == if period <= |cs| then |cs| + 1 - period else 0
  {
    if period > |cs| then []
    else seq(|cs| + 1 - period, k requires 0 <= k < |cs| + 1 - period => BandAt(cs, period, multiplier, period - 1 + k))
  }

  function Closes(cs: seq<Candle>): (r: seq<real>)
    ensures |r| == |cs|
  {
    seq(|cs|, i requires 0 <= i < |cs| => cs[i].close)
  }

  /** The reading at the last bar of a non-empty history of fresh bands and closes. */
  function Follow(bands: seq<Band>, closes: seq<real>): Reading
    requires |bands| == |closes| > 0
  {
    var n := |bands|;
    var basic, close := bands[n - 1], closes[n - 1];
    if n == 1 then
      if close <= basic.upper then Reading(basic.upper, basic.lower, basic.lower, 1)
      else Reading(basic.upper, basic.lower, basic.upper, -1)
    else
      var prev, prevClose := Follow(bands[..n - 1], closes[..n - 1]), closes[n - 2];
      var upper := if basic.upper < prev.upper || prevClose > prev.upper then basic.upper else prev.upper;
      var lower := if basic.lower > prev.lower || prevClose < prev.lower then basic.lower else prev.lower;
      if prev.dir == 1 then
        if close < lower then Reading(upper, lower, upper, -1) else Reading(upper, lower, lower, 1)
      else
        if close > upper then Reading(upper, lower, lower, 1) else Reading(upper, lower, upper, -1)
  }

  function FollowAt(bands: seq<Band>, closes: seq<real>, k: nat): Reading
    requires |bands| == |closes| > k
  {
    Follow(bands[..k + 1], closes[..k + 1])
  }

  /** The closes from the bar that seeds the average true range. */
  function SeededCloses(cs: seq<Candle>, period: int): (r: seq<real>)
    requires 0 < period
    ensures |r| == if period <= |cs| then |cs| + 1 - period else 0
  {
    if period > |cs| then [] else Closes(cs)[period - 1..]
  }

  /** The Supertrend reading at bar i. */
  function StAt(cs: seq<Candle>, period: int, multiplier: real, i: nat): Reading
    requires 0 < period <= i + 1 <= |cs|
  {
    FollowAt(Bands(cs, period, multiplier), SeededCloses(cs, period), i + 1 - period)
  }

  ghost predicate SupertrendOutput(cs: seq<Candle>, period: int, multiplier: real, st: Option<real>, dir: int, i: nat)
    requires i < |cs|
  {
    if period <= 0 then st == None && dir == 0
    else if i + 1 < period then st == None && dir == 1
    else var r := StAt(cs, period, multiplier, i); st == Some(r.line) && dir == r.dir
  }

  /** One bar of the loop: the bands and the line from the previous bar's, which are NaN before the seed. */
  method NextReading(basic: Band, close: real, prevClose: real, prevUpper: Option<real>, prevLower: Option<real>,
                     prevLine: Option<real>, prevDir: int, ghost bands: seq<Band>, ghost closes: seq<real>)
    returns (upper: real, lower: real, line: real, dir: int)
    requires |bands| == |closes|
    requires bands == [] ==> prevUpper == prevLower == prevLine == None
    requires bands != [] ==> var r := Follow(bands, closes);
                             && prevUpper == Some(r.upper) && prevLower == Some(r.lower) && prevLine == Some(r.line)
                             && prevDir == r.dir && prevClose == closes[|closes| - 1]
    ensures Reading(upper, lower, line, dir) == Follow(bands + [basic], closes + [close])
  {
    assert (bands + [basic])[..|bands|] == bands && (closes + [close])[..|bands|] == closes;
    if prevUpper != None {
      if basic.upper < prevUpper.value || prevClose > prevUpper.value {
        upper := basic.upper;
      } else {
        upper := prevUpper.value;
      }
      if basic.lower > prevLower.value || prevClose < prevLower.value {
        lower := basic.lower;
      } else {
        lower := prevLower.value;
      }
    } else {
      upper, lower := basic.upper, basic.lower;
    }
    if prevLine == None {
      if close <= upper {
        dir, line := 1, lower;
      } else {
        dir, line := -1, upper;
      }
      return;
    }
    if prevDir == 1 {
      if close < lower {
        dir, line := -1, upper;
      } else {
        dir, line := 1, lower;
      }
    } else {
      if close > upper {
        dir, line := 1, lower;
      } else {
        dir, line := -1, upper;
      }
    }
  }

  /** The fresh bands, NaN while the average true range seeds. */
  method BasicBands(cs: seq<Candle>, period: int, multiplier: real) returns (basic: seq<Option<Band>>)
    requires 0 < period
    ensures |basic| == |cs|
    ensures forall i :: 0 <= i < |cs| ==>
              basic[i] == if i + 1 < period then None else Some(BandAt(cs, period, multiplier, i))
  {
    var atr := ATR(cs, period);
    basic := [];
    for i := 0 to |cs|
      invariant |basic| == i
      invariant forall j :: 0 <= j < i ==>
                  basic[j] == if j + 1 < period then None else Some(BandAt(cs, period, multiplier, j))
    {
      basic := basic + [if atr[i] == None then None else Some(BasicBand(cs[i], atr[i].value, multiplier))];
    }
  }

  /** The trend loop over fresh bands that are NaN on the first `warmup` bars. */
  method TrendLine(basic: seq<Option<Band>>, closes: seq<real>, warmup: nat, ghost bands: seq<Band>)
    returns (st: seq<Option<real>>, dir: seq<int>)
    requires |basic| == |closes| && |bands| == if warmup <= |basic| then |basic| - warmup else 0
    requires forall i :: 0 <= i < |basic| ==> basic[i] == if i < warmup then None else Some(bands[i - warmup])
    ensures |st| == |dir| == |basic|
    ensures forall i :: 0 <= i < |basic| ==>
              if i < warmup then st[i] == None && dir[i] == 1
              else var r := FollowAt(bands, closes[warmup..], i - warmup); st[i] == Some(r.line) && dir[i] == r.dir
  {
    st, dir := [], [];
    var upper, lower: Option<real> := None, None;
    for i := 0 to |basic|
      invariant |st| == |dir| == i
      invariant i <= warmup ==> upper == lower == None
      invariant i > warmup ==> var r := FollowAt(bands, closes[warmup..], i - warmup - 1);
                               upper == Some(r.upper) && lower == Some(r.lower)
      invariant forall j :: 0 <= j < i ==>
                  if j < warmup then st[j] == None && dir[j] == 1
                  else var r := FollowAt(bands, closes[warmup..], j - warmup); st[j] == Some(r.line) && dir[j] == r.dir
    {
      if basic[i] == None {
        st, dir := st + [None], dir + [1];
      } else {
        var prevLine, prevDir, prevClose :=
          if i > 0 then st[i - 1] else None, if i > 0 then dir[i - 1] else 0, if i > 0 then closes[i - 1] else 0.0;
        ghost var k := i - warmup;
        var u, l, s, d := NextReading(basic[i].value, closes[i], prevClose, upper, lower, prevLine, prevDir,
                                      bands[..k], closes[warmup..][..k]);
        assert bands[..k + 1] == bands[..k] + [basic[i].value];
        assert closes[warmup..][..k + 1] == closes[warmup..][..k] + [closes[i]];
        upper, lower, st, dir := Some(u), Some(l), st + [Some(s)], dir + [d];
      }
    }
  }

  method Supertrend(cs: seq<Candle>, period: int, multiplier: real)
    returns (line: seq<Option<real>>, direction: seq<int>)
    ensures |line| == |direction| == |cs|
    ensures forall i :: 0 <= i < |cs| ==> SupertrendOutput(cs, period, multiplier, line[i], direction[i], i)
  {
    var n := |cs|;
    if period <= 0 || n == 0 {
      var nan := Indicators.MakeOutput(n, n);
      return nan[..], seq(n, _ => 0);
    }
    var basic := BasicBands(cs, period, multiplier);
    line, direction := TrendLine(basic, Closes(cs), period - 1, Bands(cs, period, multiplier));
  }

  lemma LineIsBand(bands: seq<Band>, closes: seq<real>)
    requires |bands| == |closes| > 0
    ensures var r := Follow(bands, closes);
            (r.dir == 1 && r.line == r.lower) || (r.dir == -1 && r.line == r.upper)
  {
  }

  lemma DirIsUnit(cs: seq<Candle>, period: int, multiplier: real, i: nat)
    requires 0 < period <= i + 1 <= |cs|
    ensures StAt(cs, period, multiplier, i).dir == 1 || StAt(cs, period, multiplier, i).dir == -1
  {
    var k := i + 1 - period;
    LineIsBand(Bands(cs, period, multiplier)[..k + 1], SeededCloses(cs, period)[..k + 1]);
  }

  /** A bar that keeps its predecessor's direction closes on the right side of its line; and its line is looser
      than the previous one exactly when the previous close had already crossed that line and the fresh band is
      looser too. */
  lemma KeptBar(bands: seq<Band>, closes: seq<real>)
    requires |bands| == |closes| > 1
    ensures var n := |bands|;
            var prev, r := Follow(bands[..n - 1], closes[..n - 1]), Follow(bands, closes);
            && (prev.dir == r.dir == 1 ==>
                  && r.line <= closes[n - 1]
                  && (r.line < prev.line <==> closes[n - 2] < prev.line && bands[n - 1].lower < prev.line))
            && (prev.dir == r.dir == -1 ==>
                  && r.line >= closes[n - 1]
                  && (r.line > prev.line <==> closes[n - 2] > prev.line && bands[n - 1].upper > prev.line))
  {
    LineIsBand(bands[..|bands| - 1], closes[..|bands| - 1]);
  }

  lemma {:induction false} RatchetBands(bands: seq<Band>, closes: seq<real>, from: nat, to: nat, dir: int)
    requires |bands| == |closes| && from < to < |bands|
    requires forall k :: from <= k <= to ==> FollowAt(bands, closes, k).dir == dir
    ensures var first, last := FollowAt(bands, closes, from + 1), FollowAt(bands, closes, to);
            && (dir == 1 ==> first.line <= last.line <= closes[to])
            && (dir == -1 ==> first.line >= last.line >= closes[to])
  {
    var bands', closes' := bands[..to + 1], closes[..to + 1];
    assert bands'[..to] == bands[..to] && closes'[..to] == closes[..to];
    assert FollowAt(bands, closes, to - 1).dir == dir;
    KeptBar(bands', closes');
    if from + 1 < to { RatchetBands(bands, closes, from, to - 1, dir); }
  }

  /** The ratchet: inside a run of bars from..to of one direction, from the second bar on, the line never
      loosens and the close stays on the right side of it. */
  lemma Ratchet(cs: seq<Candle>, period: int, multiplier: real, from: nat, to: nat, dir: int)
    requires 0 < period <= from + 1 && from < to < |cs|
    requires forall i :: from <= i <= to ==> StAt(cs, period, multiplier, i).dir == dir
    ensures var first, last := StAt(cs, period, multiplier, from + 1), StAt(cs, period, multiplier, to);
            && (dir == 1 ==> first.line <= last.line <= cs[to].close)
            && (dir == -1 ==> first.line >= last.line >= cs[to].close)
  {
    var bands, closes, s := Bands(cs, period, multiplier), SeededCloses(cs, period), period - 1;
    forall k | from - s <= k <= to - s ensures FollowAt(bands, closes, k).dir == dir {
      assert StAt(cs, period, multiplier, k + s).dir == dir;
    }
    RatchetBands(bands, closes, from - s, to - s, dir);
  }

  // ---------------------------------------------------------------- the flip bar

  /** Ten flat bars, a drop, a spike that closes low, and a flat bar in between. */
  function SpikeBar(i: int): Candle {
    if i < 10 then Candle(i, 100.0, 100.0, 100.0, 100.0, 1)
    else if i == 10 then Candle(i, 90.0, 90.0, 90.0, 90.0, 1)
    else if i == 11 then Candle(i, 100.0, 1000.0, 100.0, 101.0, 1)
    else Candle(i, 500.0, 500.0, 500.0, 500.0, 1)
  }

  function SpikeBars(): seq<Candle> {
    seq(13, i => SpikeBar(i))
  }

  lemma SpikeRanges()
    ensures var tr := TrueRanges(SpikeBars());
            Within(tr[..10], 0.0, 0.0) && tr[10] == 10.0 && tr[11] == 910.0 && tr[12] == 399.0
  {
    var cs := SpikeBars();
    forall i | 0 <= i < 10 ensures TrueRange(cs, i) == 0.0 {
      assert cs[i] == SpikeBar(i);
    }
  }

  lemma SpikeAverages()
    ensures var cs := SpikeBars();
            && Atr(cs[..10], 10) == 0.0 && Atr(cs[..11], 10) == 1.0
            && Atr(cs[..12], 10) == 91.9 && Atr(cs[..13], 10) == 122.61
  {
    var cs, tr := SpikeBars(), TrueRanges(SpikeBars());
    SpikeRanges();
    RangesOfPrefix(cs, 10);
    RangesOfPrefix(cs, 11);
    RangesOfPrefix(cs, 12);
    RangesOfPrefix(cs, 13);
    WilderWithin(tr[..10], 10, 0.0, 0.0);
    assert tr[..11] == tr[..10] + [tr[10]] && tr[..12] == tr[..11] + [tr[11]] && tr[..13] == tr[..12] + [tr[12]];
    Indicators.WilderPush(tr[..10], tr[10], 10);
    Indicators.WilderPush(tr[..11], tr[11], 10);
    Indicators.WilderPush(tr[..12], tr[12], 10);
  }

  lemma SpikeBands()
    ensures Bands(SpikeBars(), 10, 3.0) ==
            [Band(100.0, 100.0), Band(93.0, 87.0), Band(825.7, 274.3), Band(867.83, 132.17)]
    ensures SeededCloses(SpikeBars(), 10) == [100.0, 90.0, 101.0, 500.0]
  {
    SpikeAverages();
  }

  lemma FollowSpike(bands: seq<Band>, closes: seq<real>)
    requires bands == [Band(100.0, 100.0), Band(93.0, 87.0), Band(825.7, 274.3), Band(867.83, 132.17)]
    requires closes == [100.0, 90.0, 101.0, 500.0]
    ensures FollowAt(bands, closes, 1).dir == -1
    ensures FollowAt(bands, closes, 2) == Reading(93.0, 274.3, 274.3, 1)
    ensures FollowAt(bands, closes, 3).dir == 1 && FollowAt(bands, closes, 3).line == 132.17
  {
    assert bands[..2][..1] == bands[..1] && closes[..2][..1] == closes[..1];
    assert bands[..3][..2] == bands[..2] && closes[..3][..2] == closes[..2];
    assert bands[..4][..3] == bands[..3] && closes[..4][..3] == closes[..3];
    assert bands[..4][3] == Band(867.83, 132.17) && closes[..4][2] == 101.0 && closes[..4][3] == 500.0;
    assert Follow(bands[..1], closes[..1]) == Reading(100.0, 100.0, 100.0, 1);
    assert Follow(bands[..2], closes[..2]) == Reading(93.0, 100.0, 93.0, -1);
    assert Follow(bands[..3], closes[..3]) == Reading(93.0, 274.3, 274.3, 1);
  }

  lemma SpikeIsRealistic()
    ensures StrictlyChronological(SpikeBars()) && forall i :: 0 <= i < 13 ==> SpikeBars()[i].WellFormed()
  {
    forall i | 0 <= i < 13
      ensures SpikeBar(i).WellFormed() && SpikeBar(i).timestamp == i && SpikeBars()[i] == SpikeBar(i)
    {
    }
  }

  /** The flip bar has to be excluded, also at the settings the evaluator uses: after a spike the line can sit above
      the close, and then it drops. */
  lemma FlipBarCanLoosen() returns (cs: seq<Candle>)
    ensures |cs| == 13 && StrictlyChronological(cs) && forall i :: 0 <= i < 13 ==> cs[i].WellFormed()
    ensures StAt(cs, 10, 3.0, 10).dir == -1 && StAt(cs, 10, 3.0, 11).dir == 1 && StAt(cs, 10, 3.0, 12).dir == 1
    ensures StAt(cs, 10, 3.0, 12).line < StAt(cs, 10, 3.0, 11).line
  {
    cs := SpikeBars();
    SpikeIsRealistic();
    SpikeBands();
    FollowSpike(Bands(cs, 10, 3.0), SeededCloses(cs, 10));
  }

  // ---------------------------------------------------------------- rolling VWAP

  function Typical(c: Candle): real {
    (c.high + c.low + c.close) / 3.0
  }

  function Volumes(cs: seq<Candle>): (r: seq<real>)
    ensures |r| == |cs|
  {
    seq(|cs|, i requires 0 <= i < |cs| => cs[i].volume as real)
  }

  /** Traded value of a bar: typical price times volume. */
  function Value(c: Candle): real {
    Typical(c) * c.volume as real
  }

  function Values(cs: seq<Candle>): (r: seq<real>)
    ensures |r| == |cs|
  {
    seq(|cs|, i requires 0 <= i < |cs| => Value(cs[i]))
  }

  /** The volume-weighted mean typical price of a window; undefined without positive volume. */
  function Vwap(window: seq<Candle>): Option<real> {
    Ratio(Sum(Values(window)), Sum(Volumes(window)))
  }

  function Ratio(value: real, volume: real): Option<real> {
    if volume > 0.0 then Some(value / volume) else None
  }

  function VwapAt(cs: seq<Candle>, period: int, i: nat): Option<real>
    requires i < |cs|
  {
    if 0 < period <= i + 1 then Vwap(cs[i + 1 - period..i + 1]) else None
  }

  method WindowSums(cs: seq<Candle>, period: nat) returns (sumTPV: real, sumVol: real)
    requires period <= |cs|
    ensures sumTPV == Sum(Values(cs)[0..period]) && sumVol == Sum(Volumes(cs)[0..period])
  {
    sumTPV, sumVol := 0.0, 0.0;
    for i := 0 to period
      invariant sumTPV == Sum(Values(cs)[0..i]) && sumVol == Sum(Volumes(cs)[0..i])
    {
      SumPop(Values(cs), 0, i);
      SumPop(Volumes(cs), 0, i);
      sumTPV := sumTPV + Value(cs[i]);
      sumVol := sumVol + cs[i].volume as real;
    }
  }

  lemma WindowOf(cs: seq<Candle>, a: nat, b: nat)
    requires a <= b <= |cs|
    ensures Values(cs[a..b]) == Values(cs)[a..b] && Volumes(cs[a..b]) == Volumes(cs)[a..b]
  {
  }

  method RollingVWAP(cs: seq<Candle>, period: int) returns (out: seq<Option<real>>)
    ensures |out| == |cs|
    ensures forall i :: 0 <= i < |cs| ==> out[i] == VwapAt(cs, period, i)
  {
    var n := |cs|;
    if period <= 0 || n == 0 {
      var nan := Indicators.MakeOutput(n, n);
      return nan[..];
    }
    var warm := Indicators.MakeOutput(if period > n then n else period - 1, n);
    if period > n {
      return warm[..];
    }
    var sumTPV, sumVol := WindowSums(cs, period);
    var readings := SlideWindow(Values(cs), Volumes(cs), period, sumTPV, sumVol);
    out := warm[..] + readings;
    forall i | period - 1 <= i < n ensures out[i] == VwapAt(cs, period, i) {
      WindowOf(cs, i + 1 - period, i + 1);
    }
  }

  function WindowRatio(values: seq<real>, volumes: seq<real>, period: int, k: nat): Option<real>
    requires 0 < period && k + period <= |values| == |volumes|
  {
    Ratio(Sum(values[k..k + period]), Sum(volumes[k..k + period]))
  }

  /** The sliding loop over per-bar traded values and volumes, from the first full window on. */
  method SlideWindow(values: seq<real>, volumes: seq<real>, period: int, firstTPV: real, firstVol: real)
    returns (out: seq<Option<real>>)
    requires 0 < period <= |values| == |volumes|
    requires firstTPV == Sum(values[0..period]) && firstVol == Sum(volumes[0..period])
    ensures |out| == |values| + 1 - period
    ensures forall k :: 0 <= k < |out| ==> out[k] == WindowRatio(values, volumes, period, k)
  {
    var sumTPV, sumVol := firstTPV, firstVol;
    out := [Ratio(sumTPV, sumVol)];
    for i := period to |values|
      invariant |out| == i + 1 - period
      invariant sumTPV == Sum(values[i - period..i]) && sumVol == Sum(volumes[i - period..i])
      invariant forall k :: 0 <= k < |out| ==> out[k] == WindowRatio(values, volumes, period, k)
    {
      SumSlide(values, i - period, i);
      SumSlide(volumes, i - period, i);
      sumTPV := sumTPV - values[i - period];
      sumVol := sumVol - volumes[i - period];
      sumTPV := sumTPV + values[i];
      sumVol := sumVol + volumes[i];
      out := out + [Ratio(sumTPV, sumVol)];
    }
  }

  ghost predicate TradedWithin(c: Candle, lo: real, hi: real) {
    c.volume >= 0 && (c.volume > 0 ==> lo <= Typical(c) <= hi)
  }

  /** A defined reading lies between the smallest and the largest typical price among the bars of its window that
      traded; with non-negative volumes it is defined exactly when some bar did. */
  lemma VwapWithin(window: seq<Candle>, lo: real, hi: real)
    requires forall i :: 0 <= i < |window| ==> TradedWithin(window[i], lo, hi)
    ensures Vwap(window).Some? ==> lo <= Vwap(window).value <= hi
    ensures Vwap(window).None? <==> forall i :: 0 <= i < |window| ==> window[i].volume == 0
  {
    ValueBounds(window, lo, hi);
    VolumeSum(window);
    RatioWithin(Sum(Values(window)), Sum(Volumes(window)), lo, hi);
  }

  lemma RatioWithin(value: real, volume: real, lo: real, hi: real)
    requires Between(value, volume, lo, hi)
    ensures Ratio(value, volume).Some? ==> lo <= Ratio(value, volume).value <= hi
  {
    if volume > 0.0 { DivWithin(value, volume, lo, hi); }
  }

  lemma WindowPush(init: seq<Candle>, c: Candle)
    ensures Sum(Values(init + [c])) == Sum(Values(init)) + Value(c)
    ensures Sum(Volumes(init + [c])) == Sum(Volumes(init)) + c.volume as real
  {
    assert Values(init + [c]) == Values(init) + [Value(c)];
    assert Volumes(init + [c]) == Volumes(init) + [c.volume as real];
    SumPush(Values(init), Value(c));
    SumPush(Volumes(init), c.volume as real);
  }

  ghost predicate ValueBounded(window: seq<Candle>, lo: real, hi: real) {
    Between(Sum(Values(window)), Sum(Volumes(window)), lo, hi)
  }

  ghost predicate Between(value: real, volume: real, lo: real, hi: real) {
    lo * volume <= value <= hi * volume
  }

  lemma BoundPush(init: seq<Candle>, c: Candle, lo: real, hi: real)
    requires ValueBounded(init, lo, hi) && TradedWithin(c, lo, hi)
    ensures ValueBounded(init + [c], lo, hi)
  {
    WindowPush(init, c);
    AddTraded(Sum(Values(init)), Sum(Volumes(init)), c, lo, hi);
  }

  lemma AddTraded(value: real, volume: real, c: Candle, lo: real, hi: real)
    requires Between(value, volume, lo, hi) && TradedWithin(c, lo, hi)
    ensures Between(value + Value(c), volume + c.volume as real, lo, hi)
  {
    if c.volume > 0 {
      AddWeighted(value, volume, Typical(c), c.volume as real, lo, hi);
    } else {
      assert c.volume as real == 0.0;
    }
  }

  lemma {:induction false} ValueBounds(window: seq<Candle>, lo: real, hi: real)
    requires forall i :: 0 <= i < |window| ==> TradedWithin(window[i], lo, hi)
    ensures ValueBounded(window, lo, hi)
  {
    var n := |window|;
    if n > 0 {
      ValueBounds(window[..n - 1], lo, hi);
      BoundPush(window[..n - 1], window[n - 1], lo, hi);
      assert window == window[..n - 1] + [window[n - 1]];
    }
  }

  lemma {:induction false} VolumeSum(window: seq<Candle>)
    requires forall i :: 0 <= i < |window| ==> window[i].volume >= 0
    ensures Sum(Volumes(window)) >= 0.0
    ensures Sum(Volumes(window)) == 0.0 <==> forall i :: 0 <= i < |window| ==> window[i].volume == 0
  {
    var n := |window|;
    if n > 0 {
      var init, c := window[..n - 1], window[n - 1];
      assert window == init + [c];
      VolumeSum(init);
      WindowPush(init, c);
    }
  }

  lemma AddWeighted(value: real, volume: real, t: real, v: real, lo: real, hi: real)
    requires Between(value, volume, lo, hi) && v >= 0.0 && lo <= t <= hi
    ensures Between(value + t * v, volume + v, lo, hi)
  {
    assert (t - lo) * v >= 0.0 && (hi - t) * v >= 0.0;
  }
}
