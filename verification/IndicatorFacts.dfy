/** What the indicators measure, told from single bars: each average by its seed and its recurrence, the true range as
    the smallest interval, the strength index by when it is full or empty, Supertrend by when it turns. */
module IndicatorFacts {
  import opened Types
  import opened Series
  import Indicators
  import Trend

  // ---------------------------------------------------------------- quotients

  lemma TimesQuotient(x: real, n: real)
    requires n != 0.0
    ensures n * (x / n) == x
  {
  }

  lemma QuotientIs(x: real, n: real, q: real)
    requires n != 0.0
    ensures x / n == q <==> x == q * n
  {
  }

  // ---------------------------------------------------------------- moving averages

  /** A reading exists exactly when the window is full; it is the mean of the window. */
  lemma SmaIsMean(closes: seq<real>, period: int, i: nat)
    requires i < |closes|
    ensures var r := Indicators.SmaAt(closes, period, i);
            && (r.Some? <==> 0 < period <= i + 1)
            && (r.Some? ==> period as real * r.value == RangeSum(closes, i + 1 - period, i + 1))
  {
    if 0 < period <= i + 1 {
      RangeSumIs(closes, i + 1 - period, i + 1);
      TimesQuotient(RangeSum(closes, i + 1 - period, i + 1), period as real);
    }
  }

  /** The first reading is the mean of the first closes; each later one moves from the one before it towards the new
      close by two parts in period plus one. */
  lemma EmaMovesTowardsClose(closes: seq<real>, period: int, i: nat)
    requires i < |closes|
    ensures var r := Indicators.EmaAt(closes, period, i);
            && (r.Some? <==> 0 < period <= i + 1)
            && (r.Some? && i + 1 == period ==> period as real * r.value == RangeSum(closes, 0, period))
            && (r.Some? && i + 1 > period ==>
                  var before := Indicators.EmaAt(closes, period, i - 1);
                  before.Some? &&
                  (period + 1) as real * (r.value - before.value) == 2.0 * (closes[i] - before.value))
  {
    if 0 < period <= i + 1 {
      if i + 1 == period {
        assert closes[..i + 1] == closes[0..period];
        RangeSumIs(closes, 0, period);
        TimesQuotient(RangeSum(closes, 0, period), period as real);
      } else {
        assert closes[..i + 1][..i] == closes[..i];
        MixMoves(Indicators.Ema(closes[..i], period), closes[i], (period + 1) as real);
      }
    }
  }

  lemma MixMoves(e: real, x: real, q: real)
    requires q > 0.0
    ensures q * (Indicators.EmaStep(e, x, 2.0 / q) - e) == 2.0 * (x - e)
  {
    var k := 2.0 / q;
    assert Indicators.EmaStep(e, x, k) - e == k * (x - e);
    assert q * (k * (x - e)) == q * k * (x - e);
    TimesQuotient(2.0, q);
  }

  // ---------------------------------------------------------------- true range

  /** The low, the high and, after the first bar, the previous close. */
  function Points(cs: seq<Candle>, i: nat): seq<real>
    requires i < |cs|
  {
    [cs[i].low, cs[i].high] + if i == 0 then [] else [cs[i - 1].close]
  }

  ghost predicate Covers(lo: real, hi: real, points: seq<real>) {
    forall k :: 0 <= k < |points| ==> lo <= points[k] <= hi
  }

  /** How far the bar and the previous close reach together. */
  function Span(cs: seq<Candle>, i: nat): real
    requires i < |cs|
  {
    if i == 0 then cs[i].high - cs[i].low
    else (if cs[i - 1].close > cs[i].high then cs[i - 1].close else cs[i].high) -
         (if cs[i - 1].close < cs[i].low then cs[i - 1].close else cs[i].low)
  }

  /** The true range is the length of the smallest interval that contains low, high and previous close: some interval
      of that length does, and none that does is shorter. */
  lemma TrueRangeIsSmallestInterval(cs: seq<Candle>, i: nat)
    returns (lo: real, hi: real)
    requires i < |cs| && cs[i].low <= cs[i].high
    ensures Trend.TrueRange(cs, i) == Span(cs, i) == hi - lo
    ensures Covers(lo, hi, Points(cs, i)) && lo in Points(cs, i) && hi in Points(cs, i)
    ensures forall a, b :: Covers(a, b, Points(cs, i)) ==> hi - lo <= b - a
  {
    var points := Points(cs, i);
    lo, hi := cs[i].low, cs[i].high;
    assert points[0] == lo && points[1] == hi;
    if i > 0 {
      assert points[2] == cs[i - 1].close;
      if cs[i - 1].close < lo { lo := cs[i - 1].close; }
      if cs[i - 1].close > hi { hi := cs[i - 1].close; }
    }
    forall a, b | Covers(a, b, points) ensures hi - lo <= b - a {
      var j :| 0 <= j < |points| && points[j] == lo;
      var k :| 0 <= k < |points| && points[k] == hi;
      assert a <= points[j] && points[k] <= b;
    }
  }

  // ---------------------------------------------------------------- average true range

  ghost predicate Ordered(cs: seq<Candle>) {
    forall i :: 0 <= i < |cs| ==> cs[i].low <= cs[i].high
  }

  function Spans(cs: seq<Candle>): seq<real> {
    seq(|cs|, i requires 0 <= i < |cs| => Span(cs, i))
  }

  lemma RangesAreSpans(cs: seq<Candle>)
    requires Ordered(cs)
    ensures Trend.TrueRanges(cs) == Spans(cs)
  {
    forall i | 0 <= i < |cs| ensures Trend.TrueRange(cs, i) == Span(cs, i) {
      var _, _ := TrueRangeIsSmallestInterval(cs, i);
    }
  }

  lemma AtrOfSpans(cs: seq<Candle>, period: int, i: nat)
    requires i < |cs| && Ordered(cs) && 0 < period <= i + 1
    ensures Trend.AtrAt(cs, period, i) == Some(Wilder(Spans(cs)[..i + 1], period))
  {
    RangesAreSpans(cs);
    Trend.RangesOfPrefix(cs, i + 1);
  }

  /** The mean that weighs the old average period - 1 times and the new value once. */
  function Weigh(w: real, x: real, period: int): real
    requires period > 0
  {
    ((period - 1) as real * w + x) / period as real
  }

  /** Wilder's average up to element i: the mean of the first `period` elements, then weighed with each later one. */
  function WeighedAverage(xs: seq<real>, period: int, i: nat): real
    requires 0 < period <= i + 1 <= |xs|
  {
    if i + 1 == period then RangeSum(xs, 0, period) / period as real
    else Weigh(WeighedAverage(xs, period, i - 1), xs[i], period)
  }

  lemma WeighIs(w: real, x: real, period: int)
    requires period > 0
    ensures Smooth(w, x, period) == Weigh(w, x, period)
  {
  }

  lemma {:induction false} WeighedAverageIs(xs: seq<real>, period: int, i: nat)
    requires 0 < period <= i + 1 <= |xs|
    ensures Wilder(xs[..i + 1], period) == WeighedAverage(xs, period, i)
  {
    if i + 1 == period {
      assert xs[..i + 1] == xs[0..period];
      RangeSumIs(xs, 0, period);
    } else {
      WeighedAverageIs(xs, period, i - 1);
      assert xs[..i - 1 + 1] == xs[..i] && xs[..i + 1] == xs[..i] + [xs[i]];
      Indicators.WilderPush(xs[..i], xs[i], period);
      WeighIs(WeighedAverage(xs, period, i - 1), xs[i], period);
    }
  }

  /** A reading exists exactly when enough bars do; it is Wilder's average of the spans so far. */
  lemma AtrAveragesSpans(cs: seq<Candle>, period: int, i: nat)
    requires i < |cs| && Ordered(cs)
    ensures Trend.AtrAt(cs, period, i) ==
            if 0 < period <= i + 1 then Some(WeighedAverage(Spans(cs), period, i)) else None
  {
    if 0 < period <= i + 1 {
      AtrOfSpans(cs, period, i);
      WeighedAverageIs(Spans(cs), period, i);
    }
  }

  /** A reading lies between the smallest and the largest span so far. */
  lemma AtrWithinSpans(cs: seq<Candle>, period: int, i: nat, lo: real, hi: real)
    requires i < |cs| && Ordered(cs) && 0 < period <= i + 1
    requires forall j :: 0 <= j <= i ==> lo <= Span(cs, j) <= hi
    ensures lo <= Trend.AtrAt(cs, period, i).value <= hi
  {
    AtrOfSpans(cs, period, i);
    WilderWithin(Spans(cs)[..i + 1], period, lo, hi);
  }

  // ---------------------------------------------------------------- relative strength index

  /** By how much a close rose above, or fell below, the one before it. */
  function Moved(up: bool, closes: seq<real>, i: nat): real
    requires 0 < i < |closes|
  {
    var change := if up then closes[i] - closes[i - 1] else closes[i - 1] - closes[i];
    if change > 0.0 then change else 0.0
  }

  function MoveSum(up: bool, closes: seq<real>, n: nat): real
    requires n < |closes|
  {
    if n == 0 then 0.0 else MoveSum(up, closes, n - 1) + Moved(up, closes, n)
  }

  /** Wilder's average of the rises, or of the falls, up to bar i. */
  function MoveAverage(up: bool, closes: seq<real>, period: int, i: nat): real
    requires 0 < period <= i < |closes|
  {
    if i == period then MoveSum(up, closes, period) / period as real
    else Weigh(MoveAverage(up, closes, period, i - 1), Moved(up, closes, i), period)
  }

  /** One of the closes from..i rose above, or fell below, the one before it. */
  ghost predicate SomeMove(up: bool, closes: seq<real>, from: nat, i: nat)
    requires i < |closes|
  {
    exists j :: 0 < j && from <= j <= i && if up then closes[j] > closes[j - 1] else closes[j] < closes[j - 1]
  }

  lemma {:induction false} MoveSumsAre(closes: seq<real>, n: nat)
    requires n < |closes|
    ensures Sum(Indicators.Gains(closes)[1..][0..n]) == MoveSum(true, closes, n)
    ensures Sum(Indicators.Losses(closes)[1..][0..n]) == MoveSum(false, closes, n)
  {
    if n > 0 {
      MoveSumsAre(closes, n - 1);
      SumPop(Indicators.Gains(closes)[1..], 0, n - 1);
      SumPop(Indicators.Losses(closes)[1..], 0, n - 1);
    }
  }

  lemma {:induction false} AveragesAre(closes: seq<real>, period: int, i: nat)
    requires 0 < period <= i < |closes|
    ensures Indicators.AvgGain(closes[..i + 1], period) == MoveAverage(true, closes, period, i)
    ensures Indicators.AvgLoss(closes[..i + 1], period) == MoveAverage(false, closes, period, i)
  {
    if i == period {
      Indicators.AveragesSeed(closes, period);
      MoveSumsAre(closes, period);
    } else {
      AveragesAre(closes, period, i - 1);
      assert closes[..i - 1 + 1] == closes[..i];
      Indicators.AveragesStep(closes, period, i);
      WeighIs(MoveAverage(true, closes, period, i - 1), Moved(true, closes, i), period);
      WeighIs(MoveAverage(false, closes, period, i - 1), Moved(false, closes, i), period);
    }
  }

  lemma {:induction false} MoveSumSign(up: bool, closes: seq<real>, n: nat)
    requires n < |closes|
    ensures MoveSum(up, closes, n) >= 0.0 && (MoveSum(up, closes, n) > 0.0 <==> SomeMove(up, closes, 1, n))
  {
    if n > 0 {
      MoveSumSign(up, closes, n - 1);
      SomeMoveStep(up, closes, 1, n);
    }
  }

  lemma SomeMoveStep(up: bool, closes: seq<real>, from: nat, n: nat)
    requires 0 < from <= n < |closes|
    ensures SomeMove(up, closes, from, n) <==> SomeMove(up, closes, from, n - 1) || Moved(up, closes, n) > 0.0
  {
  }

  /** The first close whose move the average still weighs: with period one it is the last, else every one counts. */
  function Oldest(period: int, i: nat): nat { if period == 1 then i else 1 }

  lemma {:induction false} MoveAverageSign(up: bool, closes: seq<real>, period: int, i: nat)
    requires 0 < period <= i < |closes|
    ensures MoveAverage(up, closes, period, i) >= 0.0
    ensures MoveAverage(up, closes, period, i) > 0.0 <==> SomeMove(up, closes, Oldest(period, i), i)
  {
    if i == period {
      MoveSumSign(up, closes, period);
      SignOfQuotient(MoveSum(up, closes, period), period as real);
    } else {
      MoveAverageSign(up, closes, period, i - 1);
      SomeMoveStep(up, closes, Oldest(period, i), i);
      SmoothSign(MoveAverage(up, closes, period, i - 1), Moved(up, closes, i), period);
    }
  }

  lemma SmoothSign(w: real, x: real, period: int)
    requires w >= 0.0 && x >= 0.0 && period > 0
    ensures Weigh(w, x, period) >= 0.0 && (Weigh(w, x, period) > 0.0 <==> (w > 0.0 && period > 1) || x > 0.0)
  {
    var k := (period - 1) as real;
    assert k * w >= 0.0 && (k * w > 0.0 <==> w > 0.0 && k > 0.0);
    SignOfQuotient(k * w + x, period as real);
  }

  lemma SignOfQuotient(x: real, n: real)
    requires x >= 0.0 && n > 0.0
    ensures x / n >= 0.0 && (x / n > 0.0 <==> x > 0.0)
  {
  }

  /** The share of the rises in all movement, in percent; 100 if nothing moved. */
  function Share(rises: real, falls: real): real {
    if rises + falls > 0.0 then 100.0 * rises / (rises + falls) else 100.0
  }

  /** A reading exists exactly after `period` moves; it is the share of the rises. */
  lemma RsiIsShareOfRises(closes: seq<real>, period: int, i: nat)
    requires i < |closes|
    ensures Indicators.RsiAt(closes, period, i) ==
            if 0 < period <= i
            then Some(Share(MoveAverage(true, closes, period, i), MoveAverage(false, closes, period, i)))
            else None
  {
    if 0 < period <= i {
      AveragesAre(closes, period, i);
      Indicators.RsiRange(closes[..i + 1], period);
    }
  }

  lemma ShareFullOrEmpty(rises: real, falls: real)
    requires rises >= 0.0 && falls >= 0.0
    ensures Share(rises, falls) == 100.0 <==> falls == 0.0
    ensures Share(rises, falls) == 0.0 <==> falls > 0.0 && rises == 0.0
  {
    if rises + falls > 0.0 {
      QuotientIs(100.0 * rises, rises + falls, 100.0);
      QuotientIs(100.0 * rises, rises + falls, 0.0);
    }
  }

  /** The reading is full exactly when no close so far fell, and empty exactly when some fell and none rose. */
  lemma RsiFullOrEmptyExactlyWhen(closes: seq<real>, period: int, i: nat)
    requires 0 < period <= i < |closes|
    ensures var r, oldest := Indicators.RsiAt(closes, period, i), Oldest(period, i);
            && (r == Some(100.0) <==> !SomeMove(false, closes, oldest, i))
            && (r == Some(0.0) <==> SomeMove(false, closes, oldest, i) && !SomeMove(true, closes, oldest, i))
  {
    MoveAverageSign(true, closes, period, i);
    MoveAverageSign(false, closes, period, i);
    RsiIsShareOfRises(closes, period, i);
    ShareFullOrEmpty(MoveAverage(true, closes, period, i), MoveAverage(false, closes, period, i));
  }

  // ---------------------------------------------------------------- Supertrend

  function Middle(c: Candle): real { (c.high + c.low) / 2.0 }

  /** How far the fresh band of a bar lies from its middle. */
  function Reach(cs: seq<Candle>, period: int, multiplier: real, i: nat): real
    requires 0 < period <= i + 1 <= |cs|
  {
    multiplier * Trend.AtrAt(cs, period, i).value
  }

  function FreshLower(cs: seq<Candle>, period: int, multiplier: real, i: nat): real
    requires 0 < period <= i + 1 <= |cs|
  {
    Middle(cs[i]) - Reach(cs, period, multiplier, i)
  }

  function FreshUpper(cs: seq<Candle>, period: int, multiplier: real, i: nat): real
    requires 0 < period <= i + 1 <= |cs|
  {
    Middle(cs[i]) + Reach(cs, period, multiplier, i)
  }

  lemma BandIsFresh(cs: seq<Candle>, period: int, multiplier: real, i: nat)
    requires 0 < period <= i + 1 <= |cs|
    ensures Trend.BandAt(cs, period, multiplier, i) ==
            Trend.Band(FreshUpper(cs, period, multiplier, i), FreshLower(cs, period, multiplier, i))
  {
  }

  lemma FollowBack(cs: seq<Candle>, period: int, multiplier: real, i: nat)
    requires 0 < period <= i < |cs|
    ensures var k := i + 1 - period;
            var bands, closes := Trend.Bands(cs, period, multiplier)[..k + 1], Trend.SeededCloses(cs, period)[..k + 1];
            && |bands| == |closes| == k + 1 > 1
            && Trend.StAt(cs, period, multiplier, i) == Trend.Follow(bands, closes)
            && Trend.StAt(cs, period, multiplier, i - 1) == Trend.Follow(bands[..k], closes[..k])
            && bands[k] == Trend.BandAt(cs, period, multiplier, i)
            && closes[k] == cs[i].close && closes[k - 1] == cs[i - 1].close
  {
    var k := i + 1 - period;
    var bands, closes := Trend.Bands(cs, period, multiplier), Trend.SeededCloses(cs, period);
    assert bands[..k + 1][..k] == bands[..k] && closes[..k + 1][..k] == closes[..k];
  }

  /** The first bar is bullish exactly when it closes no higher than its fresh upper band; the line is the fresh band on
      the other side of the direction. */
  lemma SupertrendStarts(cs: seq<Candle>, period: int, multiplier: real)
    requires 0 < period <= |cs|
    ensures var r, i := Trend.StAt(cs, period, multiplier, period - 1), period - 1;
            if cs[i].close <= FreshUpper(cs, period, multiplier, i)
            then r.dir == 1 && r.line == FreshLower(cs, period, multiplier, i)
            else r.dir == -1 && r.line == FreshUpper(cs, period, multiplier, i)
  {
    BandIsFresh(cs, period, multiplier, period - 1);
  }

  /** Both bands, whichever the line is on: a band tightens to the fresh one or stays, and lets go only when the close
      before lay beyond it. The line is on the band of its direction, and so jumps to the other one when it turns. */
  lemma SupertrendKeepsBands(cs: seq<Candle>, period: int, multiplier: real, i: nat)
    requires 0 < period <= i < |cs|
    ensures var before, r := Trend.StAt(cs, period, multiplier, i - 1), Trend.StAt(cs, period, multiplier, i);
            var low, up := FreshLower(cs, period, multiplier, i), FreshUpper(cs, period, multiplier, i);
            && (cs[i - 1].close <= before.upper && up >= before.upper ==> r.upper == before.upper)
            && (cs[i - 1].close > before.upper || up < before.upper ==> r.upper == up)
            && (cs[i - 1].close >= before.lower && low <= before.lower ==> r.lower == before.lower)
            && (cs[i - 1].close < before.lower || low > before.lower ==> r.lower == low)
            && (r.dir == 1 ==> r.line == r.lower) && (r.dir != 1 ==> r.dir == -1 && r.line == r.upper)
  {
    BandIsFresh(cs, period, multiplier, i);
    FollowBack(cs, period, multiplier, i);
  }

  /** A bullish line rises to the fresh lower band or stays, and lets go only when the close before fell under it; the
      trend turns bearish exactly when the close is under the line it would have. Upside down for a bearish one. */
  lemma SupertrendTurnsExactlyWhen(cs: seq<Candle>, period: int, multiplier: real, i: nat)
    requires 0 < period <= i < |cs|
    ensures var before, r := Trend.StAt(cs, period, multiplier, i - 1), Trend.StAt(cs, period, multiplier, i);
            var low, up := FreshLower(cs, period, multiplier, i), FreshUpper(cs, period, multiplier, i);
            && (before.dir == 1 ==>
                  var kept := if cs[i - 1].close >= before.line && low <= before.line then before.line else low;
                  (r.dir == -1 <==> cs[i].close < kept) && (r.dir == 1 <==> cs[i].close >= kept && r.line == kept))
            && (before.dir == -1 ==>
                  var kept := if cs[i - 1].close <= before.line && up >= before.line then before.line else up;
                  (r.dir == 1 <==> cs[i].close > kept) && (r.dir == -1 <==> cs[i].close <= kept && r.line == kept))
  {
    BandIsFresh(cs, period, multiplier, i);
    FollowBack(cs, period, multiplier, i);
    var k := i + 1 - period;
    Trend.LineIsBand(Trend.Bands(cs, period, multiplier)[..k + 1][..k], Trend.SeededCloses(cs, period)[..k + 1][..k]);
  }

  ghost predicate RunOf(cs: seq<Candle>, period: int, multiplier: real, dir: int, from: nat, to: nat)
    requires 0 < period <= from + 1 && from <= to < |cs|
  {
    forall i :: from <= i <= to ==> Trend.StAt(cs, period, multiplier, i).dir == dir
  }

  /** The fresh lower bands, from the bar that seeds the average true range on. */
  function FreshLowers(cs: seq<Candle>, period: int, multiplier: real): seq<real>
    requires 0 < period
  {
    seq(|cs|, i requires 0 <= i < |cs| => if i + 1 < period then 0.0 else FreshLower(cs, period, multiplier, i))
  }

  function FreshUppers(cs: seq<Candle>, period: int, multiplier: real): seq<real>
    requires 0 < period
  {
    seq(|cs|, i requires 0 <= i < |cs| => if i + 1 < period then 0.0 else FreshUpper(cs, period, multiplier, i))
  }

  /** The largest of `first` and the elements after `from` up to `to`. */
  ghost predicate IsLargest(x: real, first: real, xs: seq<real>, from: nat, to: nat)
    requires to < |xs|
  {
    && x >= first && (forall j :: from < j <= to ==> x >= xs[j])
    && (x == first || exists j :: from < j <= to && x == xs[j])
  }

  ghost predicate IsSmallest(x: real, first: real, xs: seq<real>, from: nat, to: nat)
    requires to < |xs|
  {
    && x <= first && (forall j :: from < j <= to ==> x <= xs[j])
    && (x == first || exists j :: from < j <= to && x == xs[j])
  }

  /** At every element after `from` up to `to` the line goes up to the band or stays. */
  ghost predicate Climbs(lines: seq<real>, lows: seq<real>, from: nat, to: nat)
    requires to < |lines| == |lows|
  {
    forall k :: from < k <= to ==> lines[k] == if lows[k] <= lines[k - 1] then lines[k - 1] else lows[k]
  }

  ghost predicate Sinks(lines: seq<real>, ups: seq<real>, from: nat, to: nat)
    requires to < |lines| == |ups|
  {
    forall k :: from < k <= to ==> lines[k] == if ups[k] >= lines[k - 1] then lines[k - 1] else ups[k]
  }

  lemma {:induction false} ClimbingLineIsLargest(lines: seq<real>, lows: seq<real>, from: nat, to: nat)
    requires from <= to < |lines| == |lows| && Climbs(lines, lows, from, to)
    ensures IsLargest(lines[to], lines[from], lows, from, to)
  {
    if from < to {
      ClimbingLineIsLargest(lines, lows, from, to - 1);
      assert lines[to] == if lows[to] <= lines[to - 1] then lines[to - 1] else lows[to];
    }
  }

  lemma {:induction false} SinkingLineIsSmallest(lines: seq<real>, ups: seq<real>, from: nat, to: nat)
    requires from <= to < |lines| == |ups| && Sinks(lines, ups, from, to)
    ensures IsSmallest(lines[to], lines[from], ups, from, to)
  {
    if from < to {
      SinkingLineIsSmallest(lines, ups, from, to - 1);
      assert lines[to] == if ups[to] >= lines[to - 1] then lines[to - 1] else ups[to];
    }
  }

  /** The line at every bar, from the bar that seeds the average true range on. */
  function Lines(cs: seq<Candle>, period: int, multiplier: real): seq<real>
    requires 0 < period
  {
    seq(|cs|, i requires 0 <= i < |cs| => if i + 1 < period then 0.0 else Trend.StAt(cs, period, multiplier, i).line)
  }

  lemma RunStep(cs: seq<Candle>, period: int, multiplier: real, dir: int, from: nat, to: nat, k: nat)
    requires 0 < period <= from + 1 && from + 1 < k <= to < |cs| && dir in {1, -1}
    requires RunOf(cs, period, multiplier, dir, from, to)
    ensures var lines := Lines(cs, period, multiplier);
            var low, up := FreshLowers(cs, period, multiplier)[k], FreshUppers(cs, period, multiplier)[k];
            lines[k] == if dir == 1 then if low <= lines[k - 1] then lines[k - 1] else low
                        else if up >= lines[k - 1] then lines[k - 1] else up
  {
    SupertrendTurnsExactlyWhen(cs, period, multiplier, k - 1);
    SupertrendTurnsExactlyWhen(cs, period, multiplier, k);
    assert Trend.StAt(cs, period, multiplier, k - 2).dir == dir;
    assert Trend.StAt(cs, period, multiplier, k - 1).dir == dir;
  }

  lemma RunClimbs(cs: seq<Candle>, period: int, multiplier: real, from: nat, to: nat)
    requires 0 < period <= from + 1 && from < to < |cs| && RunOf(cs, period, multiplier, 1, from, to)
    ensures Climbs(Lines(cs, period, multiplier), FreshLowers(cs, period, multiplier), from + 1, to)
  {
    var lines, lows := Lines(cs, period, multiplier), FreshLowers(cs, period, multiplier);
    forall k | from + 1 < k <= to
      ensures lines[k] == if lows[k] <= lines[k - 1] then lines[k - 1] else lows[k]
    {
      RunStep(cs, period, multiplier, 1, from, to, k);
    }
  }

  lemma RunSinks(cs: seq<Candle>, period: int, multiplier: real, from: nat, to: nat)
    requires 0 < period <= from + 1 && from < to < |cs| && RunOf(cs, period, multiplier, -1, from, to)
    ensures Sinks(Lines(cs, period, multiplier), FreshUppers(cs, period, multiplier), from + 1, to)
  {
    var lines, ups := Lines(cs, period, multiplier), FreshUppers(cs, period, multiplier);
    forall k | from + 1 < k <= to
      ensures lines[k] == if ups[k] >= lines[k - 1] then lines[k - 1] else ups[k]
    {
      RunStep(cs, period, multiplier, -1, from, to, k);
    }
  }

  /** Inside a bullish run, from its second bar on, the line is the largest fresh lower band since that bar. */
  lemma BullishLineIsLargest(cs: seq<Candle>, period: int, multiplier: real, from: nat, to: nat)
    requires 0 < period <= from + 1 && from < to < |cs| && RunOf(cs, period, multiplier, 1, from, to)
    ensures var lines := Lines(cs, period, multiplier);
            IsLargest(lines[to], lines[from + 1], FreshLowers(cs, period, multiplier), from + 1, to)
  {
    RunClimbs(cs, period, multiplier, from, to);
    ClimbingLineIsLargest(Lines(cs, period, multiplier), FreshLowers(cs, period, multiplier), from + 1, to);
  }

  /** Inside a bearish run, from its second bar on, the line is the smallest fresh upper band since that bar. */
  lemma BearishLineIsSmallest(cs: seq<Candle>, period: int, multiplier: real, from: nat, to: nat)
    requires 0 < period <= from + 1 && from < to < |cs| && RunOf(cs, period, multiplier, -1, from, to)
    ensures var lines := Lines(cs, period, multiplier);
            IsSmallest(lines[to], lines[from + 1], FreshUppers(cs, period, multiplier), from + 1, to)
  {
    RunSinks(cs, period, multiplier, from, to);
    SinkingLineIsSmallest(Lines(cs, period, multiplier), FreshUppers(cs, period, multiplier), from + 1, to);
  }

  // ---------------------------------------------------------------- rolling VWAP

  /** Shares traded by the bars from..to. */
  function VolumeSum(cs: seq<Candle>, from: nat, to: nat): int
    requires from <= to <= |cs|
  {
    if from == to then 0 else VolumeSum(cs, from, to - 1) + cs[to - 1].volume
  }

  /** High, low and close together, each weighted by the bar's volume, added up: three times the traded value. */
  function ThreefoldValue(cs: seq<Candle>, from: nat, to: nat): real
    requires from <= to <= |cs|
  {
    if from == to then 0.0
    else ThreefoldValue(cs, from, to - 1) +
         (cs[to - 1].high + cs[to - 1].low + cs[to - 1].close) * cs[to - 1].volume as real
  }

  lemma {:induction false} VolumeSumIs(cs: seq<Candle>, from: nat, to: nat)
    requires from <= to <= |cs|
    ensures Sum(Trend.Volumes(cs)[from..to]) == VolumeSum(cs, from, to) as real
  {
    if from < to {
      VolumeSumIs(cs, from, to - 1);
      SumPop(Trend.Volumes(cs), from, to - 1);
    }
  }

  lemma ValueIs(c: Candle)
    ensures 3.0 * Trend.Value(c) == (c.high + c.low + c.close) * c.volume as real
  {
    var t, v := Trend.Typical(c), c.volume as real;
    assert 3.0 * t == c.high + c.low + c.close;
    assert 3.0 * (t * v) == 3.0 * t * v;
  }

  lemma {:induction false} ThreefoldValueIs(cs: seq<Candle>, from: nat, to: nat)
    requires from <= to <= |cs|
    ensures 3.0 * Sum(Trend.Values(cs)[from..to]) == ThreefoldValue(cs, from, to)
  {
    if from < to {
      ThreefoldValueIs(cs, from, to - 1);
      SumPop(Trend.Values(cs), from, to - 1);
      ValueIs(cs[to - 1]);
    }
  }

  /** A reading exists exactly when the window is full and traded; it balances the traded value of its window. */
  lemma VwapBalances(cs: seq<Candle>, period: int, i: nat)
    requires i < |cs|
    ensures var r := Trend.VwapAt(cs, period, i);
            && (r.Some? <==> 0 < period <= i + 1 && VolumeSum(cs, i + 1 - period, i + 1) > 0)
            && (r.Some? ==>
                  3.0 * r.value * VolumeSum(cs, i + 1 - period, i + 1) as real ==
                  ThreefoldValue(cs, i + 1 - period, i + 1))
  {
    if 0 < period <= i + 1 {
      var from := i + 1 - period;
      Trend.WindowOf(cs, from, i + 1);
      VolumeSumIs(cs, from, i + 1);
      ThreefoldValueIs(cs, from, i + 1);
      if VolumeSum(cs, from, i + 1) > 0 {
        Balance(Sum(Trend.Values(cs)[from..i + 1]), Sum(Trend.Volumes(cs)[from..i + 1]));
      }
    }
  }

  lemma Balance(value: real, volume: real)
    requires volume > 0.0
    ensures 3.0 * (value / volume) * volume == 3.0 * value
  {
    TimesQuotient(value, volume);
    var q := value / volume;
    assert 3.0 * q * volume == 3.0 * (q * volume);
  }
}
