/** Sums and Wilder averages of real series: the reference definitions the indicator loops are proved against. */
module Series {

  function Sum(s: seq<real>): real {
    if |s| == 0 then 0.0 else Sum(s[..|s| - 1]) + s[|s| - 1]
  }

  function Negated(s: seq<real>): (r: seq<real>)
    ensures |r| == |s|
    ensures forall i :: 0 <= i < |s| ==> r[i] == -s[i]
  {
    seq(|s|, i requires 0 <= i < |s| => -s[i])
  }

  ghost predicate Within(s: seq<real>, lo: real, hi: real) {
    forall i :: 0 <= i < |s| ==> lo <= s[i] <= hi
  }

  lemma SumPush(s: seq<real>, x: real)
    ensures Sum(s + [x]) == Sum(s) + x
  {
    assert (s + [x])[..|s|] == s;
  }

  lemma SumPop(s: seq<real>, a: nat, b: nat)
    requires a <= b < |s|
    ensures Sum(s[a..b + 1]) == Sum(s[a..b]) + s[b]
  {
    assert s[a..b + 1] == s[a..b] + [s[b]];
    SumPush(s[a..b], s[b]);
  }

  lemma {:induction false} SumDropFirst(s: seq<real>, a: nat, b: nat)
    requires a < b <= |s|
    ensures Sum(s[a..b]) == s[a] + Sum(s[a + 1..b])
  {
    if a + 1 == b {
      SumPop(s, a, a);
      assert s[a..a] == [] && s[a + 1..b] == [];
    } else {
      SumDropFirst(s, a, b - 1);
      SumPop(s, a, b - 1);
      SumPop(s, a + 1, b - 1);
    }
  }

  /** Moving a window one place right adds the entering element and drops the leaving one. */
  lemma SumSlide(s: seq<real>, a: nat, b: nat)
    requires a < b < |s|
    ensures Sum(s[a + 1..b + 1]) == Sum(s[a..b]) + s[b] - s[a]
  {
    SumDropFirst(s, a, b + 1);
    SumPop(s, a, b);
  }

  /** The elements from..to added up. */
  function RangeSum(xs: seq<real>, from: nat, to: nat): real
    requires from <= to <= |xs|
  {
    if from == to then 0.0 else RangeSum(xs, from, to - 1) + xs[to - 1]
  }

  lemma {:induction false} RangeSumIs(xs: seq<real>, from: nat, to: nat)
    requires from <= to <= |xs|
    ensures Sum(xs[from..to]) == RangeSum(xs, from, to)
  {
    if from < to {
      RangeSumIs(xs, from, to - 1);
      SumPop(xs, from, to - 1);
    }
  }

  lemma {:induction false} SumWithin(s: seq<real>, lo: real, hi: real)
    requires Within(s, lo, hi)
    ensures lo * |s| as real <= Sum(s) <= hi * |s| as real
  {
    if |s| > 0 {
      SumWithin(s[..|s| - 1], lo, hi);
      assert |s| as real == (|s| - 1) as real + 1.0;
    }
  }

  lemma MeanWithin(s: seq<real>, lo: real, hi: real)
    requires |s| > 0 && Within(s, lo, hi)
    ensures lo <= Sum(s) / |s| as real <= hi
  {
    SumWithin(s, lo, hi);
    var n := |s| as real;
    DivWithin(Sum(s), n, lo, hi);
  }

  lemma DivWithin(x: real, n: real, lo: real, hi: real)
    requires n > 0.0 && lo * n <= x <= hi * n
    ensures lo <= x / n <= hi
  {
    var q := x / n;
    assert (q - lo) * n >= 0.0 && (hi - q) * n >= 0.0;
    SignOfFactor(q - lo, n);
    SignOfFactor(hi - q, n);
  }

  lemma SignOfFactor(a: real, n: real)
    requires n > 0.0 && a * n >= 0.0
    ensures a >= 0.0
  {
  }

  /** One smoothing step by 1/period. */
  function Smooth(w: real, x: real, period: int): real
    requires period > 0
  {
    (w * (period - 1) as real + x) / period as real
  }

  /** A smoothing step is a weighted mean, so it stays between bounds of its two arguments. */
  lemma SmoothWithin(w: real, x: real, period: int, lo: real, hi: real)
    requires period > 0 && lo <= w <= hi && lo <= x <= hi
    ensures lo <= Smooth(w, x, period) <= hi
  {
    var k := (period - 1) as real;
    assert k >= 0.0 && w - lo >= 0.0 && hi - w >= 0.0;
    assert (w - lo) * k >= 0.0 && (hi - w) * k >= 0.0;
    DivWithin(w * k + x, period as real, lo, hi);
  }

  /** Wilder's smoothed average of a whole history: the mean of the first `period` values,
    then smoothing by 1/period. */
  function Wilder(s: seq<real>, period: int): real
    requires 0 < period <= |s|
  {
    if |s| == period then Sum(s) / period as real
    else Smooth(Wilder(s[..|s| - 1], period), s[|s| - 1], period)
  }

  lemma {:induction false} WilderWithin(s: seq<real>, period: int, lo: real, hi: real)
    requires 0 < period <= |s| && Within(s, lo, hi)
    ensures lo <= Wilder(s, period) <= hi
  {
    if |s| == period {
      MeanWithin(s, lo, hi);
    } else {
      WilderWithin(s[..|s| - 1], period, lo, hi);
      SmoothWithin(Wilder(s[..|s| - 1], period), s[|s| - 1], period, lo, hi);
    }
  }
}
