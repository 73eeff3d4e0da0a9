/** The chart series of a run: running equity and drawdown, a second fold over the same trades. */
module Charts {
  import opened Types
  import opened Rounding
  import opened Engine
  import Accounting
  import Guarantees

  datatype ChartPoint = ChartPoint(ts: int, value: real)

  datatype ChartData = ChartData(equity: seq<ChartPoint>, drawdown: seq<ChartPoint>)

  // ---------------------------------------------------------------- reference definition

  /** Where the k-th point of a series is taken: the start, then every exit. */
  function PointTime(trades: seq<Trade>, from: int, k: nat): int
    requires k <= |trades|
  {
    if k == 0 then from else trades[k - 1].exitTimestamp
  }

  function DrawdownPct(a: Account): real {
    if a.peak > 0.0 then Round2(Fraction(a.peak, a.equity) * 100.0) else 0.0
  }

  function EquityPoint(trades: seq<Trade>, capital: real, from: int, k: nat): ChartPoint
    requires k <= |trades|
  {
    ChartPoint(PointTime(trades, from, k), Round2(AccountAfter(capital, trades, k).equity))
  }

  function DrawdownPoint(trades: seq<Trade>, capital: real, from: int, k: nat): ChartPoint
    requires k <= |trades|
  {
    ChartPoint(PointTime(trades, from, k), DrawdownPct(AccountAfter(capital, trades, k)))
  }

  /** Whether a terminal point at `to` is added. */
  predicate NeedsTerminal(trades: seq<Trade>, to: int) {
    |trades| == 0 || trades[|trades| - 1].exitTimestamp != to
  }

  /** One point per account state, and a terminal point repeating the last state at `to`. */
  ghost predicate Charted(r: ChartData, trades: seq<Trade>, capital: real, from: int, to: int) {
    var n := |trades|;
    if from >= to then r == ChartData([], [])
    else
      && |r.equity| == |r.drawdown| == n + (if NeedsTerminal(trades, to) then 2 else 1)
      && (forall k :: 0 <= k <= n ==> r.equity[k] == EquityPoint(trades, capital, from, k))
      && (forall k :: 0 <= k <= n ==> r.drawdown[k] == DrawdownPoint(trades, capital, from, k))
      && (NeedsTerminal(trades, to) ==>
            && r.equity[n + 1] == ChartPoint(to, r.equity[n].value)
            && r.drawdown[n + 1] == ChartPoint(to, r.drawdown[n].value))
  }

  // ---------------------------------------------------------------- the loop

  method DrawdownOf(equity: real, peak: real, ghost maxDrawdown: real) returns (dd: real)
    ensures dd == DrawdownPct(Account(equity, peak, maxDrawdown))
  {
    dd := 0.0;
    if peak > 0.0 {
      dd := Round2((peak - equity) / peak * 100.0);
    }
  }

  method BuildChartData(trades: seq<Trade>, capital: real, from: int, to: int) returns (r: ChartData)
    ensures Charted(r, trades, capital, from, to)
  {
    if from >= to {
      return ChartData([], []);
    }
    var peak := capital;
    var equity := [ChartPoint(from, Round2(capital))];
    var drawdown := [ChartPoint(from, 0.0)];
    StartsFlat(capital);
    var cumPnL := 0.0;
    var lastExit := 0;
    for i := 0 to |trades|
      invariant |equity| == |drawdown| == i + 1
      invariant capital + cumPnL == AccountAfter(capital, trades, i).equity
      invariant peak == AccountAfter(capital, trades, i).peak
      invariant i > 0 ==> lastExit == trades[i - 1].exitTimestamp
      invariant forall k :: 0 <= k <= i ==> equity[k] == EquityPoint(trades, capital, from, k)
      invariant forall k :: 0 <= k <= i ==> drawdown[k] == DrawdownPoint(trades, capital, from, k)
    {
      var tr := trades[i];
      cumPnL := cumPnL + tr.netPnL;
      var eq := capital + cumPnL;
      if eq > peak {
        peak := eq;
      }
      assert eq == AccountAfter(capital, trades, i + 1).equity && peak == AccountAfter(capital, trades, i + 1).peak;
      var dd := DrawdownOf(eq, peak, AccountAfter(capital, trades, i + 1).maxDrawdown);
      equity := equity + [ChartPoint(tr.exitTimestamp, Round2(eq))];
      drawdown := drawdown + [ChartPoint(tr.exitTimestamp, dd)];
      lastExit := tr.exitTimestamp;
    }
    if |trades| == 0 || lastExit != to {
      var finalEq := capital + cumPnL;
      var dd := DrawdownOf(finalEq, peak, AccountAfter(capital, trades, |trades|).maxDrawdown);
      equity := equity + [ChartPoint(to, Round2(finalEq))];
      drawdown := drawdown + [ChartPoint(to, dd)];
    }
    return ChartData(equity, drawdown);
  }

  lemma StartsFlat(capital: real)
    ensures DrawdownPct(Account(capital, capital, 0.0)) == 0.0
  {
    Round2Zero();
  }

  // ---------------------------------------------------------------- the two drawdowns agree

  lemma PctIsFraction(a: Account)
    ensures DrawdownPct(a) == 100.0 * Round4(Fraction(a.peak, a.equity))
  {
    Round2Zero();
    PercentOfFraction(Fraction(a.peak, a.equity));
  }

  lemma {:induction false} DeepestSoFar(capital: real, trades: seq<Trade>, n: nat) returns (at: nat)
    requires n <= |trades|
    ensures at <= n
    ensures var m := AccountAfter(capital, trades, n).maxDrawdown;
            && (forall k :: 0 <= k <= n ==> FractionAt(capital, trades, k) <= m)
            && m == FractionAt(capital, trades, at)
  {
    if n == 0 { return 0; }
    at := DeepestSoFar(capital, trades, n - 1);
    if FractionAt(capital, trades, n) > AccountAfter(capital, trades, n - 1).maxDrawdown { at := n; }
  }

  function FractionAt(capital: real, trades: seq<Trade>, k: nat): real
    requires k <= |trades|
  {
    Fraction(AccountAfter(capital, trades, k).peak, AccountAfter(capital, trades, k).equity)
  }

  /** `x` is the largest value of a series. */
  ghost predicate IsMaximum(points: seq<ChartPoint>, x: real) {
    (forall i :: 0 <= i < |points| ==> points[i].value <= x) && exists i :: 0 <= i < |points| && points[i].value == x
  }

  /** The chart's deepest drawdown is a hundred times the reported maximum drawdown, rounding included, for any
      capital and any trades. */
  lemma DrawdownsAgree(r: ChartData, trades: seq<Trade>, capital: real, slippagePct: real, from: int, to: int)
    requires from < to && Charted(r, trades, capital, from, to)
    ensures IsMaximum(r.drawdown, 100.0 * Summary(trades, capital, slippagePct).maxDrawdown)
  {
    var n := |trades|;
    var at := DeepestSoFar(capital, trades, n);
    var m := AccountAfter(capital, trades, n).maxDrawdown;
    forall k | 0 <= k <= n
      ensures r.drawdown[k].value == 100.0 * Round4(FractionAt(capital, trades, k))
      ensures r.drawdown[k].value <= 100.0 * Round4(m)
    {
      PctIsFraction(AccountAfter(capital, trades, k));
      RoundMonotone(FractionAt(capital, trades, k) * 10000.0, m * 10000.0);
    }
    assert r.drawdown[at].value == 100.0 * Round4(m);
  }

  /** For the result of a backtest, charted with its own capital. */
  lemma ChartMatchesResult(charges: ChargeCalculator, strategy: Strategy, inputs: EngineInputs, cfg: RunConfig,
                           r: ChartData, from: int, to: int)
    requires from < to
    ensures var b := Backtest(charges, strategy, inputs, cfg);
            b.Ok? && Charted(r, b.value.trades, cfg.initialCapital, from, to) ==>
              IsMaximum(r.drawdown, 100.0 * b.value.maxDrawdown)
  {
    var b := Backtest(charges, strategy, inputs, cfg);
    if b.Ok? && Charted(r, b.value.trades, cfg.initialCapital, from, to) {
      BacktestPricesDecisions(charges, strategy, inputs, cfg);
      DrawdownsAgree(r, b.value.trades, cfg.initialCapital, cfg.slippagePct, from, to);
      EmptyDrawdown(cfg.initialCapital, cfg.slippagePct);
    }
  }

  lemma EmptyDrawdown(capital: real, slippagePct: real)
    ensures Summary([], capital, slippagePct).maxDrawdown == 0.0
  {
    Round2Zero();
  }

  // ---------------------------------------------------------------- when the drawdown stays at zero

  lemma {:induction false} PeakCovers(capital: real, trades: seq<Trade>, k: nat)
    requires k <= |trades|
    ensures AccountAfter(capital, trades, k).peak >= AccountAfter(capital, trades, k).equity
  {
    if k > 0 { PeakCovers(capital, trades, k - 1); }
  }

  /** The equity is less than 0.005 percent under a positive peak. */
  predicate NearPeak(a: Account) {
    a.peak > 0.0 ==> a.peak - a.equity < 0.00005 * a.peak
  }

  lemma RoundsToZero(x: real)
    requires x >= 0.0
    ensures Round4(x) == 0.0 <==> x < 0.00005
  {
    var v := Round(x * 10000.0);
    assert v == 0 <==> x * 10000.0 + 0.5 < 1.0;
  }

  lemma ShareOfPeak(peak: real, gap: real)
    requires peak > 0.0 && gap >= 0.0
    ensures gap / peak >= 0.0 && (gap / peak < 0.00005 <==> gap < 0.00005 * peak)
  {
    var share := gap / peak;
    assert share * peak == gap;
    assert (0.00005 - share) * peak == 0.00005 * peak - gap;
  }

  lemma FlatPoint(a: Account)
    requires a.peak >= a.equity
    ensures DrawdownPct(a) == 0.0 <==> NearPeak(a)
  {
    PctIsFraction(a);
    if a.peak > 0.0 {
      ShareOfPeak(a.peak, a.peak - a.equity);
      RoundsToZero(Fraction(a.peak, a.equity));
    }
  }

  ghost predicate Flat(points: seq<ChartPoint>) {
    forall i :: 0 <= i < |points| ==> points[i].value == 0.0
  }

  ghost predicate StaysNearPeak(capital: real, trades: seq<Trade>) {
    forall k :: 0 <= k <= |trades| ==> NearPeak(AccountAfter(capital, trades, k))
  }

  lemma FlatAt(r: ChartData, trades: seq<Trade>, capital: real, from: int, to: int, k: nat)
    requires from < to && Charted(r, trades, capital, from, to) && k <= |trades|
    ensures k < |r.drawdown|
    ensures r.drawdown[k].value == 0.0 <==> NearPeak(AccountAfter(capital, trades, k))
  {
    assert r.drawdown[k] == DrawdownPoint(trades, capital, from, k);
    PeakCovers(capital, trades, k);
    FlatPoint(AccountAfter(capital, trades, k));
  }

  lemma FlatIfNear(r: ChartData, trades: seq<Trade>, capital: real, from: int, to: int)
    requires from < to && Charted(r, trades, capital, from, to) && StaysNearPeak(capital, trades)
    ensures Flat(r.drawdown)
  {
    forall i | 0 <= i < |r.drawdown| ensures r.drawdown[i].value == 0.0 {
      FlatAt(r, trades, capital, from, to, if i <= |trades| then i else |trades|);
    }
  }

  lemma NearIfFlat(r: ChartData, trades: seq<Trade>, capital: real, from: int, to: int)
    requires from < to && Charted(r, trades, capital, from, to) && Flat(r.drawdown)
    ensures StaysNearPeak(capital, trades)
  {
    forall k | 0 <= k <= |trades| ensures NearPeak(AccountAfter(capital, trades, k)) {
      FlatAt(r, trades, capital, from, to, k);
    }
  }

  /** No equity lies 0.005 percent or more under an earlier positive one. */
  ghost predicate NeverFalls(capital: real, trades: seq<Trade>) {
    forall j, k :: 0 <= j <= k <= |trades| && Accounting.Equity(capital, trades, j) > 0.0 ==>
      Accounting.Equity(capital, trades, k) > 0.99995 * Accounting.Equity(capital, trades, j)
  }

  lemma NearPeakIfNeverFalls(capital: real, trades: seq<Trade>, k: nat)
    requires k <= |trades| && NeverFalls(capital, trades)
    ensures NearPeak(AccountAfter(capital, trades, k))
  {
    var peak := AccountAfter(capital, trades, k).peak;
    Accounting.PeakIsLargest(capital, trades, k);
    Accounting.EquityIsCapitalPlusNet(capital, trades, k);
    var j :| 0 <= j <= k && Accounting.Equity(capital, trades, j) == peak;
    assert peak > 0.0 ==> Accounting.Equity(capital, trades, k) > 0.99995 * peak;
  }

  lemma NeverFallsIfNearPeak(capital: real, trades: seq<Trade>)
    requires StaysNearPeak(capital, trades)
    ensures NeverFalls(capital, trades)
  {
    forall j, k | 0 <= j <= k <= |trades| && Accounting.Equity(capital, trades, j) > 0.0
      ensures Accounting.Equity(capital, trades, k) > 0.99995 * Accounting.Equity(capital, trades, j)
    {
      Accounting.PeakIsLargest(capital, trades, k);
      Accounting.EquityIsCapitalPlusNet(capital, trades, k);
      var a, e := AccountAfter(capital, trades, k), Accounting.Equity(capital, trades, j);
      assert NearPeak(a) && e <= a.peak;
    }
  }

  /** The whole drawdown series is zero exactly when no equity, capital plus the nets so far, falls 0.005 percent or
      more under an earlier positive one. The sign of the capital does not decide it. */
  lemma FlatExactlyWhen(r: ChartData, trades: seq<Trade>, capital: real, from: int, to: int)
    requires from < to && Charted(r, trades, capital, from, to)
    ensures Flat(r.drawdown) <==> NeverFalls(capital, trades)
  {
    if NeverFalls(capital, trades) {
      forall k | 0 <= k <= |trades| ensures NearPeak(AccountAfter(capital, trades, k)) {
        NearPeakIfNeverFalls(capital, trades, k);
      }
      FlatIfNear(r, trades, capital, from, to);
    }
    if Flat(r.drawdown) {
      NearIfFlat(r, trades, capital, from, to);
      NeverFallsIfNearPeak(capital, trades);
    }
  }

  /** No capital at all, a gain of 100 and a loss of 50: the chart shows a drawdown of 50 percent. */
  lemma ZeroCapitalCanDraw(from: int, to: int) returns (trades: seq<Trade>)
    requires from < to
    ensures forall r :: Charted(r, trades, 0.0, from, to) ==> |r.drawdown| > 2 && r.drawdown[2].value == 50.0
  {
    trades := [NetTrade(100.0), NetTrade(-50.0)];
    assert AccountAfter(0.0, trades, 1) == Account(100.0, 100.0, 0.0);
    var a := AccountAfter(0.0, trades, 2);
    HalfLost(a);
    assert DrawdownPoint(trades, 0.0, from, 2).value == 50.0;
  }

  lemma HalfLost(a: Account)
    requires a.equity == 50.0 && a.peak == 100.0
    ensures DrawdownPct(a) == 50.0
  {
  }

  // ---------------------------------------------------------------- the time axis

  ghost predicate TimesSorted(points: seq<ChartPoint>) {
    forall i, j :: 0 <= i < j < |points| ==> points[i].ts <= points[j].ts
  }

  /** At least two points, from `from` to `to`, in both series. */
  ghost predicate SpansInOrder(r: ChartData, from: int, to: int) {
    && |r.equity| == |r.drawdown| >= 2 && r.equity[0].ts == from && r.equity[|r.equity| - 1].ts == to
    && TimesSorted(r.equity) && TimesSorted(r.drawdown)
  }

  /** Over bars inside the run window, both series run from `from` to `to` without stepping back. */
  lemma ChartTimesSorted(r: ChartData, trades: seq<Trade>, capital: real, from: int, to: int)
    requires from < to && Charted(r, trades, capital, from, to) && Guarantees.TradesSequential(trades)
    requires forall i :: 0 <= i < |trades| ==> from <= trades[i].entryTimestamp && trades[i].exitTimestamp <= to
    ensures SpansInOrder(r, from, to)
  {
    var n := |trades|;
    forall i, j | 0 <= i < j <= n ensures from <= PointTime(trades, from, i) <= PointTime(trades, from, j) <= to {
      assert from <= trades[j - 1].entryTimestamp <= trades[j - 1].exitTimestamp;
      if i > 0 { assert trades[i - 1].exitTimestamp <= trades[j - 1].entryTimestamp; }
    }
  }

  /** For a backtest over bars inside the run window. */
  lemma ChartOfRunIsSorted(charges: ChargeCalculator, strategy: Strategy, inputs: EngineInputs, cfg: RunConfig,
                           r: ChartData, from: int, to: int)
    requires Chronological(inputs.tradeCandles) && from < to
    requires forall i :: 0 <= i < |inputs.tradeCandles| ==> from <= inputs.tradeCandles[i].timestamp <= to
    ensures var b := Backtest(charges, strategy, inputs, cfg);
            b.Ok? && Charted(r, b.value.trades, cfg.initialCapital, from, to) ==> SpansInOrder(r, from, to)
  {
    var b := Backtest(charges, strategy, inputs, cfg);
    if b.Ok? && Charted(r, b.value.trades, cfg.initialCapital, from, to) {
      Guarantees.TradesNeverOverlap(charges, strategy, inputs, cfg);
      ChartTimesSorted(r, b.value.trades, cfg.initialCapital, from, to);
    }
  }

  /** The equity curve starts at the capital and ends at the capital plus the net of all trades, both rounded. */
  lemma ChartEndsAtNet(r: ChartData, trades: seq<Trade>, capital: real, from: int, to: int)
    requires from < to && Charted(r, trades, capital, from, to)
    ensures r.equity[0].value == Round2(capital)
    ensures r.equity[|r.equity| - 1].value == Round2(capital + SumOf(trades, NetPnL, |trades|))
  {
    Accounting.EquityIsCapitalPlusNet(capital, trades, |trades|);
  }
}
