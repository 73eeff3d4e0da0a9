/** What a report shows, told from the trade list: every point of the charts and every statistic. */
module ReportFacts {
  import opened Types
  import opened Rounding
  import opened Series
  import opened RunFacts
  import Accounting
  import Charts
  import Engine
  import Stats

  // ---------------------------------------------------------------- charts

  /** Capital and the nets of the first k trades. */
  function EquityAt(ts: seq<Trade>, capital: real, k: nat): real
    requires k <= |ts|
  {
    capital + RangeSum(Nets(ts), 0, k)
  }

  ghost predicate IsHighest(ts: seq<Trade>, capital: real, k: nat, peak: real)
    requires k <= |ts|
  {
    && (forall j :: 0 <= j <= k ==> EquityAt(ts, capital, j) <= peak)
    && exists j :: 0 <= j <= k && EquityAt(ts, capital, j) == peak
  }

  /** The drop of an equity under the highest one so far, in percent of it, with two places. */
  ghost predicate ShowsDrop(shown: real, equity: real, peak: real) {
    shown == if peak > 0.0 then Round2(100.0 * (peak - equity) / peak) else 0.0
  }

  /** A point shows the equity after k trades, with two places, and the drop under the highest equity so far. */
  ghost predicate ShowsAccount(equity: Charts.ChartPoint, drawdown: Charts.ChartPoint, ts: seq<Trade>, capital: real,
                               k: nat, time: int)
    requires k <= |ts|
  {
    && equity.ts == drawdown.ts == time
    && equity.value == Round2(EquityAt(ts, capital, k))
    && exists peak :: IsHighest(ts, capital, k, peak) && ShowsDrop(drawdown.value, EquityAt(ts, capital, k), peak)
  }

  lemma EquityAtIs(ts: seq<Trade>, capital: real, k: nat)
    requires k <= |ts|
    ensures EquityAt(ts, capital, k) == Engine.AccountAfter(capital, ts, k).equity == Accounting.Equity(capital, ts, k)
  {
    Accounting.EquityIsCapitalPlusNet(capital, ts, k);
    SumsAre(ts, k);
  }

  lemma HighestIs(ts: seq<Trade>, capital: real, k: nat)
    requires k <= |ts|
    ensures IsHighest(ts, capital, k, Engine.AccountAfter(capital, ts, k).peak)
  {
    Accounting.PeakIsLargest(capital, ts, k);
    forall j | 0 <= j <= k ensures EquityAt(ts, capital, j) == Accounting.Equity(capital, ts, j) {
      EquityAtIs(ts, capital, j);
    }
  }

  lemma ScaledQuotient(x: real, n: real, c: real)
    requires n != 0.0
    ensures x / n * c == c * x / n
  {
    var q := x / n;
    assert c * x == q * c * n;
  }

  lemma DropIs(a: Engine.Account)
    ensures ShowsDrop(Charts.DrawdownPct(a), a.equity, a.peak)
  {
    if a.peak > 0.0 {
      ScaledQuotient(a.peak - a.equity, a.peak, 100.0);
    }
  }

  lemma AccountIsShown(ts: seq<Trade>, capital: real, from: int, k: nat, time: int)
    requires k <= |ts|
    ensures var equity, drawdown :=
              Charts.EquityPoint(ts, capital, from, k), Charts.DrawdownPoint(ts, capital, from, k);
            ShowsAccount(Charts.ChartPoint(time, equity.value), Charts.ChartPoint(time, drawdown.value), ts, capital, k,
                         time)
  {
    EquityAtIs(ts, capital, k);
    HighestIs(ts, capital, k);
    DropIs(Engine.AccountAfter(capital, ts, k));
  }

  /** When the k-th account state is shown: at the start, then at each exit. */
  ghost predicate ShowsRun(r: Charts.ChartData, ts: seq<Trade>, capital: real, from: int, to: int) {
    var n := |ts|;
    var ended := n > 0 && ts[n - 1].exitTimestamp == to;
    && |r.equity| == |r.drawdown| == (if ended then n + 1 else n + 2)
    && ShowsAccount(r.equity[0], r.drawdown[0], ts, capital, 0, from)
    && (forall k :: 1 <= k <= n ==>
          ShowsAccount(r.equity[k], r.drawdown[k], ts, capital, k, ts[k - 1].exitTimestamp))
    && (!ended ==> ShowsAccount(r.equity[n + 1], r.drawdown[n + 1], ts, capital, n, to))
  }

  /** What a chart shows: the account at the start, at every exit, and at the end unless the last exit is there. */
  lemma ChartShowsRun(r: Charts.ChartData, ts: seq<Trade>, capital: real, from: int, to: int)
    requires Charts.Charted(r, ts, capital, from, to) && from < to
    ensures ShowsRun(r, ts, capital, from, to)
  {
    AccountIsShown(ts, capital, from, 0, from);
    forall k | 1 <= k <= |ts|
      ensures ShowsAccount(r.equity[k], r.drawdown[k], ts, capital, k, ts[k - 1].exitTimestamp)
    {
      AccountIsShown(ts, capital, from, k, ts[k - 1].exitTimestamp);
    }
    AccountIsShown(ts, capital, from, |ts|, to);
  }

  // ---------------------------------------------------------------- statistics

  function Gains(ts: seq<Trade>): seq<real> {
    seq(|ts|, i requires 0 <= i < |ts| => if ts[i].netPnL > 0.0 then ts[i].netPnL else 0.0)
  }

  /** What the losing trades lost, as positive amounts. */
  function Drains(ts: seq<Trade>): seq<real> {
    seq(|ts|, i requires 0 <= i < |ts| => if ts[i].netPnL < 0.0 then -ts[i].netPnL else 0.0)
  }

  /** How long the trades were held, in nanoseconds. */
  function Holdings(ts: seq<Trade>): seq<real> {
    seq(|ts|, i requires 0 <= i < |ts| => (ts[i].exitTimestamp - ts[i].entryTimestamp) as real)
  }

  lemma {:induction false} GainsAre(ts: seq<Trade>, n: nat)
    requires n <= |ts|
    ensures Stats.WinSum(ts, n) == RangeSum(Gains(ts), 0, n)
    ensures Stats.LossSum(ts, n) == -RangeSum(Drains(ts), 0, n)
  {
    if n > 0 { GainsAre(ts, n - 1); }
  }

  lemma MinutesAre(t: Trade)
    ensures Stats.Minutes(t) * 60_000_000_000.0 == (t.exitTimestamp - t.entryTimestamp) as real
  {
  }

  lemma {:induction false} HoldingsAre(ts: seq<Trade>, n: nat)
    requires n <= |ts|
    ensures Stats.HoldingSum(ts, n) * 60_000_000_000.0 == RangeSum(Holdings(ts), 0, n)
  {
    if n > 0 {
      HoldingsAre(ts, n - 1);
      MinutesAre(ts[n - 1]);
    }
  }

  /** The averages, with two places, of the nets, the wins, the losses and the minutes held. */
  ghost predicate ShowsAverages(s: Stats.TradeStats, ts: seq<Trade>)
    requires |ts| > 0
  {
    var n, wins, losses := |ts|, |Winners(ts, |ts|)|, |Losers(ts, |ts|)|;
    && s.avgPnlPerTrade == Some(Round2(RangeSum(Nets(ts), 0, n) / n as real))
    && s.avgWin == (if wins > 0 then Some(Round2(RangeSum(Gains(ts), 0, n) / wins as real)) else None)
    && s.avgLoss == (if losses > 0 then Some(Round2(-RangeSum(Drains(ts), 0, n) / losses as real)) else None)
    && s.avgHoldingMinutes == Some(Round2(RangeSum(Holdings(ts), 0, n) / 60_000_000_000.0 / n as real))
  }

  /** Gains per unit lost, of the sums for the profit factor and of the shown averages for reward/risk. */
  ghost predicate ShowsRatios(s: Stats.TradeStats, ts: seq<Trade>)
    requires |ts| > 0
  {
    var n := |ts|;
    var gains, drains := RangeSum(Gains(ts), 0, n), RangeSum(Drains(ts), 0, n);
    && s.profitFactor == (if gains > 0.0 && drains > 0.0 then Some(Round2(gains / drains)) else None)
    && s.rewardRisk == (if s.avgWin.Some? && s.avgLoss.Some? && s.avgLoss.value < 0.0
                        then Some(Round2(s.avgWin.value / -s.avgLoss.value)) else None)
  }

  ghost predicate ShowsExtremes(s: Stats.TradeStats, ts: seq<Trade>) {
    && (exists i :: 0 <= i < |ts| && s.bestTrade == Some(Round2(ts[i].netPnL)) &&
          forall j :: 0 <= j < |ts| ==> ts[j].netPnL <= ts[i].netPnL)
    && (exists i :: 0 <= i < |ts| && s.worstTrade == Some(Round2(ts[i].netPnL)) &&
          forall j :: 0 <= j < |ts| ==> ts[i].netPnL <= ts[j].netPnL)
  }

  /** Trades per week of 604800 seconds, with two places; zero for an empty or reversed span. */
  ghost predicate ShowsPace(s: Stats.TradeStats, n: int, from: int, to: int) {
    s.tradesPerWeek ==
    if from < to then Round2(n as real * 604_800_000_000_000.0 / (to - from) as real) else 0.0
  }

  lemma PaceIs(n: int, from: int, to: int)
    ensures Stats.TradesPerWeek(n, from, to) ==
            if from < to then Round2(n as real * 604_800_000_000_000.0 / (to - from) as real) else 0.0
  {
    var span := (to - from) as real;
    var weeks := span / 3_600_000_000_000.0 / 168.0;
    assert weeks == span / 604_800_000_000_000.0;
    if from < to {
      DividedTwice(n as real, span, 604_800_000_000_000.0);
    }
  }

  lemma DividedTwice(x: real, y: real, c: real)
    requires y > 0.0 && c > 0.0
    ensures x / (y / c) == x * c / y
  {
    var q, r := x / (y / c), x * c / y;
    assert q * (y / c) == x;
    assert q * y == x * c == r * y;
    assert (q - r) * y == 0.0;
  }

  /** What the statistics of a non-empty list show. */
  lemma StatsShowTrades(s: Stats.TradeStats, ts: seq<Trade>, from: int, to: int)
    requires |ts| > 0 && Stats.Describes(s, ts, from, to)
    ensures ShowsAverages(s, ts) && ShowsRatios(s, ts) && ShowsExtremes(s, ts) && ShowsPace(s, |ts|, from, to)
  {
    var best: real, worst: real :|
      && Stats.IsBest(ts, |ts|, best) && Stats.IsWorst(ts, |ts|, worst)
      && s == Stats.StatsOf(ts, best, worst, s.longestWinStreak, s.longestLossStreak, from, to);
    StatsShown(s, ts, best, worst, from, to);
  }

  lemma StatsShown(s: Stats.TradeStats, ts: seq<Trade>, best: real, worst: real, from: int, to: int)
    requires |ts| > 0 && Stats.IsBest(ts, |ts|, best) && Stats.IsWorst(ts, |ts|, worst)
    requires s == Stats.StatsOf(ts, best, worst, s.longestWinStreak, s.longestLossStreak, from, to)
    ensures ShowsAverages(s, ts) && ShowsRatios(s, ts) && ShowsExtremes(s, ts) && ShowsPace(s, |ts|, from, to)
  {
    AveragesShown(s, ts, best, worst, from, to);
    RatiosShown(s, ts, best, worst, from, to);
    ExtremesShown(s, ts, best, worst);
    PaceIs(|ts|, from, to);
  }

  lemma ExtremesShown(s: Stats.TradeStats, ts: seq<Trade>, best: real, worst: real)
    requires Stats.IsBest(ts, |ts|, best) && Stats.IsWorst(ts, |ts|, worst)
    requires s.bestTrade == Some(Round2(best)) && s.worstTrade == Some(Round2(worst))
    ensures ShowsExtremes(s, ts)
  {
    var i :| 0 <= i < |ts| && ts[i].netPnL == best;
    var k :| 0 <= k < |ts| && ts[k].netPnL == worst;
    assert s.bestTrade == Some(Round2(ts[i].netPnL)) && s.worstTrade == Some(Round2(ts[k].netPnL));
  }

  lemma AveragesShown(s: Stats.TradeStats, ts: seq<Trade>, best: real, worst: real, from: int, to: int)
    requires |ts| > 0
    requires s == Stats.StatsOf(ts, best, worst, s.longestWinStreak, s.longestLossStreak, from, to)
    ensures ShowsAverages(s, ts)
  {
    var n := |ts|;
    WinsAre(ts, n);
    LossesAre(ts, n);
    GainsAre(ts, n);
    HoldingsAre(ts, n);
    Stats.SumSigns(ts, n);
    SumsAre(ts, n);
  }

  lemma RatiosShown(s: Stats.TradeStats, ts: seq<Trade>, best: real, worst: real, from: int, to: int)
    requires |ts| > 0
    requires s == Stats.StatsOf(ts, best, worst, s.longestWinStreak, s.longestLossStreak, from, to)
    ensures ShowsRatios(s, ts)
  {
    var n := |ts|;
    GainsAre(ts, n);
    Stats.SumSigns(ts, n);
    if Engine.Losses(ts, n) > 0 { LossIsNotPositive(Stats.LossSum(ts, n), Engine.Losses(ts, n)); }
  }

  lemma LossIsNotPositive(lossSum: real, losses: nat)
    requires losses > 0 && lossSum <= 0.0
    ensures Stats.Mean2(lossSum, losses) <= 0.0
  {
    DivWithin(-lossSum, losses as real, 0.0, -lossSum / losses as real);
    assert lossSum / losses as real == -(-lossSum / losses as real);
    Round2Monotone(lossSum / losses as real, 0.0);
    Round2Zero();
  }
}
