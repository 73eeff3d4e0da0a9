/** Statistics of a completed trade list. */
module Stats {
  import opened Types
  import opened Rounding
  import opened Engine
  import Series

  datatype TradeStats = TradeStats(
    avgWin: Option<real>, avgLoss: Option<real>, bestTrade: Option<real>, worstTrade: Option<real>,
    avgPnlPerTrade: Option<real>, avgHoldingMinutes: Option<real>, profitFactor: Option<real>, rewardRisk: Option<real>,
    longestWinStreak: nat, longestLossStreak: nat, tradesPerWeek: real)

  // ---------------------------------------------------------------- streaks

  datatype Outcome = Win | Loss | Flat

  function OutcomeOf(t: Trade): Outcome {
    if t.netPnL > 0.0 then Win else if t.netPnL < 0.0 then Loss else Flat
  }

  /** The trades i..j all have one outcome. */
  ghost predicate All(trades: seq<Trade>, outcome: Outcome, i: nat, j: nat)
    requires j <= |trades|
  {
    forall k :: i <= k < j ==> OutcomeOf(trades[k]) == outcome
  }

  /** `longest` is the length of the longest contiguous segment of one outcome among the first n trades. */
  ghost predicate IsLongest(trades: seq<Trade>, outcome: Outcome, n: nat, longest: nat)
    requires n <= |trades|
  {
    && (exists i, j :: 0 <= i <= j <= n && All(trades, outcome, i, j) && j - i == longest)
    && forall i, j :: 0 <= i <= j <= n && All(trades, outcome, i, j) ==> j - i <= longest
  }

  /** `current` is the length of the segment of one outcome that ends at trade n. */
  ghost predicate IsCurrent(trades: seq<Trade>, outcome: Outcome, n: nat, current: nat)
    requires n <= |trades|
  {
    && current <= n && All(trades, outcome, n - current, n)
    && (current < n ==> OutcomeOf(trades[n - current - 1]) != outcome)
  }

  lemma StreakStep(trades: seq<Trade>, outcome: Outcome, n: nat, current: nat, longest: nat)
    requires n < |trades| && IsCurrent(trades, outcome, n, current) && IsLongest(trades, outcome, n, longest)
    ensures var current' := if OutcomeOf(trades[n]) == outcome then current + 1 else 0;
            var longest' := if current' > longest then current' else longest;
            IsCurrent(trades, outcome, n + 1, current') && IsLongest(trades, outcome, n + 1, longest')
  {
    var current' := if OutcomeOf(trades[n]) == outcome then current + 1 else 0;
    var longest' := if current' > longest then current' else longest;
    if current' > longest {
      assert All(trades, outcome, n + 1 - current', n + 1);
    } else {
      var i, j :| 0 <= i <= j <= n && All(trades, outcome, i, j) && j - i == longest;
      assert j <= n + 1 && All(trades, outcome, i, j);
    }
    forall i, j | 0 <= i <= j <= n + 1 && All(trades, outcome, i, j) ensures j - i <= longest' {
      if j <= n {
        assert All(trades, outcome, i, j);
      } else if i <= n {
        assert OutcomeOf(trades[n]) == outcome;
        AtMostCurrent(trades, outcome, n, current, i);
      }
    }
  }

  lemma AtMostCurrent(trades: seq<Trade>, outcome: Outcome, n: nat, current: nat, i: nat)
    requires i <= n <= |trades| && IsCurrent(trades, outcome, n, current) && All(trades, outcome, i, n)
    ensures n - i <= current
  {
    assert current < n ==> OutcomeOf(trades[n - current - 1]) != outcome;
  }

  /** The streak that the n-th trade ends, and the longest one so far. */
  function Running(trades: seq<Trade>, outcome: Outcome, n: nat): nat
    requires n <= |trades|
  {
    if n > 0 && OutcomeOf(trades[n - 1]) == outcome then Running(trades, outcome, n - 1) + 1 else 0
  }

  function Longest(trades: seq<Trade>, outcome: Outcome, n: nat): nat
    requires n <= |trades|
  {
    if n == 0 then 0
    else if Running(trades, outcome, n) > Longest(trades, outcome, n - 1) then Running(trades, outcome, n)
    else Longest(trades, outcome, n - 1)
  }

  lemma {:induction false} StreaksAreSegments(trades: seq<Trade>, outcome: Outcome, n: nat)
    requires n <= |trades|
    ensures IsCurrent(trades, outcome, n, Running(trades, outcome, n))
    ensures IsLongest(trades, outcome, n, Longest(trades, outcome, n))
  {
    if n == 0 {
      assert All(trades, outcome, 0, 0);
    } else {
      StreaksAreSegments(trades, outcome, n - 1);
      StreakStep(trades, outcome, n - 1, Running(trades, outcome, n - 1), Longest(trades, outcome, n - 1));
    }
  }

  method ComputeStreaks(trades: seq<Trade>) returns (longestWin: nat, longestLoss: nat)
    ensures IsLongest(trades, Win, |trades|, longestWin) && IsLongest(trades, Loss, |trades|, longestLoss)
  {
    longestWin, longestLoss := 0, 0;
    var curWin, curLoss := 0, 0;
    for i := 0 to |trades|
      invariant curWin == Running(trades, Win, i) && longestWin == Longest(trades, Win, i)
      invariant curLoss == Running(trades, Loss, i) && longestLoss == Longest(trades, Loss, i)
    {
      if trades[i].netPnL > 0.0 {
        curWin := curWin + 1;
        curLoss := 0;
        if curWin > longestWin {
          longestWin := curWin;
        }
      } else if trades[i].netPnL < 0.0 {
        curLoss := curLoss + 1;
        curWin := 0;
        if curLoss > longestLoss {
          longestLoss := curLoss;
        }
      } else {
        curWin := 0;
        curLoss := 0;
      }
    }
    StreaksAreSegments(trades, Win, |trades|);
    StreaksAreSegments(trades, Loss, |trades|);
  }

  lemma {:induction false} SegmentIsCounted(trades: seq<Trade>, i: nat, j: nat, n: nat)
    requires i <= j && j <= n <= |trades|
    ensures All(trades, Win, i, j) ==> j - i <= Wins(trades, n)
    ensures All(trades, Loss, i, j) ==> j - i <= Losses(trades, n)
  {
    if i < j {
      SegmentIsCounted(trades, i, if j < n then j else j - 1, n - 1);
    }
  }

  /** A streak is never longer than the number of trades of its outcome. */
  lemma StreaksAreBounded(trades: seq<Trade>, longestWin: nat, longestLoss: nat)
    requires IsLongest(trades, Win, |trades|, longestWin) && IsLongest(trades, Loss, |trades|, longestLoss)
    ensures longestWin <= Wins(trades, |trades|) && longestLoss <= Losses(trades, |trades|)
  {
    var i, j :| 0 <= i <= j <= |trades| && All(trades, Win, i, j) && j - i == longestWin;
    SegmentIsCounted(trades, i, j, |trades|);
    var k, l :| 0 <= k <= l <= |trades| && All(trades, Loss, k, l) && l - k == longestLoss;
    SegmentIsCounted(trades, k, l, |trades|);
  }

  // ---------------------------------------------------------------- averages and extremes

  function WinSum(trades: seq<Trade>, n: nat): real
    requires n <= |trades|
  {
    if n == 0 then 0.0 else WinSum(trades, n - 1) + if trades[n - 1].netPnL > 0.0 then trades[n - 1].netPnL else 0.0
  }

  function LossSum(trades: seq<Trade>, n: nat): real
    requires n <= |trades|
  {
    if n == 0 then 0.0 else LossSum(trades, n - 1) + if trades[n - 1].netPnL < 0.0 then trades[n - 1].netPnL else 0.0
  }

  function Minutes(t: Trade): real {
    (t.exitTimestamp - t.entryTimestamp) as real / MINUTE as real
  }

  function HoldingSum(trades: seq<Trade>, n: nat): real
    requires n <= |trades|
  {
    if n == 0 then 0.0 else HoldingSum(trades, n - 1) + Minutes(trades[n - 1])
  }

  ghost predicate IsBest(trades: seq<Trade>, n: nat, best: real)
    requires n <= |trades|
  {
    (exists i :: 0 <= i < n && trades[i].netPnL == best) && forall i :: 0 <= i < n ==> trades[i].netPnL <= best
  }

  ghost predicate IsWorst(trades: seq<Trade>, n: nat, worst: real)
    requires n <= |trades|
  {
    (exists i :: 0 <= i < n && trades[i].netPnL == worst) && forall i :: 0 <= i < n ==> worst <= trades[i].netPnL
  }

  function Mean2(total: real, count: int): real
    requires count > 0
  {
    Round2(total / count as real)
  }

  function Ratio2(x: real, y: real): real
    requires y != 0.0
  {
    Round2(x / if y < 0.0 then -y else y)
  }

  function TradesPerWeek(n: int, from: int, to: int): real {
    var weeks := (to - from) as real / HOUR as real / 168.0;
    if weeks <= 0.0 then 0.0 else Round2(n as real / weeks)
  }

  const NO_STATS := TradeStats(None, None, None, None, None, None, None, None, 0, 0, 0.0)

  /** What the statistics of a non-empty list are, given its extremes and streaks. */
  function StatsOf(trades: seq<Trade>, best: real, worst: real, longestWin: nat, longestLoss: nat, from: int, to: int)
    : TradeStats
    requires |trades| > 0
  {
    var n := |trades|;
    var wins, losses, winSum, lossSum := Wins(trades, n), Losses(trades, n), WinSum(trades, n), LossSum(trades, n);
    var avgWin := if wins > 0 then Some(Mean2(winSum, wins)) else None;
    var avgLoss := if losses > 0 then Some(Mean2(lossSum, losses)) else None;
    TradeStats(
      avgWin, avgLoss, Some(Round2(best)), Some(Round2(worst)),
      Some(Mean2(winSum + lossSum, n)), Some(Mean2(HoldingSum(trades, n), n)),
      if winSum > 0.0 && lossSum < 0.0 then Some(Ratio2(winSum, lossSum)) else None,
      if avgWin.Some? && avgLoss.Some? && avgLoss.value != 0.0 then Some(Ratio2(avgWin.value, avgLoss.value)) else None,
      longestWin, longestLoss, TradesPerWeek(n, from, to))
  }

  ghost predicate Describes(s: TradeStats, trades: seq<Trade>, from: int, to: int) {
    if |trades| == 0 then s == NO_STATS
    else exists best: real, worst: real ::
           && IsBest(trades, |trades|, best) && IsWorst(trades, |trades|, worst)
           && IsLongest(trades, Win, |trades|, s.longestWinStreak)
           && IsLongest(trades, Loss, |trades|, s.longestLossStreak)
           && s == StatsOf(trades, best, worst, s.longestWinStreak, s.longestLossStreak, from, to)
  }

  method Totals(trades: seq<Trade>)
    returns (best: real, worst: real, winSum: real, lossSum: real, holding: real, winCount: nat, lossCount: nat)
    requires |trades| > 0
    ensures IsBest(trades, |trades|, best) && IsWorst(trades, |trades|, worst)
    ensures winSum == WinSum(trades, |trades|) && lossSum == LossSum(trades, |trades|)
    ensures holding == HoldingSum(trades, |trades|)
    ensures winCount == Wins(trades, |trades|) && lossCount == Losses(trades, |trades|)
  {
    winSum, lossSum, holding, winCount, lossCount := 0.0, 0.0, 0.0, 0, 0;
    best, worst := trades[0].netPnL, trades[0].netPnL;
    for i := 0 to |trades|
      invariant best == trades[0].netPnL || IsBest(trades, i, best)
      invariant worst == trades[0].netPnL || IsWorst(trades, i, worst)
      invariant forall k :: 0 <= k < i ==> worst <= trades[k].netPnL <= best
      invariant i > 0 ==> IsBest(trades, i, best) && IsWorst(trades, i, worst)
      invariant winSum == WinSum(trades, i) && lossSum == LossSum(trades, i) && holding == HoldingSum(trades, i)
      invariant winCount == Wins(trades, i) && lossCount == Losses(trades, i)
    {
      var tr := trades[i];
      if tr.netPnL > best {
        best := tr.netPnL;
      }
      if tr.netPnL < worst {
        worst := tr.netPnL;
      }
      holding := holding + Minutes(tr);
      if tr.netPnL > 0.0 {
        winSum := winSum + tr.netPnL;
        winCount := winCount + 1;
      } else if tr.netPnL < 0.0 {
        lossSum := lossSum + tr.netPnL;
        lossCount := lossCount + 1;
      }
    }
  }

  method ComputeTradeStats(trades: seq<Trade>, from: int, to: int) returns (s: TradeStats)
    ensures Describes(s, trades, from, to)
  {
    if |trades| == 0 {
      return NO_STATS;
    }
    var best, worst, winSum, lossSum, holding, winCount, lossCount := Totals(trades);
    var n := |trades|;
    s := NO_STATS;
    s := s.(bestTrade := Some(Round2(best)), worstTrade := Some(Round2(worst)));
    s := s.(avgPnlPerTrade := Some(Mean2(winSum + lossSum, n)), avgHoldingMinutes := Some(Mean2(holding, n)));
    if winCount > 0 {
      s := s.(avgWin := Some(Mean2(winSum, winCount)));
    }
    if lossCount > 0 {
      s := s.(avgLoss := Some(Mean2(lossSum, lossCount)));
    }
    if winSum > 0.0 && lossSum < 0.0 {
      s := s.(profitFactor := Some(Ratio2(winSum, lossSum)));
    }
    if s.avgWin.Some? && s.avgLoss.Some? && s.avgLoss.value != 0.0 {
      s := s.(rewardRisk := Some(Ratio2(s.avgWin.value, s.avgLoss.value)));
    }
    var longestWin, longestLoss := ComputeStreaks(trades);
    s := s.(longestWinStreak := longestWin, longestLossStreak := longestLoss);
    s := s.(tradesPerWeek := TradesPerWeek(n, from, to));
    assert s == StatsOf(trades, best, worst, longestWin, longestLoss, from, to);
  }

  // ---------------------------------------------------------------- what the statistics satisfy

  /** n copies of x added up. */
  function Copies(x: real, n: nat): real {
    if n == 0 then 0.0 else Copies(x, n - 1) + x
  }

  lemma {:induction false} CopiesMultiply(x: real, n: nat)
    ensures Copies(x, n) == x * n as real
  {
    if n > 0 {
      CopiesMultiply(x, n - 1);
      var k := (n - 1) as real;
      assert n as real == k + 1.0 && x * (k + 1.0) == x * k + x;
    }
  }

  ghost predicate Within(total: real, count: nat, worst: real, best: real) {
    Copies(worst, count) <= total <= Copies(best, count)
  }

  lemma {:induction false} SumsWithin(trades: seq<Trade>, n: nat, worst: real, best: real)
    requires n <= |trades| && forall i :: 0 <= i < n ==> worst <= trades[i].netPnL <= best
    ensures Within(WinSum(trades, n) + LossSum(trades, n), n, worst, best)
    ensures Within(WinSum(trades, n), Wins(trades, n), worst, best)
    ensures Within(LossSum(trades, n), Losses(trades, n), worst, best)
  {
    if n > 0 { SumsWithin(trades, n - 1, worst, best); }
  }

  ghost predicate Between(worst: real, x: real, best: real) {
    Round2(worst) <= x <= Round2(best)
  }

  lemma MeanWithin(total: real, count: nat, worst: real, best: real)
    requires count > 0 && Within(total, count, worst, best)
    ensures Between(worst, Mean2(total, count), best)
  {
    CopiesMultiply(worst, count);
    CopiesMultiply(best, count);
    Series.DivWithin(total, count as real, worst, best);
    Round2Monotone(worst, total / count as real);
    Round2Monotone(total / count as real, best);
  }

  lemma {:induction false} SumSigns(trades: seq<Trade>, n: nat)
    requires n <= |trades|
    ensures WinSum(trades, n) >= 0.0 && (WinSum(trades, n) > 0.0 <==> Wins(trades, n) > 0)
    ensures LossSum(trades, n) <= 0.0 && (LossSum(trades, n) < 0.0 <==> Losses(trades, n) > 0)
    ensures WinSum(trades, n) + LossSum(trades, n) == SumOf(trades, NetPnL, n)
  {
    if n > 0 { SumSigns(trades, n - 1); }
  }

  /** The three averages, when there is something to average, lie between the rounded extremes. */
  lemma AveragesWithin(trades: seq<Trade>, best: real, worst: real)
    requires |trades| > 0 && IsBest(trades, |trades|, best) && IsWorst(trades, |trades|, worst)
    ensures var n := |trades|;
            && Between(worst, Mean2(WinSum(trades, n) + LossSum(trades, n), n), best)
            && (Wins(trades, n) > 0 ==> Between(worst, Mean2(WinSum(trades, n), Wins(trades, n)), best))
            && (Losses(trades, n) > 0 ==> Between(worst, Mean2(LossSum(trades, n), Losses(trades, n)), best))
  {
    var n := |trades|;
    SumsWithin(trades, n, worst, best);
    MeanWithin(WinSum(trades, n) + LossSum(trades, n), n, worst, best);
    if Wins(trades, n) > 0 { MeanWithin(WinSum(trades, n), Wins(trades, n), worst, best); }
    if Losses(trades, n) > 0 { MeanWithin(LossSum(trades, n), Losses(trades, n), worst, best); }
  }

  /** Every average lies between the worst and the best trade. */
  ghost predicate AveragesOrdered(s: TradeStats) {
    && s.worstTrade.Some? && s.bestTrade.Some? && s.avgPnlPerTrade.Some? && s.avgHoldingMinutes.Some?
    && s.worstTrade.value <= s.avgPnlPerTrade.value <= s.bestTrade.value
    && (s.avgWin.Some? ==> s.worstTrade.value <= s.avgWin.value <= s.bestTrade.value)
    && (s.avgLoss.Some? ==> s.worstTrade.value <= s.avgLoss.value <= s.bestTrade.value)
  }

  /** Averages and profit factor are present exactly when defined. Reward/risk also needs an average loss of at
      least half a hundredth: a smaller one rounds to zero. */
  ghost predicate PresentWhenDefined(s: TradeStats, wins: nat, losses: nat, lossSum: real) {
    && (s.avgWin.Some? <==> wins > 0) && (s.avgLoss.Some? <==> losses > 0)
    && (s.profitFactor.Some? <==> wins > 0 && losses > 0)
    && (s.rewardRisk.Some? <==> wins > 0 && losses > 0 && lossSum / losses as real <= -0.005)
    && s.longestWinStreak <= wins && s.longestLossStreak <= losses
  }

  lemma RoundsAway(x: real)
    requires x <= 0.0
    ensures Round2(x) == 0.0 <==> x > -0.005
  {
    assert Round(x * 100.0) == 0 <==> -(x * 100.0) + 0.5 < 1.0;
  }

  /** The statistics of any non-empty list are consistent with each other and with the list. */
  lemma StatsAreConsistent(s: TradeStats, trades: seq<Trade>, from: int, to: int)
    requires |trades| > 0 && Describes(s, trades, from, to)
    ensures AveragesOrdered(s)
    ensures PresentWhenDefined(s, Wins(trades, |trades|), Losses(trades, |trades|), LossSum(trades, |trades|))
    ensures s.avgPnlPerTrade == Some(Mean2(SumOf(trades, NetPnL, |trades|), |trades|))
  {
    var n := |trades|;
    var best: real, worst: real :|
      && IsBest(trades, n, best) && IsWorst(trades, n, worst)
      && IsLongest(trades, Win, n, s.longestWinStreak) && IsLongest(trades, Loss, n, s.longestLossStreak)
      && s == StatsOf(trades, best, worst, s.longestWinStreak, s.longestLossStreak, from, to);
    SumSigns(trades, n);
    AveragesWithin(trades, best, worst);
    StreaksAreBounded(trades, s.longestWinStreak, s.longestLossStreak);
    if Losses(trades, n) > 0 { MeanLossRounds(LossSum(trades, n), Losses(trades, n)); }
  }

  lemma MeanLossRounds(lossSum: real, losses: nat)
    requires losses > 0 && lossSum <= 0.0
    ensures Mean2(lossSum, losses) == 0.0 <==> lossSum / losses as real > -0.005
  {
    Series.DivWithin(-lossSum, losses as real, 0.0, -lossSum / losses as real);
    assert lossSum / losses as real == -(-lossSum / losses as real);
    RoundsAway(lossSum / losses as real);
  }

  /** A win of 1 and a loss of 0.001: both averages are there, the ratio is not. */
  lemma RewardRiskCanBeMissing(from: int, to: int) returns (trades: seq<Trade>)
    ensures forall s :: Describes(s, trades, from, to) ==> s.avgWin.Some? && s.avgLoss.Some? && s.rewardRisk.None?
  {
    trades := [NetTrade(1.0), NetTrade(-0.001)];
    assert Wins(trades, 1) == 1 && Losses(trades, 1) == 0 && LossSum(trades, 1) == 0.0;
    assert Wins(trades, 2) == 1 && Losses(trades, 2) == 1 && LossSum(trades, 2) == -0.001;
    forall s | Describes(s, trades, from, to) ensures s.avgWin.Some? && s.avgLoss.Some? && s.rewardRisk.None? {
      StatsAreConsistent(s, trades, from, to);
    }
  }
}
