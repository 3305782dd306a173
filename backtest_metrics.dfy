// Summary statistics the backtest engine computes from its trades and equity curve
// (iaf-service/backtesting/engine.py:424-576).

module BacktestMetrics {
  import opened Common
  import opened BacktestTypes

  const MillisPerDay: int := 86400000

  /** The metrics kept by this model; total_return_percentage is None where the source
      divides by a zero initial capital. */
  datatype Metrics = Metrics(
    totalTrades: nat,
    winningTrades: nat,
    losingTrades: nat,
    winRate: real,
    avgWin: real,
    avgLoss: real,
    largestWin: real,
    largestLoss: real,
    avgTrade: real,
    profitFactor: ProfitFactor,
    riskRewardRatio: real,
    expectancy: real,
    totalReturn: real,
    totalReturnPercentage: Option<real>,
    maxDrawdown: real,
    maxDrawdownPercentage: real,
    avgDrawdown: real,
    maxDrawdownDuration: nat,
    avgHoldingTimeHours: real,
    tradingDays: int,
    tradesPerDay: real,
    maxConsecutiveWins: nat,
    maxConsecutiveLosses: nat)

  /** BacktestMetrics() with every field at its default. */
  const DefaultMetrics := Metrics(0, 0, 0, 0.0, 0.0, 0.0, 0.0, 0.0, 0.0, Finite(0.0), 0.0, 0.0,
                                  0.0, Some(0.0), 0.0, 0.0, 0.0, 0, 0.0, 0, 0.0, 0, 0)

  function WinFlags(trades: seq<BacktestTrade>): (f: seq<bool>)
    ensures |f| == |trades| && forall k :: 0 <= k < |f| ==> (f[k] <==> IsWinner(trades[k]))
  {
    seq(|trades|, k requires 0 <= k < |trades| => IsWinner(trades[k]))
  }

  function LossFlags(trades: seq<BacktestTrade>): (f: seq<bool>)
    ensures |f| == |trades| && forall k :: 0 <= k < |f| ==> (f[k] <==> !IsWinner(trades[k]))
  {
    seq(|trades|, k requires 0 <= k < |trades| => !IsWinner(trades[k]))
  }

  function DrawdownFlags(curve: seq<EquityPoint>): (f: seq<bool>)
    ensures |f| == |curve| && forall k :: 0 <= k < |f| ==> (f[k] <==> curve[k].drawdown > 0.0)
  {
    seq(|curve|, k requires 0 <= k < |curve| => curve[k].drawdown > 0.0)
  }

  /** Pnl of the winning trades, in trade order. */
  function WinPnls(trades: seq<BacktestTrade>): seq<real>
  {
    if |trades| == 0 then []
    else WinPnls(trades[..|trades| - 1])
         + (if IsWinner(trades[|trades| - 1]) then [trades[|trades| - 1].pnl] else [])
  }

  /** Pnl of the other trades (breaking even included), in trade order. */
  function LossPnls(trades: seq<BacktestTrade>): seq<real>
  {
    if |trades| == 0 then []
    else LossPnls(trades[..|trades| - 1])
         + (if IsWinner(trades[|trades| - 1]) then [] else [trades[|trades| - 1].pnl])
  }

  /** Every trade lands in exactly one of the two lists. */
  lemma {:induction false} WinLossCounts(trades: seq<BacktestTrade>)
    ensures |WinPnls(trades)| == CountTrue(WinFlags(trades))
    ensures |WinPnls(trades)| + |LossPnls(trades)| == |trades|
    decreases |trades|
  {
    if |trades| > 0 {
      var init := trades[..|trades| - 1];
      WinLossCounts(init);
      assert WinFlags(trades)[..|trades| - 1] == WinFlags(init);
    }
  }

  /** The two lists split the total pnl. */
  lemma {:induction false} WinLossSums(trades: seq<BacktestTrade>)
    ensures Sum(WinPnls(trades)) + Sum(LossPnls(trades)) == Sum(Pnls(trades))
    decreases |trades|
  {
    if |trades| > 0 {
      var init := trades[..|trades| - 1];
      var t := trades[|trades| - 1];
      WinLossSums(init);
      assert Pnls(trades) == Pnls(init) + [t.pnl];
      SumAppend(Pnls(init), t.pnl);
      if IsWinner(t) {
        assert WinPnls(trades) == WinPnls(init) + [t.pnl];
        assert LossPnls(trades) == LossPnls(init);
        SumAppend(WinPnls(init), t.pnl);
      } else {
        assert WinPnls(trades) == WinPnls(init);
        assert LossPnls(trades) == LossPnls(init) + [t.pnl];
        SumAppend(LossPnls(init), t.pnl);
      }
    }
  }

  /** Winners are strictly positive, the rest are at most zero. */
  lemma {:induction false} WinLossSigns(trades: seq<BacktestTrade>)
    ensures forall k :: 0 <= k < |WinPnls(trades)| ==> WinPnls(trades)[k] > 0.0
    ensures forall k :: 0 <= k < |LossPnls(trades)| ==> LossPnls(trades)[k] <= 0.0
    decreases |trades|
  {
    if |trades| > 0 {
      WinLossSigns(trades[..|trades| - 1]);
    }
  }

  function Pnls(trades: seq<BacktestTrade>): (s: seq<real>)
    ensures |s| == |trades| && forall k :: 0 <= k < |s| ==> s[k] == trades[k].pnl
  {
    seq(|trades|, k requires 0 <= k < |trades| => trades[k].pnl)
  }

  function DrawdownAmounts(curve: seq<EquityPoint>): (s: seq<real>)
    ensures |s| == |curve| && forall k :: 0 <= k < |s| ==> s[k] == curve[k].drawdown
  {
    seq(|curve|, k requires 0 <= k < |curve| => curve[k].drawdown)
  }

  function DrawdownPercentages(curve: seq<EquityPoint>): (s: seq<real>)
    ensures |s| == |curve| && forall k :: 0 <= k < |s| ==> s[k] == curve[k].drawdownPercentage
  {
    seq(|curve|, k requires 0 <= k < |curve| => curve[k].drawdownPercentage)
  }

  function HoldingHours(trades: seq<BacktestTrade>): (s: seq<real>)
    ensures |s| == |trades|
    ensures forall k :: 0 <= k < |s| ==> s[k] * 3600.0 == trades[k].holdingTimeSeconds as real
  {
    seq(|trades|, k requires 0 <= k < |trades| => (trades[k].holdingTimeSeconds as real) / 3600.0)
  }

  /** Period returns: one entry per consecutive pair whose earlier equity is positive. */
  function PeriodReturns(equities: seq<real>): seq<real>
  {
    if |equities| < 2 then []
    else
      var n := |equities|;
      PeriodReturns(equities[..n - 1])
      + (if equities[n - 2] > 0.0 then [(equities[n - 1] - equities[n - 2]) / equities[n - 2]] else [])
  }

  function Equities(curve: seq<EquityPoint>): (s: seq<real>)
    ensures |s| == |curve| && forall k :: 0 <= k < |s| ==> s[k] == curve[k].equity
  {
    seq(|curve|, k requires 0 <= k < |curve| => curve[k].equity)
  }

  /** With every equity positive there is exactly one return per consecutive pair,
      the relative change between them. */
  lemma {:induction false} PeriodReturnsAllPositive(equities: seq<real>)
    requires forall k :: 0 <= k < |equities| ==> equities[k] > 0.0
    ensures |equities| >= 1 ==> |PeriodReturns(equities)| == |equities| - 1
    ensures forall k :: 0 <= k < |PeriodReturns(equities)| ==>
      PeriodReturns(equities)[k] == (equities[k + 1] - equities[k]) / equities[k]
    decreases |equities|
  {
    if |equities| >= 2 {
      var n := |equities|;
      PeriodReturnsAllPositive(equities[..n - 1]);
      assert forall k :: 0 <= k < n - 1 ==> equities[..n - 1][k] == equities[k];
    }
  }

  /** _calculate_returns: walks the curve and keeps the returns of positive prior equity. */
  method CalculateReturns(curve: seq<EquityPoint>) returns (rets: seq<real>)
    ensures rets == PeriodReturns(Equities(curve))
    ensures |rets| <= if |curve| == 0 then 0 else |curve| - 1
  {
    ghost var e := Equities(curve);
    if |curve| < 2 {
      return [];
    }
    rets := [];
    var i := 1;
    while i < |curve|
      invariant 1 <= i <= |curve|
      invariant rets == PeriodReturns(e[..i])
      invariant |rets| <= i - 1
    {
      var prevEquity := curve[i - 1].equity;
      var currEquity := curve[i].equity;
      assert e[..i + 1][..i] == e[..i];
      if prevEquity > 0.0 {
        rets := rets + [(currEquity - prevEquity) / prevEquity];
      }
      i := i + 1;
    }
    assert e[..|curve|] == e;
  }

  /** _calculate_max_drawdown_duration: the longest run of points in drawdown. */
  method MaxDrawdownDuration(curve: seq<EquityPoint>) returns (r: nat)
    ensures IsLongestRun(DrawdownFlags(curve), r)
  {
    ghost var flags := DrawdownFlags(curve);
    if |curve| == 0 {
      assert AllTrue(flags, 0, 0);
      return 0;
    }
    var maxDuration: nat := 0;
    var currentDuration: nat := 0;
    ghost var bestStart: nat := 0;
    var i := 0;
    while i < |curve|
      invariant 0 <= i <= |curve|
      invariant currentDuration <= i && AllTrue(flags, i - currentDuration, i)
      invariant i - currentDuration == 0 || !flags[i - currentDuration - 1]
      invariant bestStart + maxDuration <= i && AllTrue(flags, bestStart, bestStart + maxDuration)
      invariant forall a, b :: 0 <= a <= b <= i && AllTrue(flags, a, b) ==>
        b - a <= maxDuration || b - a <= currentDuration
    {
      if curve[i].drawdown > 0.0 {
        RunExtends(flags, i, currentDuration, maxDuration);
        currentDuration := currentDuration + 1;
      } else {
        RunBreaks(flags, i, currentDuration, maxDuration);
        if currentDuration > maxDuration {
          bestStart := i - currentDuration;
          maxDuration := currentDuration;
        }
        currentDuration := 0;
      }
      i := i + 1;
    }
    if currentDuration > maxDuration {
      r := currentDuration;
      assert AllTrue(flags, |curve| - currentDuration, |curve|);
    } else {
      r := maxDuration;
    }
  }

  /** A true flag at i extends the run that ends at i by one. */
  lemma RunExtends(flags: seq<bool>, i: nat, current: nat, best: nat)
    requires i < |flags| && flags[i] && current <= i
    requires i - current == 0 || !flags[i - current - 1]
    requires forall a, b :: 0 <= a <= b <= i && AllTrue(flags, a, b) ==> b - a <= best || b - a <= current
    ensures forall a, b :: 0 <= a <= b <= i + 1 && AllTrue(flags, a, b) ==>
      b - a <= best || b - a <= current + 1
  {
    forall a, b | 0 <= a <= b <= i + 1 && AllTrue(flags, a, b)
      ensures b - a <= best || b - a <= current + 1
    {
      if b == i + 1 && i - current > 0 {
        assert !flags[i - current - 1];
      }
    }
  }

  /** A false flag at i closes every run: no window that reaches past i is all true. */
  lemma RunBreaks(flags: seq<bool>, i: nat, current: nat, best: nat)
    requires i < |flags| && !flags[i]
    requires forall a, b :: 0 <= a <= b <= i && AllTrue(flags, a, b) ==> b - a <= best || b - a <= current
    ensures forall a, b :: 0 <= a <= b <= i + 1 && AllTrue(flags, a, b) ==>
      b - a <= (if current > best then current else best)
  {
    forall a, b | 0 <= a <= b <= i + 1 && AllTrue(flags, a, b)
      ensures b - a <= (if current > best then current else best)
    {
      if b == i + 1 {
        assert !flags[i];
      }
    }
  }

  /** The scan state after i flags: the run ending at i has length current, and the
      longest run so far, of length best, starts at start. */
  ghost predicate RunTracked(flags: seq<bool>, i: nat, current: nat, best: nat, start: nat)
    requires i <= |flags|
  {
    current <= best && current <= i && AllTrue(flags, i - current, i)
    && (i - current == 0 || !flags[i - current - 1])
    && start + best <= i && AllTrue(flags, start, start + best)
    && forall a, b :: 0 <= a <= b <= i && AllTrue(flags, a, b) ==> b - a <= best
  }

  /** One more flag: the current run grows or resets, and the best run follows it. */
  lemma RunAdvance(flags: seq<bool>, i: nat, current: nat, best: nat, start: nat,
                   current': nat, best': nat, start': nat)
    requires i < |flags| && RunTracked(flags, i, current, best, start)
    requires current' == if flags[i] then current + 1 else 0
    requires current' > best ==> best' == current' && start' == i + 1 - current'
    requires current' <= best ==> best' == best && start' == start
    ensures RunTracked(flags, i + 1, current', best', start')
  {
    if flags[i] {
      RunExtends(flags, i, current, best);
    } else {
      RunBreaks(flags, i, current, best);
    }
  }

  /** _calculate_consecutive_wins_losses: the longest runs of winners and of other trades. */
  method ConsecutiveWinsLosses(trades: seq<BacktestTrade>) returns (maxWins: nat, maxLosses: nat)
    ensures IsLongestRun(WinFlags(trades), maxWins)
    ensures IsLongestRun(LossFlags(trades), maxLosses)
    ensures |trades| == 0 ==> maxWins == 0 && maxLosses == 0
  {
    ghost var wf := WinFlags(trades);
    ghost var lf := LossFlags(trades);
    if |trades| == 0 {
      assert AllTrue(wf, 0, 0) && AllTrue(lf, 0, 0);
      return 0, 0;
    }
    maxWins, maxLosses := 0, 0;
    var currentWins: nat, currentLosses: nat := 0, 0;
    ghost var winStart: nat, lossStart: nat := 0, 0;
    var i := 0;
    while i < |trades|
      invariant 0 <= i <= |trades|
      invariant RunTracked(wf, i, currentWins, maxWins, winStart)
      invariant RunTracked(lf, i, currentLosses, maxLosses, lossStart)
    {
      var nextWins: nat, nextLosses: nat := 0, 0;
      if IsWinner(trades[i]) {
        nextWins := currentWins + 1;
      } else {
        nextLosses := currentLosses + 1;
      }
      var bestWins, bestLosses := maxWins, maxLosses;
      ghost var ws, ls := winStart, lossStart;
      if nextWins > maxWins {
        bestWins, ws := nextWins, i + 1 - nextWins;
      }
      if nextLosses > maxLosses {
        bestLosses, ls := nextLosses, i + 1 - nextLosses;
      }
      RunAdvance(wf, i, currentWins, maxWins, winStart, nextWins, bestWins, ws);
      RunAdvance(lf, i, currentLosses, maxLosses, lossStart, nextLosses, bestLosses, ls);
      currentWins, currentLosses, maxWins, maxLosses := nextWins, nextLosses, bestWins, bestLosses;
      winStart, lossStart := ws, ls;
      i := i + 1;
    }
  }


  /** x is the largest element of s, as Python's `max` returns it. */
  ghost predicate IsLargest(s: seq<real>, x: real)
  {
    (forall i :: 0 <= i < |s| ==> s[i] <= x) && (exists i :: 0 <= i < |s| && s[i] == x)
  }

  /** x is the smallest element of s, as Python's `min` returns it. */
  ghost predicate IsSmallest(s: seq<real>, x: real)
  {
    (forall i :: 0 <= i < |s| ==> x <= s[i]) && (exists i :: 0 <= i < |s| && s[i] == x)
  }

  /** The figures _calculate_metrics takes from the equity curve: all at their defaults for
      an empty curve; otherwise the last equity less the initial capital (and its percentage,
      None where the source divides by a zero capital), the largest drawdown in money and in
      percent, the mean drawdown percentage and the longest run of points in drawdown. */
  ghost predicate IsCurveStatistics(curve: seq<EquityPoint>, initialCapital: real, totalReturn: real,
                                    totalReturnPct: Option<real>, maxDd: real, maxDdPct: real, avgDd: real,
                                    duration: nat)
  {
    IsLongestRun(DrawdownFlags(curve), duration)
    && (|curve| == 0 ==>
          totalReturn == 0.0 && totalReturnPct == Some(0.0) && maxDd == 0.0 && maxDdPct == 0.0 && avgDd == 0.0)
    && (|curve| > 0 ==>
          totalReturn == curve[|curve| - 1].equity - initialCapital
          && (initialCapital == 0.0 ==> totalReturnPct.None?)
          && (initialCapital != 0.0 ==> totalReturnPct == Some(totalReturn / initialCapital * 100.0))
          && IsLargest(DrawdownAmounts(curve), maxDd)
          && IsLargest(DrawdownPercentages(curve), maxDdPct)
          && avgDd == Mean(DrawdownPercentages(curve)))
  }

  /** Python's abs(a / b) is the quotient of the two sizes. */
  lemma AbsQuotient(a: real, b: real)
    requires b != 0.0
    ensures Abs(a / b) == Abs(a) / Abs(b)
  {
    var q := a / b;
    assert q * b == a;
    if q < 0.0 {
      assert Abs(q) * Abs(b) == Abs(a) by {
        if b < 0.0 { assert a >= 0.0; } else { assert a <= 0.0; }
      }
    } else {
      assert Abs(q) * Abs(b) == Abs(a) by {
        if b < 0.0 { assert a <= 0.0; } else { assert a >= 0.0; }
      }
    }
  }

  /** The expectancy formula: win frequency times the mean win less loss frequency times
      the size of the mean loss. */
  function Expectancy(winning: nat, losing: nat, avgWin: real, avgLoss: real): real
    requires winning + losing > 0
  {
    var total := (winning + losing) as real;
    (winning as real) / total * avgWin - (losing as real) / total * Abs(avgLoss)
  }

  /** The equity-curve part of _calculate_metrics: return and drawdown statistics. */
  method CurveStatistics(curve: seq<EquityPoint>, initialCapital: real)
    returns (totalReturn: real, totalReturnPct: Option<real>, maxDd: real, maxDdPct: real,
             avgDd: real, duration: nat)
    ensures IsCurveStatistics(curve, initialCapital, totalReturn, totalReturnPct, maxDd, maxDdPct, avgDd, duration)
  {
    if |curve| == 0 {
      assert AllTrue(DrawdownFlags(curve), 0, 0);
      return 0.0, Some(0.0), 0.0, 0.0, 0.0, 0;
    }
    totalReturn := curve[|curve| - 1].equity - initialCapital;
    totalReturnPct := if initialCapital == 0.0 then None else Some(totalReturn / initialCapital * 100.0);
    var percentages := DrawdownPercentages(curve);
    maxDdPct := SeqMax(percentages);
    maxDd := SeqMax(DrawdownAmounts(curve));
    avgDd := Mean(percentages);
    duration := MaxDrawdownDuration(curve);
  }

  /** The pnl figures of _calculate_metrics for a non-empty trade list: counts and win
      rate; the mean and extreme of the winning and of the other pnl (0 when there are
      none); the mean pnl; the profit factor of the two sums; the reward-to-risk ratio of
      the two means (0 when the mean loss is 0); the expectancy from the two frequencies. */
  ghost predicate IsPnlStatistics(m: Metrics, trades: seq<BacktestTrade>)
    requires |trades| > 0
  {
    var wins, losses := WinPnls(trades), LossPnls(trades);
    m.totalTrades == |trades| && m.winningTrades == |wins| && m.losingTrades == |losses|
    && m.winRate == CalculateWinRate(m.totalTrades, m.winningTrades)
    && (|wins| == 0 ==> m.avgWin == 0.0 && m.largestWin == 0.0)
    && (|wins| > 0 ==> m.avgWin == Mean(wins) && IsLargest(wins, m.largestWin))
    && (|losses| == 0 ==> m.avgLoss == 0.0 && m.largestLoss == 0.0)
    && (|losses| > 0 ==> m.avgLoss == Mean(losses) && IsSmallest(losses, m.largestLoss))
    && m.avgTrade == Mean(Pnls(trades))
    && m.profitFactor == CalculateProfitFactor(Sum(wins), Abs(Sum(losses)))
    && (m.avgLoss == 0.0 ==> m.riskRewardRatio == 0.0)
    && (m.avgLoss != 0.0 ==> m.riskRewardRatio == Abs(m.avgWin) / Abs(m.avgLoss))
    && (m.winningTrades + m.losingTrades > 0 ==>
          m.expectancy == Expectancy(m.winningTrades, m.losingTrades, m.avgWin, m.avgLoss))
  }

  /** The trade figures of _calculate_metrics: the pnl figures; the mean holding time in
      hours; the whole days of the configured window and the trades per day (0 without a
      positive day count); the longest runs of each kind. */
  ghost predicate IsTradeStatistics(m: Metrics, trades: seq<BacktestTrade>, startDate: int, endDate: int)
    requires |trades| > 0
  {
    IsPnlStatistics(m, trades)
    && m.avgHoldingTimeHours == Mean(HoldingHours(trades))
    && m.tradingDays == FloorDiv(endDate - startDate, MillisPerDay)
    && (m.tradingDays <= 0 ==> m.tradesPerDay == 0.0)
    && (m.tradingDays > 0 ==> m.tradesPerDay == (|trades| as real) / (m.tradingDays as real))
    && IsLongestRun(WinFlags(trades), m.maxConsecutiveWins)
    && IsLongestRun(LossFlags(trades), m.maxConsecutiveLosses)
  }

  /** What _calculate_metrics returns: the defaults without trades, otherwise the trade
      figures together with the curve figures. */
  ghost predicate IsMetricsOf(m: Metrics, trades: seq<BacktestTrade>, curve: seq<EquityPoint>,
                              initialCapital: real, startDate: int, endDate: int)
  {
    if |trades| == 0 then m == DefaultMetrics
    else
      IsTradeStatistics(m, trades, startDate, endDate)
      && IsCurveStatistics(curve, initialCapital, m.totalReturn, m.totalReturnPercentage, m.maxDrawdown,
                           m.maxDrawdownPercentage, m.avgDrawdown, m.maxDrawdownDuration)
  }

  /** The pnl part of _calculate_metrics, filling a default BacktestMetrics field by field. */
  method PnlStatistics(trades: seq<BacktestTrade>) returns (m: Metrics)
    requires |trades| > 0
    ensures IsPnlStatistics(m, trades)
  {
    WinLossCounts(trades);
    m := DefaultMetrics;
    var wins := WinPnls(trades);
    var losses := LossPnls(trades);
    m := m.(totalTrades := |trades|, winningTrades := |wins|);
    m := m.(losingTrades := m.totalTrades - m.winningTrades);
    m := m.(winRate := CalculateWinRate(m.totalTrades, m.winningTrades));
    if |wins| > 0 {
      m := m.(avgWin := Mean(wins), largestWin := SeqMax(wins));
    }
    if |losses| > 0 {
      m := m.(avgLoss := Mean(losses), largestLoss := SeqMin(losses));
    }
    m := m.(avgTrade := Mean(Pnls(trades)));
    var grossProfit := if |wins| > 0 then Sum(wins) else 0.0;
    var grossLoss := if |losses| > 0 then Abs(Sum(losses)) else 0.0;
    m := m.(profitFactor := CalculateProfitFactor(grossProfit, grossLoss));
    if m.avgLoss != 0.0 {
      m := m.(riskRewardRatio := Abs(m.avgWin / m.avgLoss));
      AbsQuotient(m.avgWin, m.avgLoss);
    }
    m := m.(expectancy := Expectancy(m.winningTrades, m.losingTrades, m.avgWin, m.avgLoss));
  }

  /** _calculate_metrics: the defaults without trades; otherwise the pnl figures, the
      curve figures, the holding time, the trading frequency and the runs. */
  method CalculateMetrics(trades: seq<BacktestTrade>, curve: seq<EquityPoint>, initialCapital: real,
                          startDate: int, endDate: int) returns (m: Metrics)
    ensures IsMetricsOf(m, trades, curve, initialCapital, startDate, endDate)
  {
    if |trades| == 0 {
      return DefaultMetrics;
    }
    m := PnlStatistics(trades);
    var totalReturn, totalReturnPct, maxDd, maxDdPct, avgDd, duration := CurveStatistics(curve, initialCapital);
    m := m.(totalReturn := totalReturn, totalReturnPercentage := totalReturnPct, maxDrawdown := maxDd,
            maxDrawdownPercentage := maxDdPct, avgDrawdown := avgDd, maxDrawdownDuration := duration);
    m := m.(avgHoldingTimeHours := Mean(HoldingHours(trades)));
    var tradingDays := FloorDiv(endDate - startDate, MillisPerDay);
    var tradesPerDay := 0.0;
    if tradingDays > 0 {
      tradesPerDay := (|trades| as real) / (tradingDays as real);
    }
    m := m.(tradingDays := tradingDays, tradesPerDay := tradesPerDay);
    var maxWins, maxLosses := ConsecutiveWinsLosses(trades);
    m := m.(maxConsecutiveWins := maxWins, maxConsecutiveLosses := maxLosses);
  }

  /** The expectancy _calculate_metrics reports is the mean pnl per trade: the winning and
      the other trades, weighted by their frequencies, make up the whole pnl. */
  lemma ExpectancyIsAverageTrade(m: Metrics, trades: seq<BacktestTrade>, startDate: int, endDate: int)
    requires |trades| > 0 && IsTradeStatistics(m, trades, startDate, endDate)
    ensures m.expectancy == m.avgTrade
  {
    WinLossCounts(trades);
    ExpectancyOfMeans(trades, m.avgWin, m.avgLoss, m.avgTrade);
  }

  lemma ExpectancyOfMeans(trades: seq<BacktestTrade>, avgWin: real, avgLoss: real, avgTrade: real)
    requires |trades| > 0
    requires |WinPnls(trades)| == 0 ==> avgWin == 0.0
    requires |WinPnls(trades)| > 0 ==> avgWin == Mean(WinPnls(trades))
    requires |LossPnls(trades)| == 0 ==> avgLoss == 0.0
    requires |LossPnls(trades)| > 0 ==> avgLoss == Mean(LossPnls(trades))
    requires avgTrade == Mean(Pnls(trades))
    ensures |WinPnls(trades)| + |LossPnls(trades)| > 0
    ensures Expectancy(|WinPnls(trades)|, |LossPnls(trades)|, avgWin, avgLoss) == avgTrade
  {
    var wins, losses, ps := WinPnls(trades), LossPnls(trades), Pnls(trades);
    WinLossCounts(trades);
    WinLossSums(trades);
    LossSumNonPositive(trades);
    ExpectancyOfSums(|wins|, |losses|, Sum(wins), Sum(losses), avgWin, avgLoss, avgTrade);
  }

  /** The other trades never sum to a profit. */
  lemma LossSumNonPositive(trades: seq<BacktestTrade>)
    ensures Sum(LossPnls(trades)) <= 0.0
  {
    var losses := LossPnls(trades);
    WinLossSigns(trades);
    if |losses| > 0 {
      SumBounds(losses, SeqMin(losses), 0.0);
    } else {
      assert losses == [];
    }
  }

  /** ExpectancyOfMeans over the counts and sums alone, each mean given as a quotient. */
  lemma ExpectancyOfSums(w: nat, l: nat, sw: real, sl: real, avgWin: real, avgLoss: real, avgTrade: real)
    requires w + l > 0 && sl <= 0.0
    requires w == 0 ==> avgWin == 0.0 && sw == 0.0
    requires w > 0 ==> avgWin == sw / (w as real)
    requires l == 0 ==> avgLoss == 0.0 && sl == 0.0
    requires l > 0 ==> avgLoss == sl / (l as real)
    requires avgTrade == (sw + sl) / ((w + l) as real)
    ensures Expectancy(w, l, avgWin, avgLoss) == avgTrade
  {
    QuotientTimes(sw, w, avgWin);
    QuotientTimes(sl, l, avgLoss);
    QuotientTimes(sw + sl, w + l, avgTrade);
    MeansCombine(w, l, sw, sl, avgWin, avgLoss, avgTrade);
  }

  /** A quotient by a count, or 0 for a zero count over a zero sum, times the count. */
  lemma QuotientTimes(s: real, n: nat, x: real)
    requires n == 0 ==> x == 0.0 && s == 0.0
    requires n > 0 ==> x == s / (n as real)
    ensures x * (n as real) == s
  {
  }

  /** The arithmetic behind ExpectancyOfMeans, over the counts and sums alone. */
  lemma MeansCombine(w: nat, l: nat, sw: real, sl: real, avgWin: real, avgLoss: real, avgTrade: real)
    requires w + l > 0 && sl <= 0.0
    requires avgWin * (w as real) == sw && avgLoss * (l as real) == sl
    requires l == 0 ==> avgLoss == 0.0
    requires avgTrade * ((w + l) as real) == sw + sl
    ensures Expectancy(w, l, avgWin, avgLoss) == avgTrade
  {
    if l > 0 {
      NonPositiveFactor(avgLoss, l as real, sl);
    }
    ExpectancyAlgebra(w as real, l as real, (w + l) as real, avgWin, avgLoss, avgTrade);
  }

  lemma NonPositiveFactor(a: real, k: real, s: real)
    requires k > 0.0 && a * k == s && s <= 0.0
    ensures a <= 0.0
  {
  }

  lemma ExpectancyAlgebra(w: real, l: real, n: real, avgWin: real, avgLoss: real, avgTrade: real)
    requires n > 0.0 && w + l == n && avgTrade * n == w * avgWin + l * avgLoss && avgLoss <= 0.0
    ensures w / n * avgWin - l / n * Abs(avgLoss) == avgTrade
  {
    assert Abs(avgLoss) == -avgLoss;
    assert w / n * avgWin - l / n * (-avgLoss) == (w * avgWin + l * avgLoss) / n;
  }

  lemma LargestUnique(s: seq<real>, x: real, y: real)
    requires IsLargest(s, x) && IsLargest(s, y)
    ensures x == y
  {
  }

  lemma SmallestUnique(s: seq<real>, x: real, y: real)
    requires IsSmallest(s, x) && IsSmallest(s, y)
    ensures x == y
  {
  }

  lemma LongestRunUnique(flags: seq<bool>, r: nat, q: nat)
    requires IsLongestRun(flags, r) && IsLongestRun(flags, q)
    ensures r == q
  {
  }

  lemma CurveStatisticsUnique(curve: seq<EquityPoint>, initialCapital: real, m: Metrics, n: Metrics)
    requires IsCurveStatistics(curve, initialCapital, m.totalReturn, m.totalReturnPercentage, m.maxDrawdown,
                               m.maxDrawdownPercentage, m.avgDrawdown, m.maxDrawdownDuration)
    requires IsCurveStatistics(curve, initialCapital, n.totalReturn, n.totalReturnPercentage, n.maxDrawdown,
                               n.maxDrawdownPercentage, n.avgDrawdown, n.maxDrawdownDuration)
    ensures m.totalReturn == n.totalReturn && m.totalReturnPercentage == n.totalReturnPercentage
    ensures m.maxDrawdown == n.maxDrawdown && m.maxDrawdownPercentage == n.maxDrawdownPercentage
    ensures m.avgDrawdown == n.avgDrawdown && m.maxDrawdownDuration == n.maxDrawdownDuration
  {
    LongestRunUnique(DrawdownFlags(curve), m.maxDrawdownDuration, n.maxDrawdownDuration);
    if |curve| > 0 {
      LargestUnique(DrawdownAmounts(curve), m.maxDrawdown, n.maxDrawdown);
      LargestUnique(DrawdownPercentages(curve), m.maxDrawdownPercentage, n.maxDrawdownPercentage);
    }
  }

  lemma TradeStatisticsUnique(trades: seq<BacktestTrade>, startDate: int, endDate: int, m: Metrics, n: Metrics)
    requires |trades| > 0
    requires IsTradeStatistics(m, trades, startDate, endDate) && IsTradeStatistics(n, trades, startDate, endDate)
    ensures m.avgWin == n.avgWin && m.largestWin == n.largestWin
    ensures m.avgLoss == n.avgLoss && m.largestLoss == n.largestLoss
    ensures m.avgTrade == n.avgTrade && m.riskRewardRatio == n.riskRewardRatio && m.expectancy == n.expectancy
    ensures m.avgHoldingTimeHours == n.avgHoldingTimeHours && m.tradesPerDay == n.tradesPerDay
    ensures m.maxConsecutiveWins == n.maxConsecutiveWins && m.maxConsecutiveLosses == n.maxConsecutiveLosses
  {
    var wins, losses := WinPnls(trades), LossPnls(trades);
    if |wins| > 0 {
      LargestUnique(wins, m.largestWin, n.largestWin);
    }
    if |losses| > 0 {
      SmallestUnique(losses, m.largestLoss, n.largestLoss);
    }
    LongestRunUnique(WinFlags(trades), m.maxConsecutiveWins, n.maxConsecutiveWins);
    LongestRunUnique(LossFlags(trades), m.maxConsecutiveLosses, n.maxConsecutiveLosses);
  }

  /** The metrics of a trade list and a curve are determined: whatever meets IsMetricsOf is
      the one value _calculate_metrics computes. */
  lemma MetricsDetermined(trades: seq<BacktestTrade>, curve: seq<EquityPoint>, initialCapital: real,
                          startDate: int, endDate: int, m: Metrics, n: Metrics)
    requires IsMetricsOf(m, trades, curve, initialCapital, startDate, endDate)
    requires IsMetricsOf(n, trades, curve, initialCapital, startDate, endDate)
    ensures m == n
  {
    if |trades| > 0 {
      TradeStatisticsUnique(trades, startDate, endDate, m, n);
      CurveStatisticsUnique(curve, initialCapital, m, n);
    }
  }
}
