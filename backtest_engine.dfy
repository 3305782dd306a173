// The event-driven backtest ledger (iaf-service/backtesting/engine.py).
//
// The position dict is kept as a sequence in insertion order; a position's `id` is the n
// of its "pos_<n>" key, so the ids are strictly increasing along the sequence, which is
// what makes them distinct dict keys. Candles are OHLCVData records.

module BacktestEngine {
  import opened Common
  import opened BacktestTypes
  import opened BacktestMetrics
  import opened StrategyTypes

  /** The bound the BUY guard enforces on the number of open positions. */
  function MaxOpen(c: BacktestConfig): nat
  {
    if c.maxPositions < 0 then 0 else c.maxPositions
  }

  ghost predicate IdsIncreasing(ps: seq<BacktestPosition>)
  {
    forall i, j :: 0 <= i < j < |ps| ==> ps[i].id < ps[j].id
  }

  /** Costs under which a close never takes cash away: the exit price stays non-negative
      and the commission is at most the proceeds. */
  predicate SaneCosts(c: BacktestConfig)
  {
    0.0 <= c.commission <= 1.0 && -1.0 < c.slippage <= 1.0
  }

  /** Sane costs and a trailing distance of at most 100%, so trailing levels stay non-negative. */
  predicate SaneConfig(c: BacktestConfig)
  {
    SaneCosts(c) && c.trailingStopPercent <= 100.0 && c.initialCapital >= 0.0
  }

  /** A candle with a non-negative low and a positive close. */
  predicate SaneCandle(c: OHLCVData)
  {
    0.0 <= c.low && 0.0 < c.close
  }

  /** A signal whose sizing percentage, when used, is positive and whose levels are not negative. */
  predicate SaneSignal(s: Signal)
  {
    (Truthy(s.metadata.positionSizePct) ==> s.metadata.positionSizePct.value > 0.0)
    && (s.metadata.stopLoss.Some? ==> s.metadata.stopLoss.value >= 0.0)
    && (s.metadata.takeProfit.Some? ==> s.metadata.takeProfit.value >= 0.0)
  }

  predicate NonNegativeLevel(o: Option<real>)
  {
    o.Some? ==> o.value >= 0.0
  }

  /** A position that cannot make a close take cash away: non-negative size, levels and peak. */
  predicate SanePosition(p: BacktestPosition)
  {
    p.size >= 0.0 && p.highestPrice >= 0.0
    && NonNegativeLevel(p.stopLoss) && NonNegativeLevel(p.takeProfit) && NonNegativeLevel(p.trailingStop)
  }

  function EntryPrice(close: real, c: BacktestConfig): real
  {
    close * (1.0 + c.slippage)
  }

  function ExitPrice(close: real, c: BacktestConfig): real
  {
    close * (1.0 - c.slippage)
  }

  lemma ExitPriceNonNegative(close: real, c: BacktestConfig)
    requires SaneCosts(c) && close > 0.0
    ensures ExitPrice(close, c) >= 0.0
  {
    assert 1.0 - c.slippage >= 0.0;
  }

  /** Cash credited for closing p at price: the notional less the commission on it. */
  function Proceeds(p: BacktestPosition, price: real, rate: real): real
  {
    price * p.size - price * p.size * rate
  }

  /** The trade record of closing p at price; pnl carries only the exit commission. */
  function CloseAt(p: BacktestPosition, price: real, timestamp: int, tradeType: TradeType,
                   rate: real, tradeId: nat): (t: BacktestTrade)
    requires p.entryPrice != 0.0
    ensures t.positionId == p.id && t.exitPrice == price && t.tradeType == tradeType
  {
    var fee := price * p.size * rate;
    MakeTrade(tradeId, p.id, p.symbol, p.side, p.entryPrice, price, p.size, p.entryTime, timestamp,
              CalculatePnl(p, price) - fee, CalculatePnlPercentage(p, price), tradeType, fee)
  }

  /** The cash _open_position commits: 10% of it, or position_size_pct% when that is truthy. */
  function Notional(s: Signal, cash: real): real
  {
    if Truthy(s.metadata.positionSizePct) then cash * (s.metadata.positionSizePct.value / 100.0)
    else cash * 0.1
  }

  lemma NotionalNonNegative(s: Signal, cash: real)
    requires cash >= 0.0 && SaneSignal(s)
    ensures Notional(s, cash) >= 0.0
  {
    if Truthy(s.metadata.positionSizePct) {
      var pct := s.metadata.positionSizePct.value / 100.0;
      assert pct > 0.0;
      assert cash * pct >= 0.0;
    }
  }

  /** Notional plus the commission on it: what opening takes from cash. */
  function OpenCost(s: Signal, cash: real, c: BacktestConfig): real
  {
    Notional(s, cash) + Notional(s, cash) * c.commission
  }

  /** The LONG position _open_position creates, sized as notional / entry price. */
  function OpenedPosition(s: Signal, cash: real, close: real, timestamp: int, c: BacktestConfig, id: nat): BacktestPosition
    requires EntryPrice(close, c) != 0.0
  {
    NewPosition(id, s.symbol, Long, EntryPrice(close, c), Notional(s, cash) / EntryPrice(close, c), timestamp,
                s.metadata.stopLoss, s.metadata.takeProfit, None)
  }

  lemma OpenedPositionSane(s: Signal, cash: real, close: real, timestamp: int, c: BacktestConfig, id: nat)
    requires cash >= 0.0 && SaneSignal(s) && EntryPrice(close, c) > 0.0
    ensures SanePosition(OpenedPosition(s, cash, close, timestamp, c, id))
  {
    NotionalNonNegative(s, cash);
    assert Notional(s, cash) / EntryPrice(close, c) >= 0.0;
  }

  /** The index of the first position (in insertion order) holding `symbol`. */
  function FindSymbol(ps: seq<BacktestPosition>, symbol: string): (r: Option<nat>)
    ensures r.None? ==> forall k :: 0 <= k < |ps| ==> ps[k].symbol != symbol
    ensures r.Some? ==>
      r.value < |ps| && ps[r.value].symbol == symbol
      && forall k :: 0 <= k < r.value ==> ps[k].symbol != symbol
  {
    if |ps| == 0 then None
    else if ps[0].symbol == symbol then Some(0)
    else match FindSymbol(ps[1..], symbol)
      case None => None
      case Some(i) => Some(i + 1)
  }

  datatype ExitOrder = ExitOrder(position: BacktestPosition, tradeType: TradeType, price: real)

  predicate StopHit(p: BacktestPosition, low: real)
  {
    Truthy(p.stopLoss) && low <= p.stopLoss.value
  }

  predicate TargetHit(p: BacktestPosition, high: real)
  {
    Truthy(p.takeProfit) && high >= p.takeProfit.value
  }

  predicate TrailHit(p: BacktestPosition, low: real)
  {
    Truthy(p.trailingStop) && low <= p.trailingStop.value
  }

  /** The exit a candle triggers for one position: stop-loss first, then take-profit, then
      the trailing stop, each executed at its own level; a None or zero level is skipped. */
  function ExitDecision(p: BacktestPosition, high: real, low: real): (r: Option<ExitOrder>)
    ensures r.Some? <==> StopHit(p, low) || TargetHit(p, high) || TrailHit(p, low)
    ensures StopHit(p, low) ==> r == Some(ExitOrder(p, StopLoss, p.stopLoss.value))
    ensures !StopHit(p, low) && TargetHit(p, high) ==> r == Some(ExitOrder(p, TakeProfit, p.takeProfit.value))
    ensures !StopHit(p, low) && !TargetHit(p, high) && TrailHit(p, low) ==>
      r == Some(ExitOrder(p, StopLoss, p.trailingStop.value))
  {
    if StopHit(p, low) then Some(ExitOrder(p, StopLoss, p.stopLoss.value))
    else if TargetHit(p, high) then Some(ExitOrder(p, TakeProfit, p.takeProfit.value))
    else if TrailHit(p, low) then Some(ExitOrder(p, StopLoss, p.trailingStop.value))
    else None
  }

  /** positions_to_close: the triggered exits in position order. */
  function ExitPlan(ps: seq<BacktestPosition>, high: real, low: real): (plan: seq<ExitOrder>)
    ensures forall o :: o in plan ==> o.position in ps && ExitDecision(o.position, high, low) == Some(o)
  {
    if |ps| == 0 then []
    else
      var last := ps[|ps| - 1];
      ExitPlan(ps[..|ps| - 1], high, low)
      + (match ExitDecision(last, high, low) case None => [] case Some(o) => [o])
  }

  function PlanIds(plan: seq<ExitOrder>): set<nat>
  {
    set o | o in plan :: o.position.id
  }

  /** The trades closing the plan's positions, numbered from counter + 1. */
  function PlanTrades(plan: seq<ExitOrder>, timestamp: int, rate: real, counter: nat): (r: seq<BacktestTrade>)
    requires forall o :: o in plan ==> o.position.entryPrice != 0.0
    ensures |r| == |plan|
  {
    seq(|plan|, m requires 0 <= m < |plan| =>
      CloseAt(plan[m].position, plan[m].price, timestamp, plan[m].tradeType, rate, counter + m + 1))
  }

  function PlanProceeds(plan: seq<ExitOrder>, rate: real): real
  {
    if |plan| == 0 then 0.0
    else PlanProceeds(plan[..|plan| - 1], rate) + Proceeds(plan[|plan| - 1].position, plan[|plan| - 1].price, rate)
  }

  /** The positions whose id is not in ids, in their original order. */
  function Without(ps: seq<BacktestPosition>, ids: set<nat>): seq<BacktestPosition>
  {
    if |ps| == 0 then []
    else Without(ps[..|ps| - 1], ids) + (if ps[|ps| - 1].id in ids then [] else [ps[|ps| - 1]])
  }

  lemma {:induction false} WithoutMember(ps: seq<BacktestPosition>, ids: set<nat>)
    ensures forall p :: p in Without(ps, ids) <==> p in ps && p.id !in ids
    decreases |ps|
  {
    if |ps| > 0 {
      WithoutMember(ps[..|ps| - 1], ids);
      assert ps == ps[..|ps| - 1] + [ps[|ps| - 1]];
    }
  }

  lemma {:induction false} WithoutIncreasing(ps: seq<BacktestPosition>, ids: set<nat>)
    requires IdsIncreasing(ps)
    ensures IdsIncreasing(Without(ps, ids))
    decreases |ps|
  {
    if |ps| > 0 {
      var init := ps[..|ps| - 1];
      WithoutIncreasing(init, ids);
      WithoutMember(init, ids);
      var w := Without(init, ids);
      forall k | 0 <= k < |w| ensures w[k].id < ps[|ps| - 1].id {
        assert w[k] in init;
      }
    }
  }

  /** Removing the element at i of an id-increasing sequence removes exactly its id. */
  lemma {:induction false} RemoveAtIsWithout(q: seq<BacktestPosition>, i: nat)
    requires IdsIncreasing(q) && i < |q|
    ensures q[..i] + q[i + 1..] == Without(q, {q[i].id})
    decreases |q|
  {
    var n := |q|;
    if i == n - 1 {
      WithoutNone(q[..n - 1], {q[i].id});
      assert q[i + 1..] == [];
    } else {
      var init := q[..n - 1];
      assert init[i] == q[i] && q[i].id < q[n - 1].id;
      RemoveAtIsWithout(init, i);
      assert Without(q, {q[i].id}) == Without(init, {q[i].id}) + [q[n - 1]];
      assert init[..i] == q[..i];
      assert q[..n - 1][i + 1..] + [q[n - 1]] == q[i + 1..];
    }
  }

  /** Removing one present id of an id-increasing sequence shortens it by one. */
  lemma WithoutLength(q: seq<BacktestPosition>, i: nat)
    requires IdsIncreasing(q) && i < |q|
    ensures |Without(q, {q[i].id})| == |q| - 1
  {
    RemoveAtIsWithout(q, i);
  }

  /** Ids that no element carries do not change the filter. */
  lemma {:induction false} WithoutNone(ps: seq<BacktestPosition>, ids: set<nat>)
    requires forall p :: p in ps ==> p.id !in ids
    ensures Without(ps, ids) == ps
    decreases |ps|
  {
    if |ps| > 0 {
      var init, last := ps[..|ps| - 1], ps[|ps| - 1];
      forall p | p in init
        ensures p.id !in ids
      {
        assert p in ps;
      }
      WithoutNone(init, ids);
      assert last in ps;
      assert ps == init + [last];
    }
  }

  lemma {:induction false} WithoutTwice(ps: seq<BacktestPosition>, a: set<nat>, b: set<nat>)
    ensures Without(Without(ps, a), b) == Without(ps, a + b)
    decreases |ps|
  {
    if |ps| > 0 {
      var init := ps[..|ps| - 1];
      var last := ps[|ps| - 1];
      WithoutTwice(init, a, b);
      assert ps[..|ps| - 1] == init;
      if last.id !in a {
        var w := Without(init, a) + [last];
        assert Without(ps, a) == w;
        assert w[..|w| - 1] == Without(init, a);
        assert Without(w, b) == Without(Without(init, a), b) + (if last.id in b then [] else [last]);
      } else {
        assert Without(ps, a) == Without(init, a);
      }
    }
  }

  /** The plan follows position order, so its ids are strictly increasing too. */
  lemma {:induction false} PlanIdsIncreasing(ps: seq<BacktestPosition>, high: real, low: real)
    requires IdsIncreasing(ps)
    ensures forall a, b :: 0 <= a < b < |ExitPlan(ps, high, low)| ==>
      ExitPlan(ps, high, low)[a].position.id < ExitPlan(ps, high, low)[b].position.id
    decreases |ps|
  {
    if |ps| > 0 {
      var init := ps[..|ps| - 1];
      PlanIdsIncreasing(init, high, low);
      var p0 := ExitPlan(init, high, low);
      forall k | 0 <= k < |p0| ensures p0[k].position.id < ps[|ps| - 1].id {
        assert p0[k] in p0;
      }
    }
  }

  lemma PlanIdsConcat(a: seq<ExitOrder>, b: seq<ExitOrder>)
    ensures PlanIds(a + b) == PlanIds(a) + PlanIds(b)
  {
    forall o | o in a + b
      ensures o in a || o in b
    {
    }
  }

  /** The last position's id is not among the ids planned for the positions before it. */
  lemma LastNotPlanned(ps: seq<BacktestPosition>, high: real, low: real)
    requires IdsIncreasing(ps) && |ps| > 0
    ensures ps[|ps| - 1].id !in PlanIds(ExitPlan(ps[..|ps| - 1], high, low))
  {
    var init := ps[..|ps| - 1];
    forall o | o in ExitPlan(init, high, low)
      ensures o.position.id < ps[|ps| - 1].id
    {
      var k :| 0 <= k < |init| && init[k] == o.position;
    }
  }

  /** The plan of one more position adds that position's id when its decision fires. */
  lemma PlanIdsStep(ps: seq<BacktestPosition>, high: real, low: real)
    requires |ps| > 0
    ensures PlanIds(ExitPlan(ps, high, low)) == PlanIds(ExitPlan(ps[..|ps| - 1], high, low))
      + (if ExitDecision(ps[|ps| - 1], high, low).Some? then {ps[|ps| - 1].id} else {})
  {
    var last := ps[|ps| - 1];
    var tail := match ExitDecision(last, high, low) case None => [] case Some(o) => [o];
    PlanIdsConcat(ExitPlan(ps[..|ps| - 1], high, low), tail);
    assert PlanIds(tail) == if ExitDecision(last, high, low).Some? then {last.id} else {};
  }

  /** A position is planned for exit exactly when its decision fires. */
  lemma {:induction false} PlanIdsExact(ps: seq<BacktestPosition>, high: real, low: real)
    requires IdsIncreasing(ps)
    ensures forall p :: p in ps ==> (p.id in PlanIds(ExitPlan(ps, high, low)) <==> ExitDecision(p, high, low).Some?)
    decreases |ps|
  {
    if |ps| > 0 {
      var init, last := ps[..|ps| - 1], ps[|ps| - 1];
      PlanIdsExact(init, high, low);
      LastNotPlanned(ps, high, low);
      var before := ExitPlan(init, high, low);
      PlanIdsStep(ps, high, low);
      var added: set<nat> := if ExitDecision(last, high, low).Some? then {last.id} else {};
      assert PlanIds(ExitPlan(ps, high, low)) == PlanIds(before) + added;
      forall p | p in ps
        ensures p.id in PlanIds(before) + added <==> ExitDecision(p, high, low).Some?
      {
        var k :| 0 <= k < |ps| && ps[k] == p;
        if k < |init| {
          assert init[k] == p && p in init;
          assert p.id < last.id;
        } else {
          assert p == last;
        }
      }
    }
  }

  lemma ProceedsNonNegative(p: BacktestPosition, price: real, rate: real)
    requires 0.0 <= rate <= 1.0 && price >= 0.0 && p.size >= 0.0
    ensures Proceeds(p, price, rate) >= 0.0
  {
    var v := price * p.size;
    assert v >= 0.0;
    assert Proceeds(p, price, rate) == v * (1.0 - rate);
  }

  /** One candle of price tracking followed by the trailing-stop ratchet for a LONG. */
  function TrackAndRatchet(p: BacktestPosition, high: real, low: real, c: BacktestConfig): (q: BacktestPosition)
    ensures q.highestPrice >= high && q.highestPrice >= p.highestPrice
    ensures q.lowestPrice <= low && q.lowestPrice <= p.lowestPrice
    ensures q == p.(highestPrice := q.highestPrice, lowestPrice := q.lowestPrice, trailingStop := q.trailingStop)
    ensures p.trailingStop.Some? ==> q.trailingStop.Some? && q.trailingStop.value >= p.trailingStop.value
    ensures !(c.trailingStop && p.side == Long) ==> q.trailingStop == p.trailingStop
    ensures c.trailingStop && p.side == Long ==>
      q.trailingStop.Some? && q.trailingStop.value >= q.highestPrice * (1.0 - c.trailingStopPercent / 100.0)
  {
    var tracked := UpdatePriceTracking(p, high, low);
    if c.trailingStop && tracked.side == Long then
      var newTrailing := tracked.highestPrice * (1.0 - c.trailingStopPercent / 100.0);
      if tracked.trailingStop.None? || newTrailing > tracked.trailingStop.value then
        tracked.(trailingStop := Some(newTrailing))
      else tracked
    else tracked
  }

  /** Mark-to-market value of the open positions at one close price. */
  function PositionValue(ps: seq<BacktestPosition>, close: real): real
  {
    if |ps| == 0 then 0.0 else PositionValue(ps[..|ps| - 1], close) + ps[|ps| - 1].size * close
  }

  /** The equity peak seen so far, starting from the initial capital. */
  function Peak(initial: real, curve: seq<EquityPoint>): (r: real)
    ensures r >= initial
    ensures forall k :: 0 <= k < |curve| ==> curve[k].equity <= r
  {
    if |curve| == 0 then initial
    else Max(Peak(initial, curve[..|curve| - 1]), curve[|curve| - 1].equity)
  }

  function DrawdownPct(drawdown: real, peak: real): real
  {
    if peak > 0.0 then drawdown / peak * 100.0 else 0.0
  }

  /** Point k carries equity = cash + position value and its drawdown from the peak up to
      and including that point. */
  ghost predicate PointConsistent(initial: real, curve: seq<EquityPoint>, k: nat)
    requires k < |curve|
  {
    var pk := Peak(initial, curve[..k + 1]);
    curve[k].equity == curve[k].cash + curve[k].positionValue
    && curve[k].drawdown == pk - curve[k].equity
    && curve[k].drawdownPercentage == DrawdownPct(curve[k].drawdown, pk)
  }

  ghost predicate CurveConsistent(initial: real, curve: seq<EquityPoint>)
  {
    forall k: nat :: k < |curve| ==> PointConsistent(initial, curve, k)
  }

  /** In an id-increasing sequence a position is determined by its id. */
  lemma IdsDetermine(ps: seq<BacktestPosition>, p: BacktestPosition, q: BacktestPosition)
    requires IdsIncreasing(ps) && p in ps && q in ps && p.id == q.id
    ensures p == q
  {
    var i :| 0 <= i < |ps| && ps[i] == p;
    var j :| 0 <= j < |ps| && ps[j] == q;
    assert i == j;
  }

  /** For a LONG, the trade's pnl plus the capital that opened the position is exactly the
      cash the close credits: closing books no money that the ledger does not see. */
  lemma CloseAtBalances(p: BacktestPosition, price: real, timestamp: int, tradeType: TradeType, rate: real, tradeId: nat)
    requires p.entryPrice != 0.0 && p.side == Long
    ensures CloseAt(p, price, timestamp, tradeType, rate, tradeId).pnl + p.entryPrice * p.size == Proceeds(p, price, rate)
  {
    var t := CloseAt(p, price, timestamp, tradeType, rate, tradeId);
    assert t.pnl == (price - p.entryPrice) * p.size - price * p.size * rate;
  }

  /** Appending a point that follows the running peak keeps the curve consistent. */
  lemma CurveExtend(initial: real, curve: seq<EquityPoint>, pt: EquityPoint)
    requires CurveConsistent(initial, curve)
    requires pt.equity == pt.cash + pt.positionValue
    requires pt.drawdown == Peak(initial, curve + [pt]) - pt.equity
    requires pt.drawdownPercentage == DrawdownPct(pt.drawdown, Peak(initial, curve + [pt]))
    ensures CurveConsistent(initial, curve + [pt])
  {
    var c := curve + [pt];
    forall k: nat | k < |c|
      ensures PointConsistent(initial, c, k)
    {
      if k < |curve| {
        assert c[..k + 1] == curve[..k + 1];
        assert PointConsistent(initial, curve, k);
      } else {
        assert c[..k + 1] == c;
      }
    }
  }

  /** Every recorded drawdown, in money and in percent, is non-negative, and it is zero
      exactly at a point that sets a new peak. */
  lemma {:induction false} DrawdownNonNegative(initial: real, curve: seq<EquityPoint>)
    requires CurveConsistent(initial, curve)
    ensures forall k :: 0 <= k < |curve| ==> curve[k].drawdown >= 0.0 && curve[k].drawdownPercentage >= 0.0
    ensures forall k :: 0 <= k < |curve| ==>
      (curve[k].drawdown == 0.0 <==> curve[k].equity == Peak(initial, curve[..k + 1]))
  {
    forall k | 0 <= k < |curve|
      ensures curve[k].drawdown >= 0.0 && curve[k].drawdownPercentage >= 0.0
      ensures curve[k].drawdown == 0.0 <==> curve[k].equity == Peak(initial, curve[..k + 1])
    {
      assert PointConsistent(initial, curve, k);
      var pk := Peak(initial, curve[..k + 1]);
      assert curve[..k + 1][k] == curve[k];
      assert curve[k].equity <= pk;
      if pk > 0.0 {
        assert curve[k].drawdown / pk >= 0.0;
      }
    }
  }

  /** Number of candles the event-driven loop processes after the warm-up. */
  function WarmedUpCount(n: nat, columnCount: nat): (r: nat)
    ensures r <= n
    ensures n <= 50 ==> r == 0
    ensures n > MaxInt(50, columnCount) ==> r + MaxInt(50, columnCount) == n
  {
    if n <= MaxInt(50, columnCount) then 0 else n - MaxInt(50, columnCount)
  }

  predicate SaneSignals(signals: seq<Signal>)
  {
    forall s :: s in signals ==> SaneSignal(s)
  }

  /** Prices and signals under which the ledger stays solvent throughout a run. */
  ghost predicate SaneRun(candles: seq<OHLCVData>, strategy: seq<OHLCVData> -> seq<Signal>)
  {
    forall k :: 0 <= k < |candles| ==>
      SaneCandle(candles[k]) && SaneSignals(strategy(candles[..k + 1]))
  }

  /** An exit in the plan carries an id that no earlier exit carries. */
  lemma PlanPrefixExcludes(plan: seq<ExitOrder>, j: nat)
    requires j < |plan|
    requires forall a, b :: 0 <= a < b < |plan| ==> plan[a].position.id < plan[b].position.id
    ensures plan[j].position.id !in PlanIds(plan[..j])
  {
    forall o | o in plan[..j]
      ensures o.position.id != plan[j].position.id
    {
      var a :| 0 <= a < j && plan[..j][a] == o;
      assert plan[a].position.id < plan[j].position.id;
    }
  }

  /** Tracking and the ratchet keep a sane position sane when the trailing distance is at
      most 100%. */
  lemma RatchetSane(p: BacktestPosition, high: real, low: real, c: BacktestConfig)
    requires SanePosition(p) && c.trailingStopPercent <= 100.0
    ensures SanePosition(TrackAndRatchet(p, high, low, c))
  {
    var q := TrackAndRatchet(p, high, low, c);
    if c.trailingStop && p.side == Long && q.trailingStop != p.trailingStop {
      assert q.highestPrice * (1.0 - c.trailingStopPercent / 100.0) >= 0.0;
    }
  }

  /** The exit level of a sane position is not negative. */
  lemma ExitLevelSane(p: BacktestPosition, high: real, low: real)
    requires SanePosition(p) && ExitDecision(p, high, low).Some?
    ensures ExitDecision(p, high, low).value.price >= 0.0
  {
  }

  /** Extending a plan prefix by one exit extends its ids, trades and proceeds by that exit. */
  lemma PlanPrefixStep(plan: seq<ExitOrder>, j: nat, timestamp: int, rate: real, counter: nat)
    requires j < |plan|
    requires forall o :: o in plan ==> o.position.entryPrice != 0.0
    ensures PlanIds(plan[..j + 1]) == PlanIds(plan[..j]) + {plan[j].position.id}
    ensures PlanTrades(plan[..j + 1], timestamp, rate, counter)
      == PlanTrades(plan[..j], timestamp, rate, counter)
         + [CloseAt(plan[j].position, plan[j].price, timestamp, plan[j].tradeType, rate, counter + j + 1)]
    ensures PlanProceeds(plan[..j + 1], rate) == PlanProceeds(plan[..j], rate) + Proceeds(plan[j].position, plan[j].price, rate)
  {
    assert plan[..j + 1] == plan[..j] + [plan[j]];
    assert plan[..j + 1][..j] == plan[..j];
    var a := PlanTrades(plan[..j + 1], timestamp, rate, counter);
    var b := PlanTrades(plan[..j], timestamp, rate, counter)
      + [CloseAt(plan[j].position, plan[j].price, timestamp, plan[j].tradeType, rate, counter + j + 1)];
    assert forall m :: 0 <= m < |a| ==> a[m] == b[m];
  }

  /** The next exit's position is still open after the earlier exits. */
  lemma LocateExit(P0: seq<BacktestPosition>, plan: seq<ExitOrder>, j: nat, current: seq<BacktestPosition>)
    requires IdsIncreasing(P0) && j < |plan|
    requires forall o :: o in plan ==> o.position in P0
    requires forall a, b :: 0 <= a < b < |plan| ==> plan[a].position.id < plan[b].position.id
    requires current == Without(P0, PlanIds(plan[..j]))
    ensures plan[j].position in current
  {
    assert plan[j] in plan;
    PlanPrefixExcludes(plan, j);
    WithoutMember(P0, PlanIds(plan[..j]));
  }

  /** Within the open positions, the one carrying the id of the next exit is that exit's
      position: the id lookup of _close_position_at_price finds it. */
  lemma ExitIdUnique(ps: seq<BacktestPosition>, p: BacktestPosition)
    requires IdsIncreasing(ps) && p in ps
    ensures forall k :: 0 <= k < |ps| && ps[k].id == p.id ==> ps[k] == p
  {
    forall k | 0 <= k < |ps| && ps[k].id == p.id
      ensures ps[k] == p
    {
      assert ps[k] in ps;
      IdsDetermine(ps, ps[k], p);
    }
  }

  /** The exits of a plan follow position order: their ids strictly increase. */
  ghost predicate PlanOrdered(plan: seq<ExitOrder>)
  {
    forall a, b :: 0 <= a < b < |plan| ==> plan[a].position.id < plan[b].position.id
  }

  predicate NonNegativePrices(plan: seq<ExitOrder>)
  {
    forall o :: o in plan ==> o.price >= 0.0
  }

  /** Open positions and closed trades account for every id handed out: ids increase in
      insertion order up to the position counter, every entry price is non-zero, at most
      MaxOpen positions are open, and each id handed out is open or closed by one trade. */
  ghost predicate LedgerOk(c: BacktestConfig, ps: seq<BacktestPosition>, trades: seq<BacktestTrade>,
                           tradeCounter: nat, positionCounter: nat)
  {
    IdsIncreasing(ps)
    && (forall p :: p in ps ==> 0 < p.id <= positionCounter && p.entryPrice != 0.0)
    && |ps| <= MaxOpen(c)
    && tradeCounter == |trades|
    && positionCounter == |trades| + |ps|
  }

  /** The peak and every recorded drawdown follow the running maximum of equity. */
  ghost predicate CurveOk(initial: real, curve: seq<EquityPoint>, peak: real)
  {
    peak == Peak(initial, curve) && CurveConsistent(initial, curve)
  }

  /** No negative cash, and no open position whose close could take cash away. */
  ghost predicate SolventOk(cash: real, ps: seq<BacktestPosition>)
  {
    cash >= 0.0 && forall p :: p in ps ==> SanePosition(p)
  }

  lemma LedgerOpen(c: BacktestConfig, ps: seq<BacktestPosition>, trades: seq<BacktestTrade>,
                   tradeCounter: nat, positionCounter: nat, p: BacktestPosition)
    requires LedgerOk(c, ps, trades, tradeCounter, positionCounter) && |ps| < MaxOpen(c)
    requires p.id == positionCounter + 1 && p.entryPrice != 0.0
    ensures LedgerOk(c, ps + [p], trades, tradeCounter, positionCounter + 1)
  {
    forall i | 0 <= i < |ps|
      ensures ps[i].id < p.id
    {
      assert ps[i] in ps;
    }
  }

  /** Closing an open position books one trade and keeps every id accounted for. */
  lemma LedgerClose(c: BacktestConfig, ps: seq<BacktestPosition>, trades: seq<BacktestTrade>,
                    tradeCounter: nat, positionCounter: nat, p: BacktestPosition, t: BacktestTrade)
    requires LedgerOk(c, ps, trades, tradeCounter, positionCounter) && p in ps
    ensures LedgerOk(c, Without(ps, {p.id}), trades + [t], tradeCounter + 1, positionCounter)
  {
    var index :| 0 <= index < |ps| && ps[index] == p;
    WithoutIncreasing(ps, {p.id});
    WithoutMember(ps, {p.id});
    WithoutLength(ps, index);
  }

  /** Replacing a position by one with the same id and entry price keeps the ledger. */
  lemma LedgerTrack(c: BacktestConfig, ps: seq<BacktestPosition>, trades: seq<BacktestTrade>,
                    tradeCounter: nat, positionCounter: nat, i: nat, q: BacktestPosition)
    requires LedgerOk(c, ps, trades, tradeCounter, positionCounter) && i < |ps|
    requires q.id == ps[i].id && q.entryPrice == ps[i].entryPrice
    ensures LedgerOk(c, ps[i := q], trades, tradeCounter, positionCounter)
  {
    var r := ps[i := q];
    forall p | p in r
      ensures 0 < p.id <= positionCounter && p.entryPrice != 0.0
    {
      var k :| 0 <= k < |r| && r[k] == p;
      assert ps[k] in ps;
    }
  }

  lemma SolventOpen(cash: real, cost: real, ps: seq<BacktestPosition>, p: BacktestPosition)
    requires SolventOk(cash, ps) && cost <= cash && SanePosition(p)
    ensures SolventOk(cash - cost, ps + [p])
  {
  }

  lemma SolventClose(cash: real, gain: real, ps: seq<BacktestPosition>, ids: set<nat>)
    requires SolventOk(cash, ps) && gain >= 0.0
    ensures SolventOk(cash + gain, Without(ps, ids))
  {
    WithoutMember(ps, ids);
  }

  lemma SolventTrack(cash: real, ps: seq<BacktestPosition>, i: nat, q: BacktestPosition)
    requires SolventOk(cash, ps) && i < |ps| && SanePosition(q)
    ensures SolventOk(cash, ps[i := q])
  {
    var r := ps[i := q];
    forall p | p in r
      ensures SanePosition(p)
    {
      var k :| 0 <= k < |r| && r[k] == p;
      assert ps[k] in ps;
    }
  }

  /** Appending the point _record_equity builds keeps the peak and the drawdowns right. */
  lemma CurveAppend(initial: real, curve: seq<EquityPoint>, peak: real, pt: EquityPoint)
    requires CurveOk(initial, curve, peak)
    requires pt.equity == pt.cash + pt.positionValue
    requires pt.drawdown == Max(peak, pt.equity) - pt.equity
    requires pt.drawdownPercentage == DrawdownPct(pt.drawdown, Max(peak, pt.equity))
    ensures CurveOk(initial, curve + [pt], Max(peak, pt.equity))
  {
    assert (curve + [pt])[..|curve|] == curve;
    CurveExtend(initial, curve, pt);
  }

  lemma EntryPricePositive(close: real, c: BacktestConfig)
    requires SaneCosts(c) && close > 0.0
    ensures EntryPrice(close, c) > 0.0
  {
    assert 1.0 + c.slippage > 0.0;
  }

  predicate EntriesNonZero(plan: seq<ExitOrder>)
  {
    forall o :: o in plan ==> o.position.entryPrice != 0.0
  }

  /** The proceeds of a plan never take cash away when prices and sizes are non-negative. */
  lemma {:induction false} PlanProceedsNonNegative(plan: seq<ExitOrder>, rate: real)
    requires 0.0 <= rate <= 1.0
    requires forall o :: o in plan ==> o.price >= 0.0 && o.position.size >= 0.0
    ensures PlanProceeds(plan, rate) >= 0.0
    decreases |plan|
  {
    if |plan| > 0 {
      var last := plan[|plan| - 1];
      assert last in plan;
      PlanProceedsNonNegative(plan[..|plan| - 1], rate);
      ProceedsNonNegative(last.position, last.price, rate);
    }
  }

  /** Carrying out a plan of exits at non-negative prices keeps the ledger solvent. */
  lemma SolventAfterExits(cash: real, ps: seq<BacktestPosition>, plan: seq<ExitOrder>, rate: real)
    requires SolventOk(cash, ps) && 0.0 <= rate <= 1.0 && NonNegativePrices(plan)
    requires forall o :: o in plan ==> o.position in ps
    ensures SolventOk(cash + PlanProceeds(plan, rate), Without(ps, PlanIds(plan)))
  {
    PlanProceedsNonNegative(plan, rate);
    SolventClose(cash, PlanProceeds(plan, rate), ps, PlanIds(plan));
  }

  /** After the first j exits of a plan: their ids are gone from the positions P0, their
      trades follow the trades T0 and their proceeds were added to the cash C0. */
  ghost predicate ExitsDone(P0: seq<BacktestPosition>, T0: seq<BacktestTrade>, C0: real, plan: seq<ExitOrder>,
                            j: nat, timestamp: int, rate: real,
                            ps: seq<BacktestPosition>, ts: seq<BacktestTrade>, cash: real)
    requires j <= |plan| && EntriesNonZero(plan)
  {
    ps == Without(P0, PlanIds(plan[..j]))
    && ts == T0 + PlanTrades(plan[..j], timestamp, rate, |T0|)
    && cash == C0 + PlanProceeds(plan[..j], rate)
  }

  /** One exit of the second loop of _check_exit_orders extends the removed ids, the booked
      trades and the credited proceeds by that exit. */
  lemma ExitStep(P0: seq<BacktestPosition>, T0: seq<BacktestTrade>, C0: real, plan: seq<ExitOrder>, j: nat, next: nat,
                 timestamp: int, rate: real, ps: seq<BacktestPosition>, ts: seq<BacktestTrade>, cash: real,
                 ps': seq<BacktestPosition>, ts': seq<BacktestTrade>, cash': real, t: BacktestTrade, tradeId: nat)
    requires j < |plan| && next == j + 1 && EntriesNonZero(plan)
    requires ExitsDone(P0, T0, C0, plan, j, timestamp, rate, ps, ts, cash)
    requires ps' == Without(ps, {plan[j].position.id})
    requires tradeId == |ts| + 1
    requires t == CloseAt(plan[j].position, plan[j].price, timestamp, plan[j].tradeType, rate, tradeId)
    requires ts' == ts + [t]
    requires cash' == cash + Proceeds(plan[j].position, plan[j].price, rate)
    ensures ExitsDone(P0, T0, C0, plan, next, timestamp, rate, ps', ts', cash')
  {
    PlanPrefixStep(plan, j, timestamp, rate, |T0|);
    WithoutTwice(P0, PlanIds(plan[..j]), {plan[j].position.id});
  }

  lemma ExitsStart(P0: seq<BacktestPosition>, T0: seq<BacktestTrade>, C0: real, plan: seq<ExitOrder>,
                   timestamp: int, rate: real)
    requires EntriesNonZero(plan)
    ensures ExitsDone(P0, T0, C0, plan, 0, timestamp, rate, P0, T0, C0)
  {
    WithoutNone(P0, {});
    assert PlanIds(plan[..0]) == {};
    assert T0 + PlanTrades(plan[..0], timestamp, rate, |T0|) == T0;
  }

  lemma ExitsFinish(P0: seq<BacktestPosition>, T0: seq<BacktestTrade>, C0: real, plan: seq<ExitOrder>,
                    timestamp: int, rate: real, ps: seq<BacktestPosition>, ts: seq<BacktestTrade>, cash: real)
    requires EntriesNonZero(plan)
    requires ExitsDone(P0, T0, C0, plan, |plan|, timestamp, rate, ps, ts, cash)
    ensures ps == Without(P0, PlanIds(plan))
    ensures ts == T0 + PlanTrades(plan, timestamp, rate, |T0|)
    ensures cash == C0 + PlanProceeds(plan, rate)
  {
    assert plan[..|plan|] == plan;
  }

  /** The first loop of _check_exit_orders: the triggered exits, in position order. */
  method CollectExits(ps: seq<BacktestPosition>, high: real, low: real) returns (plan: seq<ExitOrder>)
    ensures plan == ExitPlan(ps, high, low)
  {
    plan := [];
    var i := 0;
    while i < |ps|
      invariant 0 <= i <= |ps|
      invariant plan == ExitPlan(ps[..i], high, low)
    {
      assert ps[..i + 1][..i] == ps[..i];
      var decision := ExitDecision(ps[i], high, low);
      if decision.Some? {
        plan := plan + [decision.value];
      }
      i := i + 1;
    }
    assert ps[..i] == ps;
  }

  /** The sum in _record_equity: every open position marked to the close. */
  method MarkToMarket(ps: seq<BacktestPosition>, close: real) returns (value: real)
    ensures value == PositionValue(ps, close)
  {
    value := 0.0;
    var i := 0;
    while i < |ps|
      invariant 0 <= i <= |ps|
      invariant value == PositionValue(ps[..i], close)
    {
      assert ps[..i + 1][..i] == ps[..i];
      value := value + ps[i].size * close;
      i := i + 1;
    }
    assert ps[..i] == ps;
  }

  lemma {:induction false} PositionValueNonNegative(ps: seq<BacktestPosition>, close: real)
    requires close >= 0.0 && forall p :: p in ps ==> p.size >= 0.0
    ensures PositionValue(ps, close) >= 0.0
    decreases |ps|
  {
    if |ps| > 0 {
      assert ps[|ps| - 1] in ps;
      assert forall p :: p in ps[..|ps| - 1] ==> p in ps;
      PositionValueNonNegative(ps[..|ps| - 1], close);
    }
  }

  /** The candles inside [start_date, end_date], both ends included, in their order. */
  function InWindow(candles: seq<OHLCVData>, c: BacktestConfig): (r: seq<OHLCVData>)
    ensures |r| <= |candles|
    ensures forall x :: x in r <==> x in candles && c.startDate <= x.timestamp <= c.endDate
  {
    if |candles| == 0 then []
    else
      var last := candles[|candles| - 1];
      assert candles == candles[..|candles| - 1] + [last];
      InWindow(candles[..|candles| - 1], c) + (if c.startDate <= last.timestamp <= c.endDate then [last] else [])
  }

  /** _filter_data_by_date: data with a timestamp column or a date index is cut to the
      window; data with neither passes through. */
  function FilterByDate(candles: seq<OHLCVData>, c: BacktestConfig, dated: bool): (r: seq<OHLCVData>)
    ensures !dated ==> r == candles
    ensures dated ==> r == InWindow(candles, c)
  {
    if dated then InWindow(candles, c) else candles
  }

  lemma {:induction false} InWindowWhole(candles: seq<OHLCVData>, c: BacktestConfig)
    requires forall x :: x in candles ==> c.startDate <= x.timestamp <= c.endDate
    ensures InWindow(candles, c) == candles
    decreases |candles|
  {
    if |candles| > 0 {
      var init, last := candles[..|candles| - 1], candles[|candles| - 1];
      forall x | x in init
        ensures c.startDate <= x.timestamp <= c.endDate
      {
        assert x in candles;
      }
      InWindowWhole(init, c);
      assert last in candles;
      assert candles == init + [last];
    }
  }

  datatype RunError = NoDataSources | NoDataLoaded

  datatype BacktestResult = BacktestResult(
    config: BacktestConfig,
    trades: seq<BacktestTrade>,
    equityCurve: seq<EquityPoint>,
    metrics: Metrics)

  /** The two figures run_vectorized reports. */
  datatype VectorResult = VectorResult(totalReturn: real, totalReturnPercentage: real)

  /** The equity list and held quantity of run_vectorized. */
  datatype VectorState = VectorState(equity: seq<real>, position: real)

  /** The value of a quantity at a price. */
  function Holding(quantity: real, price: real): real
  {
    quantity * price
  }

  /** The signal half of one bar of run_vectorized: a buy when flat puts all of the last
      equity into the asset; a sell when long books position * close and goes flat. */
  function VectorSignal(st: VectorState, buy: bool, sell: bool, close: real): (r: VectorState)
    requires |st.equity| > 0 && close != 0.0
  {
    if buy && st.position == 0.0 then VectorState(st.equity, st.equity[|st.equity| - 1] / close)
    else if sell && st.position > 0.0 then VectorState(st.equity + [Holding(st.position, close)], 0.0)
    else st
  }

  /** The closing half of a bar: the held quantity at the close, or the last equity again. */
  function VectorMark(st: VectorState, close: real): (r: VectorState)
    requires |st.equity| > 0
  {
    if st.position > 0.0 then st.(equity := st.equity + [Holding(st.position, close)])
    else st.(equity := st.equity + [st.equity[|st.equity| - 1]])
  }

  /** One bar of run_vectorized; a sell therefore appends two equal points. */
  function VectorStep(st: VectorState, buy: bool, sell: bool, close: real): (r: VectorState)
    requires |st.equity| > 0 && close != 0.0
    ensures |st.equity| + 1 <= |r.equity| <= |st.equity| + 2
    ensures r.equity[..|st.equity|] == st.equity
    ensures r.position > 0.0 ==> r.equity[|r.equity| - 1] == Holding(r.position, close)
    ensures buy && st.position == 0.0 ==> r.position == st.equity[|st.equity| - 1] / close
    ensures !(buy && st.position == 0.0) && sell && st.position > 0.0 ==>
      r.position == 0.0 && r.equity == st.equity + [Holding(st.position, close), Holding(st.position, close)]
    ensures !(buy && st.position == 0.0) && !(sell && st.position > 0.0) ==> r.position == st.position
  {
    VectorMark(VectorSignal(st, buy, sell, close), close)
  }

  predicate NonZeroCloses(closes: seq<real>)
  {
    forall k :: 0 <= k < |closes| ==> closes[k] != 0.0
  }

  /** run_vectorized's loop over the first n bars, from [initial capital] and no position. */
  function VectorFold(initial: real, buys: seq<bool>, sells: seq<bool>, closes: seq<real>, n: nat): (st: VectorState)
    requires n <= |buys| && n <= |sells| && n <= |closes| && NonZeroCloses(closes)
    ensures n + 1 <= |st.equity| <= 2 * n + 1
    ensures st.equity[0] == initial
  {
    if n == 0 then VectorState([initial], 0.0)
    else
      var before := VectorFold(initial, buys, sells, closes, n - 1);
      var r := VectorStep(before, buys[n - 1], sells[n - 1], closes[n - 1]);
      assert r.equity[..|before.equity|][0] == r.equity[0];
      r
  }

  /** Without a single buy signal the equity never moves from the initial capital. */
  lemma {:induction false} VectorNoBuyFlat(initial: real, buys: seq<bool>, sells: seq<bool>, closes: seq<real>, n: nat)
    requires n <= |buys| && n <= |sells| && n <= |closes| && NonZeroCloses(closes)
    requires forall k :: 0 <= k < n ==> !buys[k]
    ensures VectorFold(initial, buys, sells, closes, n).position == 0.0
    ensures forall e :: e in VectorFold(initial, buys, sells, closes, n).equity ==> e == initial
  {
    if n > 0 {
      VectorNoBuyFlat(initial, buys, sells, closes, n - 1);
      var before := VectorFold(initial, buys, sells, closes, n - 1);
      assert before.equity[|before.equity| - 1] in before.equity;
    }
  }

  /** A bar keeps the position non-negative and every equity point positive. */
  lemma VectorStepPositive(st: VectorState, buy: bool, sell: bool, close: real)
    requires |st.equity| > 0 && close > 0.0 && st.position >= 0.0
    requires forall e :: e in st.equity ==> e > 0.0
    ensures VectorStep(st, buy, sell, close).position >= 0.0
    ensures forall e :: e in VectorStep(st, buy, sell, close).equity ==> e > 0.0
  {
    var last := st.equity[|st.equity| - 1];
    assert last in st.equity;
    assert last / close > 0.0;
    var r := VectorStep(st, buy, sell, close);
    if st.position > 0.0 {
      assert Holding(st.position, close) > 0.0;
    }
    if r.position > 0.0 {
      assert Holding(r.position, close) > 0.0;
    }
    forall e | e in r.equity
      ensures e > 0.0
    {
      var k :| 0 <= k < |r.equity| && r.equity[k] == e;
      if k < |st.equity| {
        assert r.equity[..|st.equity|][k] == e;
      }
    }
  }

  /** With positive capital and positive closes the strategy is never short and its equity
      stays positive. */
  lemma {:induction false} VectorPositive(initial: real, buys: seq<bool>, sells: seq<bool>, closes: seq<real>, n: nat)
    requires n <= |buys| && n <= |sells| && n <= |closes| && NonZeroCloses(closes)
    requires initial > 0.0 && forall k :: 0 <= k < |closes| ==> closes[k] > 0.0
    ensures VectorFold(initial, buys, sells, closes, n).position >= 0.0
    ensures forall e :: e in VectorFold(initial, buys, sells, closes, n).equity ==> e > 0.0
  {
    if n > 0 {
      VectorPositive(initial, buys, sells, closes, n - 1);
      VectorStepPositive(VectorFold(initial, buys, sells, closes, n - 1), buys[n - 1], sells[n - 1], closes[n - 1]);
    }
  }

  /** The fold over n + 1 bars is one more step after the fold over n. */
  lemma VectorFoldNext(initial: real, buys: seq<bool>, sells: seq<bool>, closes: seq<real>, n: nat)
    requires n < |buys| && n < |sells| && n < |closes| && NonZeroCloses(closes)
    ensures VectorFold(initial, buys, sells, closes, n + 1)
      == VectorStep(VectorFold(initial, buys, sells, closes, n), buys[n], sells[n], closes[n])
  {
  }

  /** One pass of the loop of run_vectorized. */
  method VectorBar(equity: seq<real>, position: real, buy: bool, sell: bool, close: real)
    returns (equity': seq<real>, position': real)
    requires |equity| > 0 && close != 0.0
    ensures VectorState(equity', position') == VectorStep(VectorState(equity, position), buy, sell, close)
  {
    equity', position' := equity, position;
    if buy && position' == 0.0 {
      position' := equity'[|equity'| - 1] / close;
    } else if sell && position' > 0.0 {
      equity' := equity' + [Holding(position', close)];
      position' := 0.0;
    }
    ghost var signalled := VectorSignal(VectorState(equity, position), buy, sell, close);
    assert equity' == signalled.equity && position' == signalled.position;
    if position' > 0.0 {
      equity' := equity' + [Holding(position', close)];
    } else {
      equity' := equity' + [equity'[|equity'| - 1]];
    }
  }

  /** The loop of run_vectorized. */
  method VectorEquity(initial: real, buys: seq<bool>, sells: seq<bool>, closes: seq<real>)
    returns (equity: seq<real>, position: real)
    requires |buys| >= |closes| && |sells| >= |closes| && NonZeroCloses(closes)
    ensures VectorState(equity, position) == VectorFold(initial, buys, sells, closes, |closes|)
  {
    equity := [initial];
    position := 0.0;
    assert VectorState(equity, position) == VectorFold(initial, buys, sells, closes, 0);
    var i := 0;
    while i < |closes|
      invariant 0 <= i <= |closes|
      invariant VectorState(equity, position) == VectorFold(initial, buys, sells, closes, i)
    {
      equity, position := VectorAdvance(initial, buys, sells, closes, i, equity, position);
      i := i + 1;
    }
  }

  /** One pass of the loop, from the state after `i` bars to the state after `i + 1`. */
  method VectorAdvance(initial: real, buys: seq<bool>, sells: seq<bool>, closes: seq<real>, i: nat,
                       equity: seq<real>, position: real) returns (equity': seq<real>, position': real)
    requires i < |closes| && |buys| >= |closes| && |sells| >= |closes| && NonZeroCloses(closes)
    requires VectorState(equity, position) == VectorFold(initial, buys, sells, closes, i)
    ensures VectorState(equity', position') == VectorFold(initial, buys, sells, closes, i + 1)
  {
    VectorFoldNext(initial, buys, sells, closes, i);
    equity', position' := VectorBar(equity, position, buys[i], sells[i], closes[i]);
  }

  /** A return as a percentage of the capital it was made on. */
  function ReturnPercentage(totalReturn: real, initial: real): (r: real)
    requires initial != 0.0
    ensures r * initial == totalReturn * 100.0
  {
    totalReturn / initial * 100.0
  }

  /** The series stored under `symbol`, if any (the first entry, as dict keys are distinct). */
  function SeriesFor(series: seq<(string, seq<bool>)>, symbol: string): (r: Option<seq<bool>>)
    ensures r.None? <==> forall k :: 0 <= k < |series| ==> series[k].0 != symbol
    ensures r.Some? ==> exists k :: 0 <= k < |series| && series[k] == (symbol, r.value)
  {
    if |series| == 0 then None
    else if series[0].0 == symbol then Some(series[0].1)
    else
      var rest := SeriesFor(series[1..], symbol);
      if rest.Some? then
        var k :| 0 <= k < |series| - 1 && series[1..][k] == (symbol, rest.value);
        assert series[k + 1] == (symbol, rest.value);
        rest
      else rest
  }

  /** Every series covers every bar. */
  predicate SeriesCover(series: seq<(string, seq<bool>)>, n: nat)
  {
    forall k :: 0 <= k < |series| ==> |series[k].1| >= n
  }

  /** The sell series of `symbol`, or all False when there is none. */
  function SellSeries(sells: seq<(string, seq<bool>)>, symbol: string, n: nat): (r: seq<bool>)
    requires SeriesCover(sells, n)
    ensures |r| >= n
    ensures SeriesFor(sells, symbol).None? ==> forall k :: 0 <= k < |r| ==> !r[k]
  {
    match SeriesFor(sells, symbol)
    case None => seq(n, _ => false)
    case Some(s) => s
  }

  /** The engine's ledger and equity curve as one value, so that a run can be stated as a
      fold of pure steps. The trade counter is left out: it always equals |trades|. */
  datatype EngineState = EngineState(
    cash: real,
    positions: seq<BacktestPosition>,
    trades: seq<BacktestTrade>,
    positionCounter: nat,
    equityCurve: seq<EquityPoint>,
    peakEquity: real)

  /** The state reset() leaves: the initial capital in cash, nothing open, nothing recorded. */
  function InitialState(c: BacktestConfig): EngineState
  {
    EngineState(c.initialCapital, [], [], 0, [], c.initialCapital)
  }

  /** Every open position has a non-zero entry price, so it can be closed into a trade. */
  predicate EntriesOk(ps: seq<BacktestPosition>)
  {
    forall p :: p in ps ==> p.entryPrice != 0.0
  }

  /** _open_position on a state: the position is taken only when its cost is covered. */
  function OpenStep(s: EngineState, signal: Signal, close: real, timestamp: int, c: BacktestConfig): (r: EngineState)
    requires EntriesOk(s.positions) && EntryPrice(close, c) != 0.0
    ensures EntriesOk(r.positions)
    ensures r.trades == s.trades && r.equityCurve == s.equityCurve && r.peakEquity == s.peakEquity
    ensures OpenCost(signal, s.cash, c) > s.cash <==> r == s
  {
    var cost := OpenCost(signal, s.cash, c);
    if cost > s.cash then s
    else
      s.(cash := s.cash - cost, positionCounter := s.positionCounter + 1,
         positions := s.positions + [OpenedPosition(signal, s.cash, close, timestamp, c, s.positionCounter + 1)])
  }

  /** _close_position on a state: the first position holding `symbol` is closed at price as
      the next trade; without one the state is unchanged. */
  function CloseStep(s: EngineState, symbol: string, price: real, timestamp: int, tradeType: TradeType,
                     c: BacktestConfig): (r: EngineState)
    requires EntriesOk(s.positions)
    ensures EntriesOk(r.positions)
    ensures r.positionCounter == s.positionCounter && r.equityCurve == s.equityCurve && r.peakEquity == s.peakEquity
    ensures FindSymbol(s.positions, symbol).None? <==> r == s
    ensures s.trades <= r.trades && |r.trades| <= |s.trades| + 1
  {
    match FindSymbol(s.positions, symbol)
    case None => s
    case Some(i) =>
      var p := s.positions[i];
      WithoutMember(s.positions, {p.id});
      var t := CloseAt(p, price, timestamp, tradeType, c.commission, |s.trades| + 1);
      assert (s.trades + [t])[..|s.trades|] == s.trades;
      s.(cash := s.cash + Proceeds(p, price, c.commission), positions := Without(s.positions, {p.id}),
         trades := s.trades + [t])
  }

  /** A state that differs from s by exactly the close of s's first position in symbol is
      the close step on s. */
  lemma CloseStepOf(s: EngineState, r: EngineState, symbol: string, price: real, timestamp: int,
                    tradeType: TradeType, c: BacktestConfig, i: nat)
    requires EntriesOk(s.positions) && FindSymbol(s.positions, symbol) == Some(i)
    requires r.cash == s.cash + Proceeds(s.positions[i], price, c.commission)
    requires r.positions == Without(s.positions, {s.positions[i].id})
    requires r.trades == s.trades + [CloseAt(s.positions[i], price, timestamp, tradeType, c.commission, |s.trades| + 1)]
    requires r.positionCounter == s.positionCounter && r.equityCurve == s.equityCurve && r.peakEquity == s.peakEquity
    ensures r == CloseStep(s, symbol, price, timestamp, tradeType, c)
  {
  }

  /** _process_signal on a state. */
  function SignalStep(s: EngineState, signal: Signal, candle: OHLCVData, timestamp: int, c: BacktestConfig): (r: EngineState)
    requires EntriesOk(s.positions)
    requires signal.signalType == Buy ==> EntryPrice(candle.close, c) != 0.0
    ensures EntriesOk(r.positions)
    ensures r.equityCurve == s.equityCurve && r.peakEquity == s.peakEquity
    ensures s.trades <= r.trades
  {
    if !IsActionable(signal) then s
    else if signal.signalType == Buy && |s.positions| >= c.maxPositions then s
    else if signal.signalType == Buy then OpenStep(s, signal, candle.close, timestamp, c)
    else CloseStep(s, signal.symbol, ExitPrice(candle.close, c), timestamp, Exit, c)
  }

  /** The signals of one candle processed in order. */
  function SignalsFold(s: EngineState, signals: seq<Signal>, candle: OHLCVData, c: BacktestConfig): (r: EngineState)
    requires EntriesOk(s.positions) && EntryPrice(candle.close, c) != 0.0
    ensures EntriesOk(r.positions)
    ensures r.equityCurve == s.equityCurve && r.peakEquity == s.peakEquity
    ensures s.trades <= r.trades
    decreases |signals|
  {
    if |signals| == 0 then s
    else
      SignalStep(SignalsFold(s, signals[..|signals| - 1], candle, c), signals[|signals| - 1], candle, candle.timestamp, c)
  }

  /** _check_exit_orders on a state: the planned exits leave, their trades follow the old
      ones and their proceeds are credited. */
  function ExitsStep(s: EngineState, high: real, low: real, timestamp: int, c: BacktestConfig): (r: EngineState)
    requires EntriesOk(s.positions)
    ensures EntriesOk(r.positions)
    ensures r.positionCounter == s.positionCounter && r.equityCurve == s.equityCurve && r.peakEquity == s.peakEquity
    ensures s.trades <= r.trades
  {
    var plan := ExitPlan(s.positions, high, low);
    WithoutMember(s.positions, PlanIds(plan));
    var ts := s.trades + PlanTrades(plan, timestamp, c.commission, |s.trades|);
    assert ts[..|s.trades|] == s.trades;
    s.(cash := s.cash + PlanProceeds(plan, c.commission), positions := Without(s.positions, PlanIds(plan)),
       trades := ts)
  }

  /** _update_position_prices on the open positions. */
  function TrackAll(ps: seq<BacktestPosition>, high: real, low: real, c: BacktestConfig): (r: seq<BacktestPosition>)
    ensures |r| == |ps|
    ensures EntriesOk(ps) ==> EntriesOk(r)
  {
    var r := seq(|ps|, k requires 0 <= k < |ps| => TrackAndRatchet(ps[k], high, low, c));
    assert forall q :: q in r ==> exists k :: 0 <= k < |ps| && q.entryPrice == ps[k].entryPrice;
    r
  }

  /** The point _record_equity appends for a state at a close. */
  function EquityPointAt(s: EngineState, timestamp: int, close: real): (pt: EquityPoint)
  {
    var value := PositionValue(s.positions, close);
    var equity := s.cash + value;
    var peak := Max(s.peakEquity, equity);
    EquityPoint(timestamp, equity, s.cash, value, peak - equity, DrawdownPct(peak - equity, peak))
  }

  /** _record_equity on a state. */
  function RecordStep(s: EngineState, timestamp: int, close: real): (r: EngineState)
  {
    var pt := EquityPointAt(s, timestamp, close);
    s.(equityCurve := s.equityCurve + [pt], peakEquity := Max(s.peakEquity, pt.equity))
  }

  /** One candle of _run_event_driven on a state: exits, price tracking, the signals in
      order, then the equity point. */
  function CandleStep(s: EngineState, candle: OHLCVData, signals: seq<Signal>, c: BacktestConfig): (r: EngineState)
    requires EntriesOk(s.positions) && EntryPrice(candle.close, c) != 0.0
    ensures EntriesOk(r.positions)
    ensures |r.equityCurve| == |s.equityCurve| + 1 && s.equityCurve <= r.equityCurve
    ensures r.equityCurve[|s.equityCurve|].timestamp == candle.timestamp
    ensures s.trades <= r.trades
  {
    var exited := ExitsStep(s, candle.high, candle.low, candle.timestamp, c);
    var tracked := exited.(positions := TrackAll(exited.positions, candle.high, candle.low, c));
    var signalled := SignalsFold(tracked, signals, candle, c);
    RecordStep(signalled, candle.timestamp, candle.close)
  }

  /** Every candle of a run has a close the configured slippage keeps non-zero, so every
      position the run opens has a non-zero entry price. */
  predicate ClosesOk(candles: seq<OHLCVData>, c: BacktestConfig)
  {
    forall j :: 0 <= j < |candles| ==> EntryPrice(candles[j].close, c) != 0.0
  }

  /** The state after the event-driven loop has stepped through the candles start .. k - 1,
      each with the signals the strategy gives for the candles up to it. RunFrom, RunTail and
      RunStep are one recursion split in three, so that a proof about the loop sees one
      candle's CandleStep only where it unfolds RunTail and RunStep on purpose. */
  function RunFrom(s: EngineState, candles: seq<OHLCVData>, start: nat, k: nat,
                   strategy: seq<OHLCVData> -> seq<Signal>, c: BacktestConfig): (r: EngineState)
    requires k <= |candles| && EntriesOk(s.positions)
    requires ClosesOk(candles, c)
    ensures EntriesOk(r.positions)
    decreases k, 2
  {
    if k <= start then s else RunTail(s, candles, start, k, strategy, c)
  }

  /** RunFrom once at least one candle has been stepped through. */
  function RunTail(s: EngineState, candles: seq<OHLCVData>, start: nat, k: nat,
                   strategy: seq<OHLCVData> -> seq<Signal>, c: BacktestConfig): (r: EngineState)
    requires start < k <= |candles| && EntriesOk(s.positions)
    requires ClosesOk(candles, c)
    ensures EntriesOk(r.positions)
    decreases k, 1
  {
    RunStep(s, candles, start, k, strategy, c)
  }

  /** The k-th step of RunFrom: the candle k - 1 on the state the earlier candles left. */
  function RunStep(s: EngineState, candles: seq<OHLCVData>, start: nat, k: nat,
                   strategy: seq<OHLCVData> -> seq<Signal>, c: BacktestConfig): (r: EngineState)
    requires start < k <= |candles| && EntriesOk(s.positions)
    requires ClosesOk(candles, c)
    ensures EntriesOk(r.positions)
    decreases k, 0
  {
    CandleStep(RunFrom(s, candles, start, k - 1, strategy, c), candles[k - 1], strategy(candles[..k]), c)
  }

  /** One more candle of the loop is one more CandleStep. */
  lemma RunFromNext(s: EngineState, candles: seq<OHLCVData>, start: nat, k: nat,
                    strategy: seq<OHLCVData> -> seq<Signal>, c: BacktestConfig)
    requires start <= k < |candles| && EntriesOk(s.positions)
    requires ClosesOk(candles, c)
    ensures RunFrom(s, candles, start, k + 1, strategy, c)
      == CandleStep(RunFrom(s, candles, start, k, strategy, c), candles[k], strategy(candles[..k + 1]), c)
  {
    assert RunFrom(s, candles, start, k + 1, strategy, c) == RunTail(s, candles, start, k + 1, strategy, c);
    assert RunTail(s, candles, start, k + 1, strategy, c) == RunStep(s, candles, start, k + 1, strategy, c);
  }

  /** One more candle appends one equity point, stamped with that candle, and keeps the trades. */
  lemma RunFromAppends(s: EngineState, candles: seq<OHLCVData>, start: nat, k: nat,
                       strategy: seq<OHLCVData> -> seq<Signal>, c: BacktestConfig)
    requires start <= k < |candles| && EntriesOk(s.positions)
    requires ClosesOk(candles, c)
    ensures var m, r := RunFrom(s, candles, start, k, strategy, c), RunFrom(s, candles, start, k + 1, strategy, c);
      |r.equityCurve| == |m.equityCurve| + 1 && m.equityCurve <= r.equityCurve
      && r.equityCurve[|m.equityCurve|].timestamp == candles[k].timestamp
      && m.trades <= r.trades
  {
    RunFromNext(s, candles, start, k, strategy, c);
  }

  /** A run records one equity point per candle after the warm-up, stamped in candle order,
      after the points it started with, and only ever appends trades. */
  lemma {:induction false} RunFromRecords(s: EngineState, candles: seq<OHLCVData>, start: nat, k: nat,
                                          strategy: seq<OHLCVData> -> seq<Signal>, c: BacktestConfig)
    requires k <= |candles| && EntriesOk(s.positions)
    requires ClosesOk(candles, c)
    ensures var r := RunFrom(s, candles, start, k, strategy, c);
      |r.equityCurve| == |s.equityCurve| + (if k <= start then 0 else k - start)
      && s.equityCurve <= r.equityCurve
      && (forall j :: start <= j < k ==> r.equityCurve[|s.equityCurve| + j - start].timestamp == candles[j].timestamp)
      && s.trades <= r.trades
    decreases k
  {
    if k > start {
      RunFromRecords(s, candles, start, k - 1, strategy, c);
      RunFromAppends(s, candles, start, k - 1, strategy, c);
      var mid := RunFrom(s, candles, start, k - 1, strategy, c);
      var r := RunFrom(s, candles, start, k, strategy, c);
      assert forall j :: 0 <= j < |mid.equityCurve| ==> r.equityCurve[j] == mid.equityCurve[j];
    }
  }

  /** _run_event_driven on a state: the candles after the warm-up of max(50, columns). */
  function EventRun(s: EngineState, candles: seq<OHLCVData>, columnCount: nat,
                    strategy: seq<OHLCVData> -> seq<Signal>, c: BacktestConfig): (r: EngineState)
    requires EntriesOk(s.positions)
    requires ClosesOk(candles, c)
  {
    RunFrom(s, candles, MaxInt(50, columnCount), |candles|, strategy, c)
  }

  /** The event-driven run adds one equity point per candle after the warm-up. */
  lemma EventRunLength(s: EngineState, candles: seq<OHLCVData>, columnCount: nat,
                       strategy: seq<OHLCVData> -> seq<Signal>, c: BacktestConfig)
    requires EntriesOk(s.positions)
    requires ClosesOk(candles, c)
    ensures |EventRun(s, candles, columnCount, strategy, c).equityCurve| == |s.equityCurve| + WarmedUpCount(|candles|, columnCount)
  {
    RunFromRecords(s, candles, MaxInt(50, columnCount), |candles|, strategy, c);
  }

  class Engine {
    const config: BacktestConfig
    var cash: real
    var positions: seq<BacktestPosition>
    var trades: seq<BacktestTrade>
    var equityCurve: seq<EquityPoint>
    var peakEquity: real
    var tradeCounter: nat
    var positionCounter: nat

    /** The ledger and equity-curve invariants over the current fields. */
    ghost predicate Valid()
      reads this
    {
      LedgerOk(config, positions, trades, tradeCounter, positionCounter)
      && CurveOk(config.initialCapital, equityCurve, peakEquity)
    }

    ghost predicate Solvent()
      reads this
    {
      SolventOk(cash, positions)
    }

    /** The fields as an EngineState. */
    function State(): EngineState
      reads this
    {
      EngineState(cash, positions, trades, positionCounter, equityCurve, peakEquity)
    }

    constructor (c: BacktestConfig)
      ensures config == c && Valid()
      ensures cash == c.initialCapital && peakEquity == c.initialCapital
      ensures positions == [] && trades == [] && equityCurve == []
      ensures tradeCounter == 0 && positionCounter == 0
    {
      config := c;
      cash := c.initialCapital;
      positions := [];
      trades := [];
      equityCurve := [];
      peakEquity := c.initialCapital;
      tradeCounter := 0;
      positionCounter := 0;
    }

    method Reset()
      modifies this
      ensures Valid()
      ensures cash == config.initialCapital && peakEquity == config.initialCapital
      ensures positions == [] && trades == [] && equityCurve == []
      ensures tradeCounter == 0 && positionCounter == 0
    {
      cash := config.initialCapital;
      positions := [];
      trades := [];
      equityCurve := [];
      peakEquity := config.initialCapital;
      tradeCounter := 0;
      positionCounter := 0;
    }

    /** _open_position: spends a share of cash (Notional) plus commission on a LONG at the
        slipped close, unless that would exceed the cash; the new position gets the next id. */
    method OpenPosition(signal: Signal, close: real, timestamp: int)
      requires Valid() && |positions| < MaxOpen(config)
      requires EntryPrice(close, config) != 0.0
      modifies this
      ensures Valid()
      ensures OpenCost(signal, old(cash), config) > old(cash) ==>
        cash == old(cash) && positions == old(positions) && positionCounter == old(positionCounter)
      ensures OpenCost(signal, old(cash), config) <= old(cash) ==>
        cash == old(cash) - OpenCost(signal, old(cash), config)
        && positionCounter == old(positionCounter) + 1
        && positions == old(positions) + [OpenedPosition(signal, old(cash), close, timestamp, config, positionCounter)]
      ensures State() == OpenStep(old(State()), signal, close, timestamp, config)
      ensures trades == old(trades) && tradeCounter == old(tradeCounter)
      ensures equityCurve == old(equityCurve) && peakEquity == old(peakEquity)
      ensures old(Solvent()) && SaneSignal(signal) && EntryPrice(close, config) > 0.0 ==> Solvent()
    {
      var positionValue := Notional(signal, cash);
      var commission := positionValue * config.commission;
      assert positionValue + commission == OpenCost(signal, cash, config);
      if positionValue + commission > cash {
        return;
      }
      var position := OpenedPosition(signal, cash, close, timestamp, config, positionCounter + 1);
      LedgerOpen(config, positions, trades, tradeCounter, positionCounter, position);
      if Solvent() && SaneSignal(signal) && EntryPrice(close, config) > 0.0 {
        OpenedPositionSane(signal, cash, close, timestamp, config, positionCounter + 1);
        SolventOpen(cash, positionValue + commission, positions, position);
      }
      cash := cash - (positionValue + commission);
      positionCounter := positionCounter + 1;
      positions := positions + [position];
    }

    /** The lookup loop of _close_position: the first position holding `symbol`. */
    method IndexOfSymbol(symbol: string) returns (r: Option<nat>)
      ensures r == FindSymbol(positions, symbol)
    {
      var i := 0;
      while i < |positions|
        invariant 0 <= i <= |positions|
        invariant forall k :: 0 <= k < i ==> positions[k].symbol != symbol
      {
        if positions[i].symbol == symbol {
          return Some(i);
        }
        i := i + 1;
      }
      return None;
    }

    /** _close_position_at_price: books the trade, credits the proceeds and deletes the
        position by its id. */
    method ClosePositionAt(position: BacktestPosition, price: real, timestamp: int, tradeType: TradeType)
      returns (trade: BacktestTrade)
      requires Valid() && position in positions
      modifies this
      ensures Valid()
      ensures trade == CloseAt(position, price, timestamp, tradeType, config.commission, old(tradeCounter) + 1)
      ensures trades == old(trades) + [trade]
      ensures positions == Without(old(positions), {position.id})
      ensures cash == old(cash) + Proceeds(position, price, config.commission)
      ensures equityCurve == old(equityCurve) && peakEquity == old(peakEquity)
      ensures positionCounter == old(positionCounter)
      ensures old(Solvent()) && SaneCosts(config) && price >= 0.0 ==> Solvent()
    {
      var proceeds := Proceeds(position, price, config.commission);
      trade := CloseAt(position, price, timestamp, tradeType, config.commission, tradeCounter + 1);
      LedgerClose(config, positions, trades, tradeCounter, positionCounter, position, trade);
      if Solvent() && SaneCosts(config) && price >= 0.0 {
        ProceedsNonNegative(position, price, config.commission);
        SolventClose(cash, proceeds, positions, {position.id});
      }
      cash := cash + proceeds;
      tradeCounter := tradeCounter + 1;
      trades := trades + [trade];
      positions := Without(positions, {position.id});
    }

    /** _close_position: closes the first position (in insertion order) holding the signal's
        symbol at the slipped close; nothing happens when none does. */
    method ClosePosition(signal: Signal, close: real, timestamp: int, tradeType: TradeType)
      requires Valid()
      modifies this
      ensures Valid()
      ensures FindSymbol(old(positions), signal.symbol).None? ==>
        cash == old(cash) && positions == old(positions) && trades == old(trades)
      ensures FindSymbol(old(positions), signal.symbol).Some? ==>
        var i := FindSymbol(old(positions), signal.symbol).value;
        positions == Without(old(positions), {old(positions)[i].id})
        && cash == old(cash) + Proceeds(old(positions)[i], ExitPrice(close, config), config.commission)
        && trades == old(trades) + [CloseAt(old(positions)[i], ExitPrice(close, config), timestamp, tradeType,
                                            config.commission, old(tradeCounter) + 1)]
      ensures State() == CloseStep(old(State()), signal.symbol, ExitPrice(close, config), timestamp, tradeType, config)
      ensures equityCurve == old(equityCurve) && peakEquity == old(peakEquity)
      ensures positionCounter == old(positionCounter)
      ensures old(Solvent()) && SaneCosts(config) && close > 0.0 ==> Solvent()
    {
      ghost var s0 := State();
      var found := IndexOfSymbol(signal.symbol);
      if found.None? {
        return;
      }
      var exitPrice := ExitPrice(close, config);
      assert SaneCosts(config) && close > 0.0 ==> exitPrice >= 0.0 by {
        if SaneCosts(config) && close > 0.0 {
          ExitPriceNonNegative(close, config);
        }
      }
      var trade := ClosePositionAt(positions[found.value], exitPrice, timestamp, tradeType);
      CloseStepOf(s0, State(), signal.symbol, exitPrice, timestamp, tradeType, config, found.value);
    }

    /** _process_signal: HOLD and NO_SIGNAL do nothing; a BUY is refused once max_positions
        positions are open; SELL, CLOSE_LONG and CLOSE_SHORT all close as an EXIT. */
    method ProcessSignal(signal: Signal, candle: OHLCVData, timestamp: int)
      requires Valid()
      requires signal.signalType == Buy ==> EntryPrice(candle.close, config) != 0.0
      modifies this
      ensures Valid()
      ensures State() == SignalStep(old(State()), signal, candle, timestamp, config)
      ensures !IsActionable(signal) || (signal.signalType == Buy && |old(positions)| >= config.maxPositions) ==>
        State() == old(State())
      ensures signal.signalType == Buy && |old(positions)| < config.maxPositions ==>
        var cost := OpenCost(signal, old(cash), config);
        (cost > old(cash) ==> State() == old(State()))
        && (cost <= old(cash) ==>
              cash == old(cash) - cost
              && positions == old(positions) + [OpenedPosition(signal, old(cash), candle.close, timestamp, config,
                                                                old(positionCounter) + 1)]
              && positionCounter == old(positionCounter) + 1
              && trades == old(trades))
      ensures IsActionable(signal) && signal.signalType != Buy ==>
        match FindSymbol(old(positions), signal.symbol)
        case None => State() == old(State())
        case Some(i) =>
          positions == Without(old(positions), {old(positions)[i].id})
          && cash == old(cash) + Proceeds(old(positions)[i], ExitPrice(candle.close, config), config.commission)
          && trades == old(trades) + [CloseAt(old(positions)[i], ExitPrice(candle.close, config), timestamp, Exit,
                                              config.commission, |old(trades)| + 1)]
          && positionCounter == old(positionCounter)
      ensures equityCurve == old(equityCurve) && peakEquity == old(peakEquity)
      ensures old(Solvent()) && SaneConfig(config) && SaneCandle(candle) && SaneSignal(signal) ==> Solvent()
    {
      if !IsActionable(signal) {
        return;
      }
      if signal.signalType == Buy && |positions| >= config.maxPositions {
        return;
      }
      if signal.signalType == Buy {
        if SaneConfig(config) && SaneCandle(candle) {
          EntryPricePositive(candle.close, config);
        }
        OpenPosition(signal, candle.close, timestamp);
      } else {
        // SELL, CLOSE_LONG and CLOSE_SHORT take the same path.
        ClosePosition(signal, candle.close, timestamp, Exit);
      }
    }

    /** _check_exit_orders: first collects the triggered exits of every open position, then
        closes each at its level. A position leaves exactly when its ExitDecision fires. */
    method CheckExitOrders(high: real, low: real, timestamp: int)
      requires Valid()
      modifies this
      ensures Valid()
      ensures positions == Without(old(positions), PlanIds(ExitPlan(old(positions), high, low)))
      ensures forall p :: p in old(positions) ==> (p in positions <==> ExitDecision(p, high, low).None?)
      ensures trades == old(trades) + PlanTrades(ExitPlan(old(positions), high, low), timestamp, config.commission, |old(trades)|)
      ensures cash == old(cash) + PlanProceeds(ExitPlan(old(positions), high, low), config.commission)
      ensures State() == ExitsStep(old(State()), high, low, timestamp, config)
      ensures equityCurve == old(equityCurve) && peakEquity == old(peakEquity)
      ensures positionCounter == old(positionCounter)
      ensures old(Solvent()) && SaneCosts(config) ==> Solvent()
    {
      var plan := CollectExits(positions, high, low);
      PlanIdsIncreasing(positions, high, low);
      PlanIdsExact(positions, high, low);
      WithoutMember(positions, PlanIds(plan));
      if Solvent() {
        forall o | o in plan
          ensures o.price >= 0.0
        {
          ExitLevelSane(o.position, high, low);
        }
      }
      ExecuteExits(plan, timestamp);
    }

    /** The second loop of _check_exit_orders: closes each planned exit at its level. The
        plan's ids increase, so each planned position is still open when its turn comes,
        and it is the open position that carries its id. */
    method ExecuteExits(plan: seq<ExitOrder>, timestamp: int)
      requires Valid() && PlanOrdered(plan)
      requires forall o :: o in plan ==> o.position in positions
      modifies this
      ensures Valid()
      ensures positions == Without(old(positions), PlanIds(plan))
      ensures trades == old(trades) + PlanTrades(plan, timestamp, config.commission, |old(trades)|)
      ensures cash == old(cash) + PlanProceeds(plan, config.commission)
      ensures equityCurve == old(equityCurve) && peakEquity == old(peakEquity)
      ensures positionCounter == old(positionCounter)
      ensures old(Solvent()) && SaneCosts(config) && NonNegativePrices(plan) ==> Solvent()
    {
      ghost var P0, T0, C0 := positions, trades, cash;
      ghost var keep := Solvent() && SaneCosts(config) && NonNegativePrices(plan);
      ExitsStart(P0, T0, C0, plan, timestamp, config.commission);
      var j := 0;
      while j < |plan|
        invariant 0 <= j <= |plan|
        invariant Valid() && EntriesNonZero(plan) && IdsIncreasing(P0) && PlanOrdered(plan)
        invariant forall o :: o in plan ==> o.position in P0
        invariant ExitsDone(P0, T0, C0, plan, j, timestamp, config.commission, positions, trades, cash)
        invariant equityCurve == old(equityCurve) && peakEquity == old(peakEquity)
        invariant positionCounter == old(positionCounter)
      {
        CloseExit(P0, T0, C0, plan, j, timestamp);
        j := j + 1;
      }
      ExitsFinish(P0, T0, C0, plan, timestamp, config.commission, positions, trades, cash);
      if keep {
        SolventAfterExits(C0, P0, plan, config.commission);
      }
    }

    /** One pass of the second loop of _check_exit_orders: the j-th planned exit. */
    method CloseExit(ghost P0: seq<BacktestPosition>, ghost T0: seq<BacktestTrade>, ghost C0: real, plan: seq<ExitOrder>, j: nat,
                     timestamp: int)
      requires Valid() && j < |plan| && EntriesNonZero(plan) && IdsIncreasing(P0) && PlanOrdered(plan)
      requires forall o :: o in plan ==> o.position in P0
      requires ExitsDone(P0, T0, C0, plan, j, timestamp, config.commission, positions, trades, cash)
      modifies this
      ensures Valid()
      ensures ExitsDone(P0, T0, C0, plan, j + 1, timestamp, config.commission, positions, trades, cash)
      ensures equityCurve == old(equityCurve) && peakEquity == old(peakEquity)
      ensures positionCounter == old(positionCounter)
    {
      LocateExit(P0, plan, j, positions);
      ghost var ps, ts, c := positions, trades, cash;
      assert tradeCounter == |ts|;
      var trade := ClosePositionAt(plan[j].position, plan[j].price, timestamp, plan[j].tradeType);
      ExitStep(P0, T0, C0, plan, j, j + 1, timestamp, config.commission, ps, ts, c,
               positions, trades, cash, trade, |ts| + 1);
    }

    /** _update_position_prices: every open position tracks the candle's extremes and, with
        trailing stops on, a LONG's trailing stop ratchets up to highest * (1 - pct / 100). */
    method UpdatePositionPrices(high: real, low: real)
      requires Valid()
      modifies this
      ensures Valid()
      ensures |positions| == |old(positions)|
      ensures forall k :: 0 <= k < |positions| ==> positions[k] == TrackAndRatchet(old(positions)[k], high, low, config)
      ensures State() == old(State()).(positions := TrackAll(old(positions), high, low, config))
      ensures cash == old(cash) && trades == old(trades)
      ensures equityCurve == old(equityCurve) && peakEquity == old(peakEquity)
      ensures positionCounter == old(positionCounter)
      ensures old(Solvent()) && SaneConfig(config) ==> Solvent()
    {
      ghost var keep := Solvent() && SaneConfig(config);
      var i := 0;
      while i < |positions|
        invariant 0 <= i <= |positions| && |positions| == |old(positions)|
        invariant forall k :: 0 <= k < i ==> positions[k] == TrackAndRatchet(old(positions)[k], high, low, config)
        invariant forall k :: i <= k < |positions| ==> positions[k] == old(positions)[k]
        invariant Valid()
        invariant cash == old(cash) && trades == old(trades)
        invariant equityCurve == old(equityCurve) && peakEquity == old(peakEquity)
        invariant positionCounter == old(positionCounter)
        invariant keep ==> Solvent()
      {
        var q := TrackAndRatchet(positions[i], high, low, config);
        LedgerTrack(config, positions, trades, tradeCounter, positionCounter, i, q);
        if keep {
          assert positions[i] in positions;
          RatchetSane(positions[i], high, low, config);
          SolventTrack(cash, positions, i, q);
        }
        positions := positions[i := q];
        i := i + 1;
      }
      assert positions == TrackAll(old(positions), high, low, config);
    }

    /** _record_equity: marks the open positions to the close, raises the peak if needed and
        appends the point with its drawdown from the peak. */
    method RecordEquity(timestamp: int, close: real)
      requires Valid()
      modifies this
      ensures Valid()
      ensures |equityCurve| > 0 && equityCurve == old(equityCurve) + [equityCurve[|equityCurve| - 1]]
      ensures var pt := equityCurve[|equityCurve| - 1];
        pt.timestamp == timestamp && pt.cash == cash
        && pt.positionValue == PositionValue(positions, close)
        && pt.equity == cash + PositionValue(positions, close)
        && peakEquity == Max(old(peakEquity), pt.equity)
      ensures State() == RecordStep(old(State()), timestamp, close)
      ensures cash == old(cash) && positions == old(positions) && trades == old(trades)
      ensures positionCounter == old(positionCounter)
      ensures Solvent() == old(Solvent())
    {
      var positionValue := MarkToMarket(positions, close);
      var equity := cash + positionValue;
      var peak := Max(peakEquity, equity);
      var drawdown := peak - equity;
      var point := EquityPoint(timestamp, equity, cash, positionValue, drawdown, DrawdownPct(drawdown, peak));
      CurveAppend(config.initialCapital, equityCurve, peakEquity, point);
      peakEquity := peak;
      equityCurve := equityCurve + [point];
    }

    /** One candle of _run_event_driven: exits, price tracking, the strategy's signals in
        order, then the equity point. */
    method Step(candle: OHLCVData, signals: seq<Signal>)
      requires Valid()
      requires EntryPrice(candle.close, config) != 0.0
      modifies this
      ensures Valid()
      ensures State() == CandleStep(old(State()), candle, signals, config)
      ensures |equityCurve| == |old(equityCurve)| + 1
      ensures equityCurve[|equityCurve| - 1].timestamp == candle.timestamp
      ensures old(Solvent()) && SaneConfig(config) && SaneCandle(candle) && SaneSignals(signals) ==>
        Solvent()
    {
      CheckExitOrders(candle.high, candle.low, candle.timestamp);
      UpdatePositionPrices(candle.high, candle.low);
      ProcessSignals(candle, signals);
      RecordEquity(candle.timestamp, candle.close);
    }

    /** The loop of _run_event_driven that hands each of the candle's signals, in order,
        to _process_signal. */
    method ProcessSignals(candle: OHLCVData, signals: seq<Signal>)
      requires Valid()
      requires EntryPrice(candle.close, config) != 0.0
      modifies this
      ensures Valid()
      ensures State() == SignalsFold(old(State()), signals, candle, config)
      ensures old(Solvent()) && SaneConfig(config) && SaneCandle(candle) && SaneSignals(signals) ==> Solvent()
    {
      ghost var keep := Solvent() && SaneConfig(config) && SaneCandle(candle) && SaneSignals(signals);
      ghost var start := State();
      var i := 0;
      while i < |signals|
        invariant 0 <= i <= |signals|
        invariant Valid()
        invariant State() == SignalsFold(start, signals[..i], candle, config)
        invariant keep ==> Solvent()
      {
        assert signals[..i + 1][..i] == signals[..i];
        ProcessSignal(signals[i], candle, candle.timestamp);
        i := i + 1;
      }
      assert signals[..i] == signals;
    }

    /** _run_event_driven: after a warm-up of max(50, number of columns) candles, steps
        through the rest, showing the strategy only the candles up to the current one. */
    method RunEventDriven(candles: seq<OHLCVData>, columnCount: nat, strategy: seq<OHLCVData> -> seq<Signal>)
      requires Valid()
      requires ClosesOk(candles, config)
      modifies this
      ensures Valid()
      ensures State() == EventRun(old(State()), candles, columnCount, strategy, config)
      ensures |equityCurve| == |old(equityCurve)| + WarmedUpCount(|candles|, columnCount)
      ensures old(Solvent()) && SaneConfig(config) && SaneRun(candles, strategy) ==> Solvent()
    {
      ghost var keep := Solvent() && SaneConfig(config) && SaneRun(candles, strategy);
      ghost var start := State();
      assert EntriesOk(start.positions);
      EventRunLength(start, candles, columnCount, strategy, config);
      var i: nat := MaxInt(50, columnCount);
      if i >= |candles| {
        return;
      }
      var first := i;
      while i < |candles|
        invariant first <= i <= |candles|
        invariant Valid()
        invariant State() == RunFrom(start, candles, first, i, strategy, config)
        invariant keep ==> Solvent()
      {
        AdvanceCandle(start, candles, first, i, strategy, keep);
        i := i + 1;
      }
    }

    /** One pass of the loop of _run_event_driven: the strategy sees the candles up to
        the i-th, then the engine steps through that candle. */
    method AdvanceCandle(ghost start: EngineState, candles: seq<OHLCVData>, first: nat, i: nat,
                         strategy: seq<OHLCVData> -> seq<Signal>, ghost keep: bool)
      requires Valid() && first <= i < |candles| && EntriesOk(start.positions)
      requires ClosesOk(candles, config)
      requires State() == RunFrom(start, candles, first, i, strategy, config)
      requires keep ==> Solvent() && SaneConfig(config) && SaneRun(candles, strategy)
      modifies this
      ensures Valid()
      ensures State() == RunFrom(start, candles, first, i + 1, strategy, config)
      ensures keep ==> Solvent()
    {
      var signals := strategy(candles[..i + 1]);
      Step(candles[i], signals);
      RunFromNext(start, candles, first, i, strategy, config);
    }

    /** run: resets, takes the first data source's candles, cuts them to the configured
        window, runs the event-driven loop and computes the metrics. */
    method Run(sources: seq<DataSource>, dated: bool, columnCount: nat, strategy: seq<OHLCVData> -> seq<Signal>)
      returns (r: Result<BacktestResult, RunError>)
      requires |sources| > 0 && sources[0].data.Some? ==>
        forall x :: x in sources[0].data.value ==> EntryPrice(x.close, config) != 0.0
      modifies this
      ensures Valid()
      ensures |sources| == 0 ==> r == Err(NoDataSources)
      ensures |sources| > 0 && !IsLoaded(sources[0]) ==> r == Err(NoDataLoaded)
      ensures r.Err? ==> trades == [] && positions == [] && equityCurve == [] && cash == config.initialCapital
      ensures |sources| > 0 && IsLoaded(sources[0]) ==>
        r.Ok? && r.value.config == config && r.value.trades == trades && r.value.equityCurve == equityCurve
        && State() == EventRun(InitialState(config), FilterByDate(sources[0].data.value, config, dated), columnCount,
                               strategy, config)
        && IsMetricsOf(r.value.metrics, trades, equityCurve, config.initialCapital, config.startDate, config.endDate)
      ensures (r.Ok? && |sources| > 0 && sources[0].data.Some? && SaneConfig(config)
               && SaneRun(FilterByDate(sources[0].data.value, config, dated), strategy)) ==> Solvent()
    {
      Reset();
      if |sources| == 0 {
        return Err(NoDataSources);
      }
      var data := sources[0].data;
      if data.None? || |data.value| == 0 {
        return Err(NoDataLoaded);
      }
      var candles := FilterByDate(data.value, config, dated);
      assert ClosesOk(candles, config) by {
        forall k | 0 <= k < |candles|
          ensures EntryPrice(candles[k].close, config) != 0.0
        {
          assert candles[k] in candles;
        }
      }
      RunEventDriven(candles, columnCount, strategy);
      var metrics := CalculateMetrics(trades, equityCurve, config.initialCapital, config.startDate, config.endDate);
      return Ok(BacktestResult(config, trades, equityCurve, metrics));
    }

    /** run_vectorized: resets, then runs the buy and sell series of the first symbol with a
        buy signal over the closes, all in or all out; returns nothing without such a symbol. */
    method RunVectorized(buySignals: seq<(string, seq<bool>)>, sellSignals: seq<(string, seq<bool>)>, closes: seq<real>)
      returns (r: Option<VectorResult>)
      requires NonZeroCloses(closes) && SeriesCover(buySignals, |closes|) && SeriesCover(sellSignals, |closes|)
      requires |buySignals| > 0 && buySignals[0].0 != "" ==> config.initialCapital != 0.0
      modifies this
      ensures Valid()
      ensures trades == [] && positions == [] && equityCurve == [] && cash == config.initialCapital
      ensures r.None? <==> |buySignals| == 0 || buySignals[0].0 == ""
      ensures r.Some? ==>
        var st := VectorFold(config.initialCapital, buySignals[0].1,
                             SellSeries(sellSignals, buySignals[0].0, |closes|), closes, |closes|);
        r.value.totalReturn == st.equity[|st.equity| - 1] - config.initialCapital
        && r.value.totalReturnPercentage == ReturnPercentage(r.value.totalReturn, config.initialCapital)
    {
      Reset();
      if |buySignals| == 0 || buySignals[0].0 == "" {
        return None;
      }
      var symbol := buySignals[0].0;
      var buys := buySignals[0].1;
      var sells := SellSeries(sellSignals, symbol, |closes|);
      var equity, position := VectorEquity(config.initialCapital, buys, sells, closes);
      var totalReturn := equity[|equity| - 1] - config.initialCapital;
      return Some(VectorResult(totalReturn, ReturnPercentage(totalReturn, config.initialCapital)));
    }
  }
}
