// The portfolio ledger keyed by symbol (iaf-service/portfolio/manager.py): admission,
// rule-filled stops and targets, full and partial closes, price updates with trailing
// stops, exit detection and the equity and drawdown record.
//
// Position and trade ids, and the wall-clock times the source reads, are parameters.

module PortfolioManagement {
  import opened Common
  import opened BacktestTypes
  import opened Risk
  import opened StrategyTypes
  import opened PortfolioTypes

  /** The record close_position returns and appends to the trade history. */
  datatype ClosedTrade = ClosedTrade(
    id: string,
    positionId: string,
    symbol: string,
    side: string,
    entryPrice: real,
    exitPrice: real,
    size: real,
    entryTime: int,
    exitTime: int,
    pnl: real,
    pnlPercentage: real,
    reason: string)

  /** One entry of the equity history. */
  datatype EquitySample = EquitySample(
    timestamp: int,
    equity: real,
    cash: real,
    positionValue: real,
    drawdown: real,
    drawdownPercentage: real)

  /** The price dict of one symbol: each of "high", "low" and "close" may be missing. */
  datatype PriceQuote = PriceQuote(high: Option<real>, low: Option<real>, close: Option<real>)

  /** One entry of the list check_exit_conditions returns. */
  datatype ExitOrder = ExitOrder(symbol: string, price: real, reason: string)

  /** What process_signal did: nothing, opened this position, or closed with this trade. */
  datatype SignalOutcome = NoAction | PositionOpened(position: PositionState) | PositionClosed(trade: ClosedTrade)

  // ---------------------------------------------------------------- opening

  /** open_position's stop: the one given, else the symbol's rule priced at the entry
      (without an ATR), else none. */
  function FilledStop(rc: RiskConfig, symbol: string, side: string, price: real, stopLoss: Option<real>): (r: Option<real>)
    ensures stopLoss.Some? ==> r == stopLoss
    ensures stopLoss.None? ==> (r.Some? <==> StopLossFor(rc, symbol).Some?)
    ensures stopLoss.None? && r.Some? ==> r.value == StopPrice(StopLossFor(rc, symbol).value, price, side, None)
  {
    if stopLoss.Some? then stopLoss
    else
      match StopLossFor(rc, symbol)
      case None => None
      case Some(rule) => Some(StopPrice(rule, price, side, None))
  }

  /** open_position's target: the one given, else the symbol's rule priced at the entry. */
  function FilledTarget(rc: RiskConfig, symbol: string, side: string, price: real, takeProfit: Option<real>): (r: Option<real>)
    ensures takeProfit.Some? ==> r == takeProfit
    ensures takeProfit.None? ==> (r.Some? <==> TakeProfitFor(rc, symbol).Some?)
    ensures takeProfit.None? && r.Some? ==> r.value == TargetPrice(TakeProfitFor(rc, symbol).value, price, side)
  {
    if takeProfit.Some? then takeProfit
    else
      match TakeProfitFor(rc, symbol)
      case None => None
      case Some(rule) => Some(TargetPrice(rule, price, side))
  }

  /** The position open_position stores: entered and priced at `price`, OPEN, no trailing stop. */
  function OpenedState(rc: RiskConfig, id: string, symbol: string, side: string, size: real, price: real,
                       entryTime: int, stopLoss: Option<real>, takeProfit: Option<real>): (p: PositionState)
    ensures p.symbol == symbol && p.side == side && p.size == size && p.status == Open
    ensures p.entryPrice == price && p.currentPrice == price && p.highestPrice == price && p.lowestPrice == price
    ensures p.trailingStop.None?
  {
    NewPositionState(id, symbol, side, size, price, price, entryTime,
                     FilledStop(rc, symbol, side, price, stopLoss), FilledTarget(rc, symbol, side, price, takeProfit),
                     None, Open, 0.0, None)
  }

  /** Rules with positive thresholds fill in a stop below and a target above a long entry. */
  lemma FilledLevelsBracketLongEntry(rc: RiskConfig, id: string, symbol: string, size: real, price: real, entryTime: int)
    requires price > 0.0
    requires StopLossFor(rc, symbol).Some? && TakeProfitFor(rc, symbol).Some?
    requires StopLossFor(rc, symbol).value.percentageThreshold > 0.0
    requires StopLossFor(rc, symbol).value.slType != AtrBased
    requires TakeProfitFor(rc, symbol).value.percentageThreshold > 0.0
    ensures var p := OpenedState(rc, id, symbol, "long", size, price, entryTime, None, None);
      p.stopLoss.Some? && p.takeProfit.Some? && p.stopLoss.value < p.entryPrice < p.takeProfit.value
  {
    LongSpellings();
    StopAndTargetBracketEntry(StopLossFor(rc, symbol).value, TakeProfitFor(rc, symbol).value, price, "long");
  }

  /** can_open_position: enough cash, room under max_open_positions, and no position in
      the symbol yet. */
  predicate Admits(rc: RiskConfig, cash: real, ps: seq<PositionState>, symbol: string, requiredValue: real)
  {
    requiredValue <= cash && |ps| < rc.maxOpenPositions && symbol !in Symbols(ps)
  }

  /** What the BUY branch of process_signal returns for a given size: the opened
      "long" when the rules admit its value, otherwise no action. */
  function BuyOutcome(rc: RiskConfig, cash: real, ps: seq<PositionState>, signal: Signal, size: real,
                      positionId: string, now: int): (r: SignalOutcome)
    ensures r.PositionOpened? <==> Admits(rc, cash, ps, signal.symbol, size * signal.price)
    ensures r.PositionOpened? ==>
      r.position.symbol == signal.symbol && r.position.size == size
      && r.position.entryPrice == signal.price && r.position.side == "long"
  {
    if Admits(rc, cash, ps, signal.symbol, size * signal.price) then
      PositionOpened(OpenedState(rc, positionId, signal.symbol, "long", size, signal.price, now,
                                 signal.metadata.stopLoss, signal.metadata.takeProfit))
    else NoAction
  }

  /** calculate_position_size: 10% of the portfolio's value without a rule for the symbol,
      otherwise the rule's size. */
  function CalculatePositionSize(rc: RiskConfig, portfolioValue: real, symbol: string, currentPrice: real,
                                 stopLossPrice: Option<real>): (r: real)
    requires currentPrice != 0.0
    ensures PositionSizeFor(rc, symbol).Some? ==>
      r == CalculateSize(PositionSizeFor(rc, symbol).value, portfolioValue, currentPrice, stopLossPrice)
  {
    match PositionSizeFor(rc, symbol)
    case None => portfolioValue * 0.1 / currentPrice
    case Some(rule) => CalculateSize(rule, portfolioValue, currentPrice, stopLossPrice)
  }

  /** Without a sizing rule for the symbol the position is worth 10% of the portfolio. */
  lemma DefaultPositionSize(rc: RiskConfig, portfolioValue: real, symbol: string, currentPrice: real,
                            stopLossPrice: Option<real>)
    requires currentPrice != 0.0 && PositionSizeFor(rc, symbol).None?
    ensures CalculatePositionSize(rc, portfolioValue, symbol, currentPrice, stopLossPrice) * currentPrice
      == portfolioValue * 0.1
  {
    var r := portfolioValue * 0.1 / currentPrice;
    assert r * currentPrice == portfolioValue * 0.1;
  }

  lemma {:induction false} DistinctAppend(ps: seq<PositionState>, p: PositionState)
    requires DistinctSymbols(ps) && p.symbol !in Symbols(ps)
    ensures DistinctSymbols(ps + [p])
  {
    forall k | 0 <= k < |ps|
      ensures ps[k].symbol != p.symbol
    {
      assert Symbols(ps)[k] == ps[k].symbol;
    }
  }

  // ---------------------------------------------------------------- closing

  /** `partial_size if partial_size else position.size`: None and 0.0 close everything. */
  function CloseSize(p: PositionState, partialSize: Option<real>): real
  {
    if Truthy(partialSize) then partialSize.value else p.size
  }

  /** The cash a close credits: close size * price, even when the close size exceeds the
      held size. */
  function CloseValue(p: PositionState, partialSize: Option<real>, price: real): real
  {
    CloseSize(p, partialSize) * price
  }

  /** Only a truthy partial size below the held size leaves the position open. */
  predicate KeepsPosition(p: PositionState, partialSize: Option<real>)
  {
    Truthy(partialSize) && partialSize.value < p.size
  }

  /** The realised pnl of closing `closeSize` at `price`: only "long" gains on a rise. */
  function ClosePnl(p: PositionState, price: real, closeSize: real): real
  {
    if p.side == "long" then (price - p.entryPrice) * closeSize
    else (p.entryPrice - price) * closeSize
  }

  /** The trade close_position records. Its pnl percentage divides by entry * close size,
      which raises ZeroDivisionError when that is zero; callers exclude it. */
  function CloseTrade(p: PositionState, price: real, reason: string, partialSize: Option<real>,
                      id: string, exitTime: int): (t: ClosedTrade)
    requires p.entryPrice * CloseSize(p, partialSize) != 0.0
    ensures t.positionId == p.id && t.symbol == p.symbol && t.side == p.side && t.entryPrice == p.entryPrice
    ensures t.exitPrice == price && t.size == CloseSize(p, partialSize) && t.reason == reason
    ensures t.pnl == ClosePnl(p, price, t.size)
    ensures t.pnlPercentage * (p.entryPrice * t.size) == t.pnl * 100.0
  {
    var closeSize := CloseSize(p, partialSize);
    var pnl := ClosePnl(p, price, closeSize);
    ClosedTrade(id, p.id, p.symbol, p.side, p.entryPrice, price, closeSize, p.entryTime, exitTime,
                pnl, pnl / (p.entryPrice * closeSize) * 100.0, reason)
  }

  /** A full close realises exactly the unrealized pnl the position shows at the exit price,
      and the same percentage. */
  lemma FullCloseRealisesUnrealized(p: PositionState, price: real, reason: string, id: string, exitTime: int)
    requires p.entryPrice * p.size != 0.0
    ensures var t := CloseTrade(p, price, reason, None, id, exitTime);
      t.pnl == Pnl(p.(currentPrice := price)) && t.pnlPercentage == PnlPercentage(p.(currentPrice := price))
  {
    var q := p.(currentPrice := price);
    var t := CloseTrade(p, price, reason, None, id, exitTime);
    assert t.size == p.size;
    PnlPercentageOfEntryValue(q);
    assert PnlPercentage(q) * (p.entryPrice * p.size) == t.pnl * 100.0;
  }

  /** The positions after a close of the position at index i. */
  function AfterClose(ps: seq<PositionState>, i: nat, partialSize: Option<real>): (r: seq<PositionState>)
    requires i < |ps|
    ensures KeepsPosition(ps[i], partialSize) ==> r == ps[i := ps[i].(size := ps[i].size - partialSize.value)]
    ensures !KeepsPosition(ps[i], partialSize) ==> r == ps[..i] + ps[i + 1..]
  {
    if KeepsPosition(ps[i], partialSize) then ps[i := ps[i].(size := ps[i].size - partialSize.value)]
    else ps[..i] + ps[i + 1..]
  }

  /** A close keeps the keys distinct; the symbol stays held iff the close was partial, and
      a partial close leaves a positive remainder that adds up with the closed size. */
  lemma {:induction false} AfterCloseShape(ps: seq<PositionState>, i: nat, partialSize: Option<real>)
    requires i < |ps| && DistinctSymbols(ps)
    ensures DistinctSymbols(AfterClose(ps, i, partialSize))
    ensures ps[i].symbol in Symbols(AfterClose(ps, i, partialSize)) <==> KeepsPosition(ps[i], partialSize)
    ensures KeepsPosition(ps[i], partialSize) ==>
      var q := AfterClose(ps, i, partialSize)[i];
      q.size > 0.0 && q.size + CloseSize(ps[i], partialSize) == ps[i].size
  {
    var r := AfterClose(ps, i, partialSize);
    if KeepsPosition(ps[i], partialSize) {
      assert Symbols(r)[i] == ps[i].symbol;
    } else {
      assert |r| == |ps| - 1;
      assert forall k :: 0 <= k < |r| ==> r[k] == if k < i then ps[k] else ps[k + 1];
      forall k | 0 <= k < |r|
        ensures Symbols(r)[k] != ps[i].symbol
      {
        assert Symbols(r)[k] == r[k].symbol;
      }
    }
  }

  /** What close_position may divide by: it needs entry * close size != 0 for a held symbol. */
  predicate CloseDefined(ps: seq<PositionState>, symbol: string, partialSize: Option<real>)
  {
    match FindPosition(ps, symbol)
    case None => true
    case Some(i) => ps[i].entryPrice * CloseSize(ps[i], partialSize) != 0.0
  }

  // ---------------------------------------------------------------- price updates

  /** _update_trailing_stops: only an existing trailing stop of an exact "long" position
      with a trailing rule moves, and only upwards to highest * (1 - offset / 100). */
  function Retrail(rc: RiskConfig, p: PositionState): (q: PositionState)
    ensures q == p.(trailingStop := q.trailingStop)
    ensures q.trailingStop.Some? <==> p.trailingStop.Some?
    ensures q.trailingStop.Some? ==> q.trailingStop.value >= p.trailingStop.value
    ensures q != p ==>
      p.side == "long" && StopLossFor(rc, p.symbol).Some? && StopLossFor(rc, p.symbol).value.trailing
      && q.trailingStop == Some(TrailBelow(p.highestPrice, StopLossFor(rc, p.symbol).value.trailingOffset))
  {
    if p.trailingStop.None? || p.side != "long" then p
    else
      match StopLossFor(rc, p.symbol)
      case None => p
      case Some(rule) =>
        if !rule.trailing then p
        else
          var level := TrailBelow(p.highestPrice, rule.trailingOffset);
          if level > p.trailingStop.value then p.(trailingStop := Some(level)) else p
  }

  /** A position's trailing stop does not move again without a new price extreme. */
  lemma RetrailIdempotent(rc: RiskConfig, p: PositionState)
    ensures Retrail(rc, Retrail(rc, p)) == Retrail(rc, p)
  {
  }

  /** One entry of the price dict: update_price (no high or low) and the trailing stop of
      the position under that symbol, if any. */
  function Reprice(rc: RiskConfig, ps: seq<PositionState>, symbol: string, price: real): (r: seq<PositionState>)
    ensures |r| == |ps|
    ensures Symbols(r) == Symbols(ps)
    ensures forall k :: 0 <= k < |ps| ==> r[k].trailingStop.Some? == ps[k].trailingStop.Some?
    ensures forall k :: 0 <= k < |ps| && ps[k].trailingStop.Some? ==> r[k].trailingStop.value >= ps[k].trailingStop.value
    ensures forall k :: 0 <= k < |ps| ==> r[k].highestPrice == ps[k].highestPrice && r[k].size == ps[k].size
  {
    match FindPosition(ps, symbol)
    case None => ps
    case Some(i) => ps[i := Retrail(rc, UpdatePrice(ps[i], price, None, None))]
  }

  /** update_prices before the equity record: each (symbol, price) in dict order. */
  function RepriceAll(rc: RiskConfig, ps: seq<PositionState>, prices: seq<(string, real)>): (r: seq<PositionState>)
    decreases |prices|
  {
    if |prices| == 0 then ps
    else Reprice(rc, RepriceAll(rc, ps, prices[..|prices| - 1]), prices[|prices| - 1].0, prices[|prices| - 1].1)
  }

  /** Price updates keep the keys and never lower or clear a trailing stop. */
  lemma {:induction false} RepriceAllRatchets(rc: RiskConfig, ps: seq<PositionState>, prices: seq<(string, real)>)
    ensures Symbols(RepriceAll(rc, ps, prices)) == Symbols(ps)
    ensures |RepriceAll(rc, ps, prices)| == |ps|
    ensures forall k :: 0 <= k < |ps| ==>
      RepriceAll(rc, ps, prices)[k].trailingStop.Some? == ps[k].trailingStop.Some?
    ensures forall k :: 0 <= k < |ps| && ps[k].trailingStop.Some? ==>
      RepriceAll(rc, ps, prices)[k].trailingStop.value >= ps[k].trailingStop.value
    decreases |prices|
  {
    if |prices| > 0 {
      RepriceAllRatchets(rc, ps, prices[..|prices| - 1]);
    }
  }

  lemma {:induction false} SymbolsDistinct(ps: seq<PositionState>, qs: seq<PositionState>)
    requires Symbols(ps) == Symbols(qs) && DistinctSymbols(ps)
    ensures DistinctSymbols(qs)
  {
    forall i, j | 0 <= i < j < |qs|
      ensures qs[i].symbol != qs[j].symbol
    {
      assert qs[i].symbol == Symbols(ps)[i] && qs[j].symbol == Symbols(ps)[j];
    }
  }

  // ---------------------------------------------------------------- exit detection

  /** `get("high", get("close", 0))`. */
  function QuoteHigh(q: PriceQuote): real
  {
    if q.high.Some? then q.high.value else if q.close.Some? then q.close.value else 0.0
  }

  /** `get("low", get("close", 0))`. */
  function QuoteLow(q: PriceQuote): real
  {
    if q.low.Some? then q.low.value else if q.close.Some? then q.close.value else 0.0
  }

  /** A truthy stop hit: low at or below it for "long", high at or above it for "short". */
  predicate StopHit(p: PositionState, high: real, low: real)
  {
    Truthy(p.stopLoss)
    && ((p.side == "long" && low <= p.stopLoss.value) || (p.side == "short" && high >= p.stopLoss.value))
  }

  predicate TargetHit(p: PositionState, high: real, low: real)
  {
    Truthy(p.takeProfit)
    && ((p.side == "long" && high >= p.takeProfit.value) || (p.side == "short" && low <= p.takeProfit.value))
  }

  predicate TrailHit(p: PositionState, high: real, low: real)
  {
    Truthy(p.trailingStop)
    && ((p.side == "long" && low <= p.trailingStop.value) || (p.side == "short" && high >= p.trailingStop.value))
  }

  /** The entries one position adds: a stop hit alone, else a target hit and a trailing
      hit, each at its own level. */
  function PositionExits(p: PositionState, q: PriceQuote): (r: seq<ExitOrder>)
    ensures |r| <= 2
    ensures forall k :: 0 <= k < |r| ==> r[k].symbol == p.symbol
    ensures StopHit(p, QuoteHigh(q), QuoteLow(q)) ==> r == [ExitOrder(p.symbol, p.stopLoss.value, "stop_loss")]
    ensures !StopHit(p, QuoteHigh(q), QuoteLow(q)) ==>
      |r| == (if TargetHit(p, QuoteHigh(q), QuoteLow(q)) then 1 else 0) + (if TrailHit(p, QuoteHigh(q), QuoteLow(q)) then 1 else 0)
    ensures p.side != "long" && p.side != "short" ==> r == []
  {
    var high := QuoteHigh(q);
    var low := QuoteLow(q);
    if StopHit(p, high, low) then [ExitOrder(p.symbol, p.stopLoss.value, "stop_loss")]
    else
      (if TargetHit(p, high, low) then [ExitOrder(p.symbol, p.takeProfit.value, "take_profit")] else [])
      + (if TrailHit(p, high, low) then [ExitOrder(p.symbol, p.trailingStop.value, "trailing_stop")] else [])
  }

  /** check_exit_conditions: the entries of the quoted positions, in dict order. */
  function ExitOrders(ps: seq<PositionState>, prices: map<string, PriceQuote>): seq<ExitOrder>
  {
    if |ps| == 0 then []
    else
      var last := ps[|ps| - 1];
      ExitOrders(ps[..|ps| - 1], prices) + (if last.symbol in prices then PositionExits(last, prices[last.symbol]) else [])
  }

  /** At most two entries per position, and every entry names a held, quoted symbol. */
  lemma {:induction false} ExitOrdersHeld(ps: seq<PositionState>, prices: map<string, PriceQuote>)
    ensures |ExitOrders(ps, prices)| <= 2 * |ps|
    ensures forall k :: 0 <= k < |ExitOrders(ps, prices)| ==>
      ExitOrders(ps, prices)[k].symbol in prices && ExitOrders(ps, prices)[k].symbol in Symbols(ps)
  {
    if |ps| > 0 {
      var init := ps[..|ps| - 1];
      var last := ps[|ps| - 1];
      ExitOrdersHeld(init, prices);
      assert Symbols(ps) == Symbols(init) + [last.symbol];
    }
  }

  // ---------------------------------------------------------------- equity and metrics

  /** `drawdown / peak * 100 if peak > 0 else 0`. */
  function DrawdownPercentage(drawdown: real, peak: real): (r: real)
    ensures peak <= 0.0 ==> r == 0.0
    ensures peak > 0.0 ==> r * peak == drawdown * 100.0
    ensures peak > 0.0 && drawdown >= 0.0 ==> r >= 0.0
  {
    if peak > 0.0 then drawdown / peak * 100.0 else 0.0
  }

  /** Every recorded sample lies at or below the running peak with a non-negative drawdown. */
  ghost predicate HistoryOk(history: seq<EquitySample>, peak: real)
  {
    forall k :: 0 <= k < |history| ==>
      history[k].equity <= peak && history[k].drawdown >= 0.0 && history[k].drawdownPercentage >= 0.0
  }

  lemma HistoryAppend(history: seq<EquitySample>, peak: real, s: EquitySample, peak': real)
    requires HistoryOk(history, peak) && peak <= peak'
    requires s.equity <= peak' && s.drawdown >= 0.0 && s.drawdownPercentage >= 0.0
    ensures HistoryOk(history + [s], peak')
  {
  }

  /** The pnls of the winning trades (pnl > 0), in order. */
  function WinPnls(ts: seq<ClosedTrade>): (r: seq<real>)
    ensures |r| <= |ts| && forall k :: 0 <= k < |r| ==> r[k] > 0.0
  {
    if |ts| == 0 then []
    else WinPnls(ts[..|ts| - 1]) + (if ts[|ts| - 1].pnl > 0.0 then [ts[|ts| - 1].pnl] else [])
  }

  /** The pnls of the losing trades (pnl <= 0, so breaking even loses), in order. */
  function LossPnls(ts: seq<ClosedTrade>): (r: seq<real>)
    ensures |r| <= |ts| && forall k :: 0 <= k < |r| ==> r[k] <= 0.0
  {
    if |ts| == 0 then []
    else LossPnls(ts[..|ts| - 1]) + (if ts[|ts| - 1].pnl <= 0.0 then [ts[|ts| - 1].pnl] else [])
  }

  function TradePnls(ts: seq<ClosedTrade>): (r: seq<real>)
    ensures |r| == |ts| && forall k :: 0 <= k < |ts| ==> r[k] == ts[k].pnl
  {
    if |ts| == 0 then [] else TradePnls(ts[..|ts| - 1]) + [ts[|ts| - 1].pnl]
  }

  /** Every trade is a win or a loss, and the realised pnl is the wins plus the losses. */
  lemma {:induction false} WinsAndLossesSplit(ts: seq<ClosedTrade>)
    ensures |WinPnls(ts)| + |LossPnls(ts)| == |ts|
    ensures Sum(WinPnls(ts)) + Sum(LossPnls(ts)) == Sum(TradePnls(ts))
  {
    if |ts| > 0 {
      var init := ts[..|ts| - 1];
      var x := ts[|ts| - 1].pnl;
      WinsAndLossesSplit(init);
      SumAppend(TradePnls(init), x);
      assert TradePnls(ts) == TradePnls(init) + [x];
      if x > 0.0 {
        assert WinPnls(ts) == WinPnls(init) + [x] && LossPnls(ts) == LossPnls(init) + [];
        assert LossPnls(init) + [] == LossPnls(init);
        SumAppend(WinPnls(init), x);
      } else {
        assert LossPnls(ts) == LossPnls(init) + [x] && WinPnls(ts) == WinPnls(init) + [];
        assert WinPnls(init) + [] == WinPnls(init);
        SumAppend(LossPnls(init), x);
      }
    }
  }

  /** get_metrics' profit factor as written: with wins and losses it divides by |Σ losses|,
      which raises ZeroDivisionError when every loss broke even. Without wins it stays 0. */
  function ProfitFactorAsWritten(ts: seq<ClosedTrade>): (r: Result<ProfitFactor, string>)
    ensures r.Err? <==> |WinPnls(ts)| > 0 && |LossPnls(ts)| > 0 && Sum(LossPnls(ts)) == 0.0
  {
    var wins := WinPnls(ts);
    var losses := LossPnls(ts);
    if |wins| == 0 then Ok(Finite(0.0))
    else if |losses| == 0 then Ok(Infinite)
    else if Sum(losses) == 0.0 then Err("ZeroDivisionError")
    else Ok(Finite(Sum(wins) / Abs(Sum(losses))))
  }

  /** One win and one break-even trade make the written profit factor divide by zero. */
  lemma ProfitFactorBreakEvenCrash()
    ensures ProfitFactorAsWritten([ClosedTrade("t1", "p1", "BTC", "long", 100.0, 110.0, 1.0, 0, 1, 10.0, 10.0, "signal"),
                                   ClosedTrade("t2", "p2", "ETH", "long", 100.0, 100.0, 1.0, 0, 1, 0.0, 0.0, "signal")]).Err?
  {
    var ts := [ClosedTrade("t1", "p1", "BTC", "long", 100.0, 110.0, 1.0, 0, 1, 10.0, 10.0, "signal"),
               ClosedTrade("t2", "p2", "ETH", "long", 100.0, 100.0, 1.0, 0, 1, 0.0, 0.0, "signal")];
    assert ts[..1][..0] == [] && ts[..1] == [ts[0]];
    assert WinPnls(ts) == [10.0];
    assert LossPnls(ts) == [0.0];
    assert Sum([0.0]) == 0.0;
  }

  /** The profit factor the model uses: gross profit over gross loss as the backtester's
      calculate_profit_factor defines it, +infinity when nothing was lost; 0 without wins. */
  function TradesProfitFactor(ts: seq<ClosedTrade>): (r: ProfitFactor)
    ensures |WinPnls(ts)| == 0 ==> r == Finite(0.0)
    ensures |WinPnls(ts)| > 0 ==> (r.Infinite? <==> Sum(LossPnls(ts)) == 0.0)
    ensures r.Finite? ==> r.value >= 0.0
  {
    if |WinPnls(ts)| == 0 then Finite(0.0)
    else
      assert Sum(WinPnls(ts)) > 0.0 by {
        SumPositive(WinPnls(ts));
      }
      CalculateProfitFactor(Sum(WinPnls(ts)), Sum(LossPnls(ts)))
  }

  /** Wherever the written profit factor does not raise, the corrected one agrees with it. */
  lemma ProfitFactorAgrees(ts: seq<ClosedTrade>)
    requires ProfitFactorAsWritten(ts).Ok?
    ensures ProfitFactorAsWritten(ts).value == TradesProfitFactor(ts)
  {
    var wins := WinPnls(ts);
    var losses := LossPnls(ts);
    if |wins| > 0 {
      SumPositive(wins);
      if |losses| == 0 {
        assert Sum(losses) == 0.0;
      } else {
        assert Abs(Sum(wins) / Sum(losses)) == Sum(wins) / Abs(Sum(losses));
      }
    }
  }

  /** get_metrics' trade statistics, applied only when there are closed trades. */
  function WithTradeStats(m: PortfolioMetrics, ts: seq<ClosedTrade>): (r: PortfolioMetrics)
    ensures |ts| == 0 ==> r == m
    ensures |ts| > 0 ==>
      r.totalTrades == |ts| && r.winningTrades + r.losingTrades == |ts|
      && 0.0 <= r.winRate <= 100.0 && r.realizedPnl == Sum(TradePnls(ts))
    ensures |ts| > 0 && |WinPnls(ts)| > 0 ==> r.profitFactor == TradesProfitFactor(ts)
    ensures |ts| > 0 && |WinPnls(ts)| == 0 ==> r.profitFactor == m.profitFactor && r.winRate == 0.0
  {
    if |ts| == 0 then m
    else
      WinsAndLossesSplit(ts);
      var wins := |WinPnls(ts)|;
      m.(totalTrades := |ts|, winningTrades := wins, losingTrades := |LossPnls(ts)|,
         winRate := CalculateWinRate(|ts|, wins),
         profitFactor := if wins > 0 then TradesProfitFactor(ts) else m.profitFactor,
         realizedPnl := Sum(TradePnls(ts)))
  }

  function Drawdowns(h: seq<EquitySample>): (r: seq<real>)
    ensures |r| == |h| && forall k :: 0 <= k < |h| ==> r[k] == h[k].drawdown
  {
    if |h| == 0 then [] else Drawdowns(h[..|h| - 1]) + [h[|h| - 1].drawdown]
  }

  function DrawdownPercentages(h: seq<EquitySample>): (r: seq<real>)
    ensures |r| == |h| && forall k :: 0 <= k < |h| ==> r[k] == h[k].drawdownPercentage
  {
    if |h| == 0 then [] else DrawdownPercentages(h[..|h| - 1]) + [h[|h| - 1].drawdownPercentage]
  }

  /** get_metrics' drawdown figures: the largest recorded drawdown and percentage, each on
      its own, when there is any history. */
  function WithDrawdowns(m: PortfolioMetrics, h: seq<EquitySample>): (r: PortfolioMetrics)
    ensures |h| == 0 ==> r == m
    ensures r == m.(maxDrawdown := r.maxDrawdown, maxDrawdownPercentage := r.maxDrawdownPercentage)
    ensures |h| > 0 ==> forall k :: 0 <= k < |h| ==>
      h[k].drawdown <= r.maxDrawdown && h[k].drawdownPercentage <= r.maxDrawdownPercentage
    ensures |h| > 0 ==>
      (exists k :: 0 <= k < |h| && h[k].drawdown == r.maxDrawdown)
      && (exists k :: 0 <= k < |h| && h[k].drawdownPercentage == r.maxDrawdownPercentage)
  {
    if |h| == 0 then m
    else m.(maxDrawdown := SeqMax(Drawdowns(h)), maxDrawdownPercentage := SeqMax(DrawdownPercentages(h)))
  }

  /** The cash after a signal's outcome: an opened position's entry value leaves, a
      closed trade's exit value comes in. */
  function CashAfter(cash: real, r: SignalOutcome): real
  {
    match r
    case NoAction => cash
    case PositionOpened(p) => cash - p.size * p.entryPrice
    case PositionClosed(t) => cash + t.size * t.exitPrice
  }

  /** A close's outcome credits exactly the close value. */
  lemma CashAfterClose(cash: real, p: PositionState, price: real, reason: string, partialSize: Option<real>,
                       id: string, exitTime: int)
    requires p.entryPrice * CloseSize(p, partialSize) != 0.0
    ensures CashAfter(cash, PositionClosed(CloseTrade(p, price, reason, partialSize, id, exitTime)))
      == cash + CloseValue(p, partialSize, price)
  {
  }

  /** The portfolio manager; its PortfolioState is its own and never replaced. */
  class PortfolioManager {
    const portfolioId: string
    const initialCapital: real
    const riskConfig: RiskConfig
    const state: PortfolioState
    var closedTrades: seq<ClosedTrade>
    var equityHistory: seq<EquitySample>
    var peakEquity: real

    ghost predicate Valid()
      reads this, state
    {
      state.Valid() && HistoryOk(equityHistory, peakEquity) && peakEquity >= initialCapital
    }

    /** A missing risk configuration is the default one; the state starts with all the
        capital in cash. */
    constructor (initialCapital: real, riskConfig: Option<RiskConfig>, portfolioId: string, name: string)
      ensures Valid() && fresh(state)
      ensures this.initialCapital == initialCapital && this.portfolioId == portfolioId
      ensures this.riskConfig == riskConfig.GetOr(DefaultRiskConfig)
      ensures state.cash == initialCapital && state.positions == [] && state.initialCapital == initialCapital
      ensures closedTrades == [] && equityHistory == [] && peakEquity == initialCapital
    {
      this.portfolioId := portfolioId;
      this.initialCapital := initialCapital;
      this.riskConfig := riskConfig.GetOr(DefaultRiskConfig);
      state := new PortfolioState(portfolioId, name, initialCapital, initialCapital);
      closedTrades := [];
      equityHistory := [];
      peakEquity := initialCapital;
    }

    /** can_open_position on the current state. */
    predicate CanOpenPosition(symbol: string, requiredValue: real)
      reads this, state
    {
      Admits(riskConfig, state.cash, state.positions, symbol, requiredValue)
    }

    /** open_position: refused, nothing changes; otherwise cash drops by size * price (no
        commission) and the position is stored under its symbol. Cash that was not negative
        stays so, and the count stays within max_open_positions. */
    method OpenPosition(symbol: string, side: string, size: real, price: real, stopLoss: Option<real>,
                        takeProfit: Option<real>, positionId: string, entryTime: int)
      returns (r: Option<PositionState>)
      requires Valid()
      modifies state
      ensures Valid()
      ensures !Admits(riskConfig, old(state.cash), old(state.positions), symbol, size * price) ==>
        r.None? && state.cash == old(state.cash) && state.positions == old(state.positions)
      ensures Admits(riskConfig, old(state.cash), old(state.positions), symbol, size * price) ==>
        r == Some(OpenedState(riskConfig, positionId, symbol, side, size, price, entryTime, stopLoss, takeProfit))
        && state.cash == old(state.cash) - size * price
        && state.positions == old(state.positions) + [r.value]
      ensures state.metrics == old(state.metrics)
      ensures old(state.cash) >= 0.0 ==> state.cash >= 0.0
      ensures |state.positions| > |old(state.positions)| ==> |state.positions| <= riskConfig.maxOpenPositions
    {
      var positionValue := size * price;
      if !CanOpenPosition(symbol, positionValue) {
        return None;
      }
      var sl := stopLoss;
      if sl.None? {
        var rule := GetStopLossRule(riskConfig, symbol);
        if rule.Some? {
          sl := Some(StopPrice(rule.value, price, side, None));
        }
      }
      var tp := takeProfit;
      if tp.None? {
        var rule := GetTakeProfitRule(riskConfig, symbol);
        if rule.Some? {
          tp := Some(TargetPrice(rule.value, price, side));
        }
      }
      var position := NewPositionState(positionId, symbol, side, size, price, price, entryTime, sl, tp, None, Open, 0.0, None);
      DistinctAppend(state.positions, position);
      state.cash := state.cash - positionValue;
      state.positions := state.positions + [position];
      return Some(position);
    }

    /** close_position: without a position nothing changes. Otherwise cash rises by
        close size * price, one trade is appended, and the position shrinks (a truthy
        partial size below the held size) or is removed (every other case). */
    method ClosePosition(symbol: string, price: real, reason: string, partialSize: Option<real>,
                         tradeId: string, exitTime: int)
      returns (r: Option<ClosedTrade>)
      requires Valid()
      requires CloseDefined(state.positions, symbol, partialSize)
      modifies this, state
      ensures Valid()
      ensures !old(state.HasPosition(symbol)) ==>
        r.None? && state.cash == old(state.cash) && state.positions == old(state.positions)
        && closedTrades == old(closedTrades)
      ensures old(state.HasPosition(symbol)) ==>
        var i := FindPosition(old(state.positions), symbol).value;
        var p := old(state.positions)[i];
        r == Some(CloseTrade(p, price, reason, partialSize, tradeId, exitTime))
        && state.cash == old(state.cash) + CloseValue(p, partialSize, price)
        && closedTrades == old(closedTrades) + [r.value]
        && state.positions == AfterClose(old(state.positions), i, partialSize)
      ensures equityHistory == old(equityHistory) && peakEquity == old(peakEquity)
      ensures state.metrics == old(state.metrics)
    {
      var found := FindPosition(state.positions, symbol);
      if found.None? {
        return None;
      }
      var i := found.value;
      var position := state.positions[i];
      var trade := CloseTrade(position, price, reason, partialSize, tradeId, exitTime);
      AfterCloseShape(state.positions, i, partialSize);
      state.cash := state.cash + CloseValue(position, partialSize, price);
      closedTrades := closedTrades + [trade];
      state.positions := AfterClose(state.positions, i, partialSize);
      return Some(trade);
    }

    /** _update_trailing_stops on one position, looking its rule up with the getter loop. */
    method UpdateTrailingStop(p: PositionState) returns (q: PositionState)
      ensures q == Retrail(riskConfig, p)
    {
      q := p;
      if p.trailingStop.None? {
        return;
      }
      if p.side == "long" {
        var rule := GetStopLossRule(riskConfig, p.symbol);
        if rule.Some? && rule.value.trailing {
          var level := p.highestPrice * (1.0 - rule.value.trailingOffset / 100.0);
          assert level == TrailBelow(p.highestPrice, rule.value.trailingOffset);
          if level > p.trailingStop.value {
            q := p.(trailingStop := Some(level));
          }
        }
      }
    }

    /** The body of update_prices' loop for one dict entry. */
    method RepriceOne(symbol: string, price: real)
      modifies state
      ensures state.positions == Reprice(riskConfig, old(state.positions), symbol, price)
      ensures state.cash == old(state.cash) && state.metrics == old(state.metrics)
    {
      var found := FindPosition(state.positions, symbol);
      if found.Some? {
        var position := UpdatePrice(state.positions[found.value], price, None, None);
        position := UpdateTrailingStop(position);
        state.positions := state.positions[found.value := position];
      }
    }

    /** The loop of update_prices: each quoted position takes the new price and re-trails,
        in dict order. */
    method RepricePositions(prices: seq<(string, real)>)
      modifies state
      ensures state.positions == RepriceAll(riskConfig, old(state.positions), prices)
      ensures state.cash == old(state.cash) && state.metrics == old(state.metrics)
    {
      var i := 0;
      while i < |prices|
        invariant 0 <= i <= |prices|
        invariant state.positions == RepriceAll(riskConfig, old(state.positions), prices[..i])
        invariant state.cash == old(state.cash) && state.metrics == old(state.metrics)
      {
        RepriceOne(prices[i].0, prices[i].1);
        assert prices[..i + 1][..i] == prices[..i];
        i := i + 1;
      }
      assert prices[..i] == prices;
    }

    /** update_prices: the positions are repriced, then one equity sample is recorded. */
    method UpdatePrices(prices: seq<(string, real)>, timestamp: int)
      requires Valid()
      modifies this, state
      ensures Valid()
      ensures state.positions == RepriceAll(riskConfig, old(state.positions), prices)
      ensures state.cash == old(state.cash) && closedTrades == old(closedTrades)
      ensures peakEquity == Max(old(peakEquity), state.TotalValue())
      ensures equityHistory == old(equityHistory) + [EquitySample(
        timestamp, state.TotalValue(), state.cash, state.TotalValue() - state.cash,
        peakEquity - state.TotalValue(), DrawdownPercentage(peakEquity - state.TotalValue(), peakEquity))]
      ensures |equityHistory| == |old(equityHistory)| + 1 && peakEquity >= old(peakEquity)
      ensures state.metrics == old(state.metrics)
    {
      RepricePositions(prices);
      RepriceAllRatchets(riskConfig, old(state.positions), prices);
      SymbolsDistinct(old(state.positions), state.positions);
      RecordEquity(timestamp);
    }

    /** check_exit_conditions: the loop over the positions in dict order. */
    method CheckExitConditions(prices: map<string, PriceQuote>) returns (toClose: seq<ExitOrder>)
      ensures toClose == ExitOrders(state.positions, prices)
    {
      toClose := [];
      var i := 0;
      while i < |state.positions|
        invariant 0 <= i <= |state.positions|
        invariant toClose == ExitOrders(state.positions[..i], prices)
      {
        var position := state.positions[i];
        assert state.positions[..i + 1][..i] == state.positions[..i];
        if position.symbol in prices {
          toClose := toClose + PositionExits(position, prices[position.symbol]);
        }
        i := i + 1;
      }
      assert state.positions[..i] == state.positions;
    }

    /** The BUY branch of process_signal: the size calculate_position_size gives for the
        signal's price and stop, then a "long" opened with it. */
    method BuyOnSignal(signal: Signal, positionId: string, now: int) returns (r: SignalOutcome, size: real)
      requires Valid() && signal.price != 0.0
      modifies state
      ensures Valid()
      ensures size == CalculatePositionSize(riskConfig, PortfolioValue(old(state.cash), old(state.positions)),
                                            signal.symbol, signal.price, signal.metadata.stopLoss)
      ensures r == BuyOutcome(riskConfig, old(state.cash), old(state.positions), signal, size, positionId, now)
      ensures state.positions == old(state.positions) + (if r.PositionOpened? then [r.position] else [])
      ensures state.cash == CashAfter(old(state.cash), r)
      ensures state.metrics == old(state.metrics)
    {
      size := CalculatePositionSize(riskConfig, state.TotalValue(), signal.symbol, signal.price, signal.metadata.stopLoss);
      r := OpenLong(signal, size, positionId, now);
    }

    /** The opening half of the BUY branch once the size is known: a "long" at the signal's
        price with the signal's stop and target, if the rules admit it. */
    method OpenLong(signal: Signal, size: real, positionId: string, now: int) returns (r: SignalOutcome)
      requires Valid()
      modifies state
      ensures Valid()
      ensures r == BuyOutcome(riskConfig, old(state.cash), old(state.positions), signal, size, positionId, now)
      ensures state.positions == old(state.positions) + (if r.PositionOpened? then [r.position] else [])
      ensures state.cash == old(state.cash) - (if r.PositionOpened? then size * signal.price else 0.0)
      ensures state.cash == CashAfter(old(state.cash), r)
      ensures state.metrics == old(state.metrics)
    {
      var newPosition := OpenPosition(signal.symbol, "long", size, signal.price, signal.metadata.stopLoss,
                                      signal.metadata.takeProfit, positionId, now);
      r := if newPosition.Some? then PositionOpened(newPosition.value) else NoAction;
    }

    /** The SELL and CLOSE_LONG branch of process_signal: a full close at the signal's
        price for "signal", if the symbol has a position. */
    method CloseOnSignal(signal: Signal, tradeId: string, now: int) returns (r: SignalOutcome)
      requires Valid()
      requires CloseDefined(state.positions, signal.symbol, None)
      modifies this, state
      ensures Valid()
      ensures r.PositionClosed? || r.NoAction?
      ensures r.PositionClosed? <==> signal.symbol in Symbols(old(state.positions))
      ensures r.PositionClosed? ==>
        r.trade.reason == "signal" && r.trade.exitPrice == signal.price
        && closedTrades == old(closedTrades) + [r.trade] && signal.symbol !in Symbols(state.positions)
      ensures r.NoAction? ==>
        state.positions == old(state.positions) && state.cash == old(state.cash) && closedTrades == old(closedTrades)
      ensures r.PositionClosed? ==>
        var i := FindPosition(old(state.positions), signal.symbol).value;
        var p := old(state.positions)[i];
        r.trade == CloseTrade(p, signal.price, "signal", None, tradeId, now)
        && state.cash == old(state.cash) + CloseValue(p, None, signal.price)
        && state.positions == AfterClose(old(state.positions), i, None)
      ensures state.cash == CashAfter(old(state.cash), r)
      ensures equityHistory == old(equityHistory) && peakEquity == old(peakEquity)
      ensures state.metrics == old(state.metrics)
    {
      ghost var before := state.positions;
      var closed := ClosePosition(signal.symbol, signal.price, "signal", None, tradeId, now);
      if closed.Some? {
        var i := FindPosition(before, signal.symbol).value;
        AfterCloseShape(before, i, None);
        CashAfterClose(old(state.cash), before[i], signal.price, "signal", None, tradeId, now);
      }
      r := if closed.Some? then PositionClosed(closed.value) else NoAction;
    }

    /** process_signal: BUY opens a "long" at the signal's price, sized by the rules with
        the signal's stop; SELL and CLOSE_LONG fully close at that price for "signal";
        every other type, CLOSE_SHORT included, does nothing. */
    method ProcessSignal(signal: Signal, positionId: string, tradeId: string, now: int)
      returns (r: SignalOutcome, size: real)
      requires Valid()
      requires signal.signalType == Buy ==> signal.price != 0.0
      requires signal.signalType == Sell || signal.signalType == CloseLong ==>
        CloseDefined(state.positions, signal.symbol, None)
      modifies this, state
      ensures Valid()
      ensures signal.signalType == Buy ==>
        size == CalculatePositionSize(riskConfig, PortfolioValue(old(state.cash), old(state.positions)),
                                      signal.symbol, signal.price, signal.metadata.stopLoss)
      ensures signal.signalType == Buy ==>
        r == BuyOutcome(riskConfig, old(state.cash), old(state.positions), signal, size, positionId, now)
      ensures signal.signalType == Buy ==>
        state.positions == old(state.positions) + (if r.PositionOpened? then [r.position] else [])
      ensures signal.signalType == Buy ==> closedTrades == old(closedTrades)
      ensures state.cash == CashAfter(old(state.cash), r)
      ensures signal.signalType == Sell || signal.signalType == CloseLong ==>
        (r.PositionClosed? <==> signal.symbol in Symbols(old(state.positions)))
        && (r.PositionClosed? ==>
              var i := FindPosition(old(state.positions), signal.symbol).value;
              var p := old(state.positions)[i];
              r.trade == CloseTrade(p, signal.price, "signal", None, tradeId, now)
              && state.cash == old(state.cash) + CloseValue(p, None, signal.price)
              && state.positions == AfterClose(old(state.positions), i, None)
              && closedTrades == old(closedTrades) + [r.trade] && signal.symbol !in Symbols(state.positions))
        && (r.NoAction? ==>
              state.positions == old(state.positions) && state.cash == old(state.cash)
              && closedTrades == old(closedTrades))
      ensures signal.signalType !in {Buy, Sell, CloseLong} ==>
        r.NoAction? && state.positions == old(state.positions) && state.cash == old(state.cash)
        && closedTrades == old(closedTrades)
      ensures equityHistory == old(equityHistory) && peakEquity == old(peakEquity)
    {
      if signal.signalType == Buy {
        r, size := BuyOnSignal(signal, positionId, now);
      } else if signal.signalType == Sell || signal.signalType == CloseLong {
        r := CloseOnSignal(signal, tradeId, now);
        size := 0.0;
      } else {
        r := NoAction;
        size := 0.0;
      }
    }

    /** _record_equity: the peak never falls, and the sample's drawdown from it is never
        negative. */
    method RecordEquity(timestamp: int)
      requires Valid()
      modifies this
      ensures Valid()
      ensures peakEquity == Max(old(peakEquity), state.TotalValue())
      ensures equityHistory == old(equityHistory) + [EquitySample(
        timestamp, state.TotalValue(), state.cash, state.TotalValue() - state.cash,
        peakEquity - state.TotalValue(), DrawdownPercentage(peakEquity - state.TotalValue(), peakEquity))]
      ensures closedTrades == old(closedTrades)
    {
      var equity := state.TotalValue();
      var peak := Max(peakEquity, equity);
      var drawdown := peak - equity;
      var sample := EquitySample(timestamp, equity, state.cash, equity - state.cash, drawdown,
                                 DrawdownPercentage(drawdown, peak));
      HistoryAppend(equityHistory, peakEquity, sample, peak);
      peakEquity := peak;
      equityHistory := equityHistory + [sample];
    }

    /** get_metrics: the state's metrics, then the trade statistics and the largest
        drawdowns. The state keeps the final metrics, since both are the same object. */
    method GetMetrics() returns (m: PortfolioMetrics)
      requires Valid()
      modifies state
      ensures Valid()
      ensures m == WithDrawdowns(WithTradeStats(old(state.Snapshot()), closedTrades), equityHistory)
      ensures state.metrics == Some(m)
      ensures m.totalValue == state.TotalValue() && m.cash == state.cash
      ensures m.openPositions == |state.GetOpenPositions()|
      ensures |closedTrades| > 0 ==>
        m.totalTrades == |closedTrades| && m.winningTrades + m.losingTrades == |closedTrades|
        && 0.0 <= m.winRate <= 100.0 && m.realizedPnl == Sum(TradePnls(closedTrades))
      ensures |closedTrades| > 0 && |WinPnls(closedTrades)| > 0 ==> m.profitFactor == TradesProfitFactor(closedTrades)
      ensures |equityHistory| > 0 ==> m.maxDrawdown >= 0.0 && m.maxDrawdownPercentage >= 0.0
      ensures state.cash == old(state.cash) && state.positions == old(state.positions)
    {
      var base := state.CalculateMetrics();
      m := WithDrawdowns(WithTradeStats(base, closedTrades), equityHistory);
      if |equityHistory| > 0 {
        assert equityHistory[0].drawdown <= m.maxDrawdown;
      }
      state.metrics := Some(m);
    }
  }
}
