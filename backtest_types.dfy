// Records of the backtester: open positions, closed trades, equity points,
// summary metrics and the run configuration (iaf-service/backtesting/types.py).
// Times are integer milliseconds since the epoch.

module BacktestTypes {
  import opened Common

  datatype TradeType = Entry | Exit | StopLoss | TakeProfit | Liquidation

  datatype PositionSide = Long | Short

  /** An open position; `id` is the n of the engine's "pos_<n>" key. */
  datatype BacktestPosition = BacktestPosition(
    id: nat,
    symbol: string,
    side: PositionSide,
    entryPrice: real,
    size: real,
    entryTime: int,
    stopLoss: Option<real>,
    takeProfit: Option<real>,
    trailingStop: Option<real>,
    highestPrice: real,
    lowestPrice: real)

  /** Constructing a position: both price extremes start at the entry price. */
  function NewPosition(id: nat, symbol: string, side: PositionSide, entryPrice: real, size: real,
                       entryTime: int, stopLoss: Option<real>, takeProfit: Option<real>,
                       trailingStop: Option<real>): (p: BacktestPosition)
    ensures p.highestPrice == entryPrice && p.lowestPrice == entryPrice
    ensures p.id == id && p.symbol == symbol && p.side == side && p.entryPrice == entryPrice
    ensures p.size == size && p.entryTime == entryTime
    ensures p.stopLoss == stopLoss && p.takeProfit == takeProfit && p.trailingStop == trailingStop
  {
    BacktestPosition(id, symbol, side, entryPrice, size, entryTime, stopLoss, takeProfit,
                     trailingStop, entryPrice, entryPrice)
  }

  /** Widens the tracked extremes by one candle's high and low; nothing else changes. */
  function UpdatePriceTracking(p: BacktestPosition, high: real, low: real): (q: BacktestPosition)
    ensures q.highestPrice >= high && q.highestPrice >= p.highestPrice
    ensures q.highestPrice == high || q.highestPrice == p.highestPrice
    ensures q.lowestPrice <= low && q.lowestPrice <= p.lowestPrice
    ensures q.lowestPrice == low || q.lowestPrice == p.lowestPrice
    ensures q == p.(highestPrice := q.highestPrice, lowestPrice := q.lowestPrice)
  {
    p.(highestPrice := Max(p.highestPrice, high), lowestPrice := Min(p.lowestPrice, low))
  }

  /** Profit of the position if it were closed at `price`. */
  function CalculatePnl(p: BacktestPosition, price: real): (r: real)
    ensures price == p.entryPrice ==> r == 0.0
    ensures p.size > 0.0 ==>
      (r > 0.0 <==> (if p.side == Long then price > p.entryPrice else price < p.entryPrice))
  {
    match p.side
    case Long => (price - p.entryPrice) * p.size
    case Short => (p.entryPrice - price) * p.size
  }

  lemma PnlSidesOpposite(p: BacktestPosition, price: real)
    ensures CalculatePnl(p.(side := Long), price) == -CalculatePnl(p.(side := Short), price)
  {
  }

  /** Side-signed price move as a percentage of the entry price. */
  function CalculatePnlPercentage(p: BacktestPosition, price: real): (r: real)
    requires p.entryPrice != 0.0
    ensures p.size != 0.0 ==> r == CalculatePnl(p, price) / (p.entryPrice * p.size) * 100.0
  {
    var move := if p.side == Long then price - p.entryPrice else p.entryPrice - price;
    assert p.size != 0.0 ==> CalculatePnl(p, price) / (p.entryPrice * p.size) == move / p.entryPrice;
    move / p.entryPrice * 100.0
  }

  datatype BacktestTrade = BacktestTrade(
    id: nat,
    positionId: nat,
    symbol: string,
    side: PositionSide,
    entryPrice: real,
    exitPrice: real,
    size: real,
    entryTime: int,
    exitTime: int,
    pnl: real,
    pnlPercentage: real,
    tradeType: TradeType,
    commission: real,
    holdingTimeSeconds: int)

  /** Constructing a trade: the holding time is the whole seconds between entry and exit,
      truncated toward zero as Python's int() does. */
  function MakeTrade(id: nat, positionId: nat, symbol: string, side: PositionSide,
                     entryPrice: real, exitPrice: real, size: real, entryTime: int, exitTime: int,
                     pnl: real, pnlPercentage: real, tradeType: TradeType, commission: real): (t: BacktestTrade)
    ensures exitTime >= entryTime ==>
      t.holdingTimeSeconds * 1000 <= exitTime - entryTime < t.holdingTimeSeconds * 1000 + 1000
    ensures exitTime < entryTime ==>
      t.holdingTimeSeconds * 1000 - 1000 < exitTime - entryTime <= t.holdingTimeSeconds * 1000
    ensures t.id == id && t.positionId == positionId && t.symbol == symbol && t.side == side
    ensures t.entryPrice == entryPrice && t.exitPrice == exitPrice && t.size == size
    ensures t.entryTime == entryTime && t.exitTime == exitTime && t.pnl == pnl
    ensures t.pnlPercentage == pnlPercentage && t.tradeType == tradeType && t.commission == commission
  {
    BacktestTrade(id, positionId, symbol, side, entryPrice, exitPrice, size, entryTime, exitTime,
                  pnl, pnlPercentage, tradeType, commission, TruncDiv(exitTime - entryTime, 1000))
  }

  /** A trade is a winner only with strictly positive pnl; breaking even counts as losing. */
  predicate IsWinner(t: BacktestTrade)
  {
    t.pnl > 0.0
  }

  datatype EquityPoint = EquityPoint(
    timestamp: int,
    equity: real,
    cash: real,
    positionValue: real,
    drawdown: real,
    drawdownPercentage: real)

  /** A profit factor is a non-negative ratio or +infinity. */
  datatype ProfitFactor = Finite(value: real) | Infinite

  function CalculateWinRate(totalTrades: int, winningTrades: int): (r: real)
    ensures totalTrades == 0 ==> r == 0.0
    ensures totalTrades != 0 ==> r * (totalTrades as real) == (winningTrades as real) * 100.0
    ensures 0 <= winningTrades <= totalTrades ==> 0.0 <= r <= 100.0
  {
    if totalTrades == 0 then 0.0
    else (winningTrades as real) / (totalTrades as real) * 100.0
  }

  function CalculateProfitFactor(grossProfit: real, grossLoss: real): (r: ProfitFactor)
    ensures r.Infinite? <==> grossLoss == 0.0 && grossProfit > 0.0
    ensures grossLoss == 0.0 && grossProfit <= 0.0 ==> r == Finite(0.0)
    ensures grossLoss != 0.0 ==> r.Finite? && r.value >= 0.0 && r.value * Abs(grossLoss) == Abs(grossProfit)
  {
    if grossLoss == 0.0 then
      (if grossProfit > 0.0 then Infinite else Finite(0.0))
    else
      Finite(Abs(grossProfit / grossLoss))
  }

  /** The configuration fields the ledger uses (the remaining ones only reach I/O code). */
  datatype BacktestConfig = BacktestConfig(
    startDate: int,
    endDate: int,
    initialCapital: real,
    commission: real,
    slippage: real,
    maxPositions: int,
    trailingStop: bool,
    trailingStopPercent: real)

  /** The dataclass defaults. */
  function DefaultConfig(startDate: int, endDate: int): (c: BacktestConfig)
    ensures c.startDate == startDate && c.endDate == endDate
    ensures c.initialCapital == 10000.0 && c.commission == 0.001 && c.slippage == 0.0005
    ensures c.maxPositions == 5 && !c.trailingStop && c.trailingStopPercent == 2.0
  {
    BacktestConfig(startDate, endDate, 10000.0, 0.001, 0.0005, 5, false, 2.0)
  }

  datatype ConfigError = StartNotBeforeEnd | CapitalNotPositive | CommissionNegative | MaxPositionsBelowOne
  {
    /** Position of the check in validate(). */
    function Rank(): nat
    {
      match this
      case StartNotBeforeEnd => 0
      case CapitalNotPositive => 1
      case CommissionNegative => 2
      case MaxPositionsBelowOne => 3
    }

    function Message(): string
    {
      match this
      case StartNotBeforeEnd => "start_date must be before end_date"
      case CapitalNotPositive => "initial_capital must be positive"
      case CommissionNegative => "commission cannot be negative"
      case MaxPositionsBelowOne => "max_positions must be at least 1"
    }
  }

  predicate ConfigOk(c: BacktestConfig)
  {
    c.startDate < c.endDate && c.initialCapital > 0.0 && c.commission >= 0.0 && c.maxPositions >= 1
  }

  /** The list of configuration errors, in the order the checks run. */
  function Validate(c: BacktestConfig): (errs: seq<ConfigError>)
    ensures StartNotBeforeEnd in errs <==> c.startDate >= c.endDate
    ensures CapitalNotPositive in errs <==> c.initialCapital <= 0.0
    ensures CommissionNegative in errs <==> c.commission < 0.0
    ensures MaxPositionsBelowOne in errs <==> c.maxPositions < 1
    ensures errs == [] <==> ConfigOk(c)
    ensures forall i, j :: 0 <= i < j < |errs| ==> errs[i].Rank() < errs[j].Rank()
  {
    (if c.startDate >= c.endDate then [StartNotBeforeEnd] else [])
    + (if c.initialCapital <= 0.0 then [CapitalNotPositive] else [])
    + (if c.commission < 0.0 then [CommissionNegative] else [])
    + (if c.maxPositions < 1 then [MaxPositionsBelowOne] else [])
  }
}
