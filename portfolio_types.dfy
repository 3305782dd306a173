// Records of the portfolio ledger: one open position, the aggregate metrics and the
// portfolio state itself (iaf-service/portfolio/types.py).
//
// The position dict is keyed by symbol; it is kept as a sequence of positions in
// insertion order whose symbols are distinct. Positions are values: an update replaces
// the position in the sequence.

module PortfolioTypes {
  import opened Common
  import opened BacktestTypes

  datatype PositionStatus = Open | Closed | Liquidated | Pending

  datatype PositionState = PositionState(
    id: string,
    symbol: string,
    side: string,
    size: real,
    entryPrice: real,
    currentPrice: real,
    entryTime: int,
    stopLoss: Option<real>,
    takeProfit: Option<real>,
    trailingStop: Option<real>,
    status: PositionStatus,
    highestPrice: real,
    lowestPrice: real)

  /** The dataclass constructor with __post_init__: a highest price of 0.0 and a lowest
      price of +infinity (None here) are sentinels that become the entry price. */
  function NewPositionState(id: string, symbol: string, side: string, size: real, entryPrice: real,
                            currentPrice: real, entryTime: int, stopLoss: Option<real>,
                            takeProfit: Option<real>, trailingStop: Option<real>, status: PositionStatus,
                            highest: real, lowest: Option<real>): (p: PositionState)
    ensures p.id == id && p.symbol == symbol && p.side == side && p.size == size
    ensures p.entryPrice == entryPrice && p.currentPrice == currentPrice && p.entryTime == entryTime
    ensures p.stopLoss == stopLoss && p.takeProfit == takeProfit && p.trailingStop == trailingStop
    ensures p.status == status
    ensures highest == 0.0 ==> p.highestPrice == entryPrice
    ensures highest != 0.0 ==> p.highestPrice == highest
    ensures lowest.None? ==> p.lowestPrice == entryPrice
    ensures lowest.Some? ==> p.lowestPrice == lowest.value
  {
    PositionState(id, symbol, side, size, entryPrice, currentPrice, entryTime, stopLoss, takeProfit,
                  trailingStop, status, if highest == 0.0 then entryPrice else highest,
                  if lowest.None? then entryPrice else lowest.value)
  }

  /** A position built with the default price tracking starts with its range at the entry. */
  lemma DefaultTrackingAtEntry(id: string, symbol: string, side: string, size: real, entryPrice: real,
                               entryTime: int, stopLoss: Option<real>, takeProfit: Option<real>)
    ensures var p := NewPositionState(id, symbol, side, size, entryPrice, entryPrice, entryTime, stopLoss,
                                      takeProfit, None, Open, 0.0, None);
      p.lowestPrice == p.entryPrice == p.highestPrice == p.currentPrice
  {
  }

  function Value(p: PositionState): real
  {
    p.size * p.currentPrice
  }

  function EntryValue(p: PositionState): real
  {
    p.size * p.entryPrice
  }

  /** Unrealized pnl: only the exact side "long" gains on a rise, any other side on a fall. */
  function Pnl(p: PositionState): (r: real)
    ensures p.side == "long" ==> r == Value(p) - EntryValue(p)
    ensures p.side != "long" ==> r == EntryValue(p) - Value(p)
  {
    if p.side == "long" then (p.currentPrice - p.entryPrice) * p.size
    else (p.entryPrice - p.currentPrice) * p.size
  }

  /** Zero pnl at the entry price, and opposite pnl for the two sides. */
  lemma PnlSidesOpposite(p: PositionState)
    ensures p.currentPrice == p.entryPrice ==> Pnl(p) == 0.0
    ensures Pnl(p.(side := "long")) == -Pnl(p.(side := "short"))
  {
  }

  /** Unrealized pnl in percent of the entry price; 0 for a zero entry price. */
  function PnlPercentage(p: PositionState): (r: real)
    ensures p.entryPrice == 0.0 ==> r == 0.0
  {
    if p.entryPrice == 0.0 then 0.0
    else if p.side == "long" then (p.currentPrice - p.entryPrice) / p.entryPrice * 100.0
    else (p.entryPrice - p.currentPrice) / p.entryPrice * 100.0
  }

  /** The percentage is the pnl in percent of the entry value. */
  lemma PnlPercentageOfEntryValue(p: PositionState)
    requires p.entryPrice != 0.0
    ensures PnlPercentage(p) * EntryValue(p) == Pnl(p) * 100.0
  {
    var d := if p.side == "long" then p.currentPrice - p.entryPrice else p.entryPrice - p.currentPrice;
    assert PnlPercentage(p) == d / p.entryPrice * 100.0;
    assert Pnl(p) == d * p.size;
    calc {
      PnlPercentage(p) * EntryValue(p);
      d / p.entryPrice * 100.0 * (p.size * p.entryPrice);
      { assert d / p.entryPrice * p.entryPrice == d; }
      d * 100.0 * p.size;
    }
  }

  /** update_price: the price always moves; a truthy high or low only widens the range. */
  function UpdatePrice(p: PositionState, price: real, high: Option<real>, low: Option<real>): (q: PositionState)
    ensures q == p.(currentPrice := price, highestPrice := q.highestPrice, lowestPrice := q.lowestPrice)
    ensures q.highestPrice >= p.highestPrice && q.lowestPrice <= p.lowestPrice
    ensures Truthy(high) ==> q.highestPrice >= high.value && (q.highestPrice == p.highestPrice || q.highestPrice == high.value)
    ensures !Truthy(high) ==> q.highestPrice == p.highestPrice
    ensures Truthy(low) ==> q.lowestPrice <= low.value && (q.lowestPrice == p.lowestPrice || q.lowestPrice == low.value)
    ensures !Truthy(low) ==> q.lowestPrice == p.lowestPrice
  {
    p.(currentPrice := price,
       highestPrice := if Truthy(high) then Max(p.highestPrice, high.value) else p.highestPrice,
       lowestPrice := if Truthy(low) then Min(p.lowestPrice, low.value) else p.lowestPrice)
  }

  /** Feeding the same quote twice is the same as feeding it once. */
  lemma UpdatePriceIdempotent(p: PositionState, price: real, high: Option<real>, low: Option<real>)
    ensures UpdatePrice(UpdatePrice(p, price, high, low), price, high, low) == UpdatePrice(p, price, high, low)
  {
  }

  datatype PortfolioMetrics = PortfolioMetrics(
    totalValue: real,
    cash: real,
    positionValue: real,
    unrealizedPnl: real,
    realizedPnl: real,
    totalPnl: real,
    totalReturnPercentage: real,
    dailyPnl: real,
    weeklyPnl: real,
    monthlyPnl: real,
    maxDrawdown: real,
    maxDrawdownPercentage: real,
    winRate: real,
    profitFactor: ProfitFactor,
    sharpeRatio: real,
    openPositions: int,
    totalTrades: int,
    winningTrades: int,
    losingTrades: int)

  /** The dataclass defaults: every figure zero. */
  const ZeroMetrics := PortfolioMetrics(0.0, 0.0, 0.0, 0.0, 0.0, 0.0, 0.0, 0.0, 0.0, 0.0, 0.0, 0.0, 0.0,
                                        Finite(0.0), 0.0, 0, 0, 0, 0)

  /** The dict keys: the symbols of the positions, in insertion order. */
  function Symbols(ps: seq<PositionState>): (r: seq<string>)
    ensures |r| == |ps| && forall i :: 0 <= i < |ps| ==> r[i] == ps[i].symbol
  {
    if |ps| == 0 then [] else Symbols(ps[..|ps| - 1]) + [ps[|ps| - 1].symbol]
  }

  ghost predicate DistinctSymbols(ps: seq<PositionState>)
  {
    forall i, j :: 0 <= i < j < |ps| ==> ps[i].symbol != ps[j].symbol
  }

  /** The index of the position stored under `symbol`. */
  function FindPosition(ps: seq<PositionState>, symbol: string): (r: Option<nat>)
    ensures r.None? <==> symbol !in Symbols(ps)
    ensures r.Some? ==> r.value < |ps| && ps[r.value].symbol == symbol
    ensures r.Some? ==> forall k :: 0 <= k < r.value ==> ps[k].symbol != symbol
  {
    if |ps| == 0 then None
    else if ps[0].symbol == symbol then Some(0)
    else
      match FindPosition(ps[1..], symbol)
      case None =>
        assert Symbols(ps) == [ps[0].symbol] + Symbols(ps[1..]);
        None
      case Some(k) => Some(k + 1)
  }

  lemma {:induction false} FindPositionUnique(ps: seq<PositionState>, symbol: string, i: nat)
    requires DistinctSymbols(ps) && i < |ps| && ps[i].symbol == symbol
    ensures FindPosition(ps, symbol) == Some(i)
  {
    var r := FindPosition(ps, symbol);
    assert symbol in Symbols(ps) by {
      assert Symbols(ps)[i] == symbol;
    }
    assert r.Some?;
  }

  /** The values of the positions, in order. */
  function Values(ps: seq<PositionState>): (r: seq<real>)
    ensures |r| == |ps| && forall i :: 0 <= i < |ps| ==> r[i] == Value(ps[i])
  {
    if |ps| == 0 then [] else Values(ps[..|ps| - 1]) + [Value(ps[|ps| - 1])]
  }

  /** The unrealized pnls of the positions, in order. */
  function Pnls(ps: seq<PositionState>): (r: seq<real>)
    ensures |r| == |ps| && forall i :: 0 <= i < |ps| ==> r[i] == Pnl(ps[i])
  {
    if |ps| == 0 then [] else Pnls(ps[..|ps| - 1]) + [Pnl(ps[|ps| - 1])]
  }

  /** get_open_positions: the positions whose status is OPEN, in order. */
  function OpenPositions(ps: seq<PositionState>): (r: seq<PositionState>)
    ensures |r| <= |ps|
    ensures forall k :: 0 <= k < |r| ==> r[k].status == Open && r[k] in ps
    ensures forall k :: 0 <= k < |ps| && ps[k].status == Open ==> ps[k] in r
  {
    if |ps| == 0 then []
    else
      var init := OpenPositions(ps[..|ps| - 1]);
      assert forall k :: 0 <= k < |ps| - 1 ==> ps[k] == ps[..|ps| - 1][k];
      if ps[|ps| - 1].status == Open then init + [ps[|ps| - 1]] else init
  }

  predicate NonNegativeHoldings(ps: seq<PositionState>)
  {
    forall k :: 0 <= k < |ps| ==> ps[k].size >= 0.0 && ps[k].currentPrice >= 0.0
  }

  /** Positions that all have a non-negative size and price have a non-negative value. */
  lemma {:induction false} ValuesNonNegative(ps: seq<PositionState>)
    requires NonNegativeHoldings(ps)
    ensures Sum(Values(ps)) >= 0.0
  {
    forall k | 0 <= k < |ps|
      ensures Values(ps)[k] >= 0.0
    {
      assert ps[k].size * ps[k].currentPrice >= 0.0;
    }
    SumNonNegative(Values(ps));
  }

  /** Cash plus the value of every position. */
  function PortfolioValue(cash: real, ps: seq<PositionState>): (r: real)
    ensures NonNegativeHoldings(ps) ==> r >= cash
  {
    assert NonNegativeHoldings(ps) ==> Sum(Values(ps)) >= 0.0 by {
      if NonNegativeHoldings(ps) {
        ValuesNonNegative(ps);
      }
    }
    cash + Sum(Values(ps))
  }

  /** total_return_percentage: the total pnl in percent of the initial capital, 0 without capital. */
  function ReturnPercentage(totalPnl: real, initialCapital: real): (r: real)
    ensures initialCapital == 0.0 ==> r == 0.0
    ensures initialCapital != 0.0 ==> r * initialCapital == totalPnl * 100.0
  {
    if initialCapital == 0.0 then 0.0 else totalPnl / initialCapital * 100.0
  }

  /** The portfolio: cash and the positions stored under their symbols. */
  class PortfolioState {
    const id: string
    const name: string
    const initialCapital: real
    var cash: real
    var positions: seq<PositionState>
    var metrics: Option<PortfolioMetrics>

    ghost predicate Valid()
      reads this
    {
      DistinctSymbols(positions)
    }

    constructor (id: string, name: string, initialCapital: real, cash: real)
      ensures Valid()
      ensures this.id == id && this.name == name && this.initialCapital == initialCapital
      ensures this.cash == cash && positions == [] && metrics == None
    {
      this.id := id;
      this.name := name;
      this.initialCapital := initialCapital;
      this.cash := cash;
      positions := [];
      metrics := None;
    }

    function PositionValue(): real
      reads this
    {
      Sum(Values(positions))
    }

    function TotalValue(): real
      reads this
    {
      PortfolioValue(cash, positions)
    }

    function TotalPnl(): real
      reads this
    {
      TotalValue() - initialCapital
    }

    function TotalReturnPercentage(): (r: real)
      reads this
      ensures initialCapital == 0.0 ==> r == 0.0
      ensures initialCapital != 0.0 ==> r * initialCapital == TotalPnl() * 100.0
    {
      ReturnPercentage(TotalPnl(), initialCapital)
    }

    predicate HasPosition(symbol: string)
      reads this
    {
      symbol in Symbols(positions)
    }

    function GetPosition(symbol: string): (r: Option<PositionState>)
      reads this
      ensures r.Some? <==> HasPosition(symbol)
      ensures r.Some? ==> r.value in positions && r.value.symbol == symbol
    {
      match FindPosition(positions, symbol)
      case None => None
      case Some(i) => Some(positions[i])
    }

    function GetOpenPositions(): (r: seq<PositionState>)
      reads this
      ensures forall p :: p in r <==> p in positions && p.status == Open
    {
      OpenPositions(positions)
    }

    /** The metrics calculate_metrics computes from the current cash and positions; every
        other field keeps its zero. */
    function Snapshot(): (m: PortfolioMetrics)
      reads this
      ensures m.totalValue == m.cash + m.positionValue && m.totalPnl == m.totalValue - initialCapital
      ensures m.cash == cash && m.unrealizedPnl == Sum(Pnls(positions)) && m.openPositions == |GetOpenPositions()|
    {
      ZeroMetrics.(totalValue := TotalValue(), cash := cash, positionValue := PositionValue(),
                   unrealizedPnl := Sum(Pnls(positions)), openPositions := |GetOpenPositions()|,
                   totalPnl := TotalPnl(), totalReturnPercentage := TotalReturnPercentage())
    }

    /** calculate_metrics: fresh metrics from the current positions, also stored in `metrics`. */
    method CalculateMetrics() returns (m: PortfolioMetrics)
      modifies this
      ensures m == old(Snapshot())
      ensures metrics == Some(m)
      ensures cash == old(cash) && positions == old(positions)
    {
      m := ZeroMetrics;
      m := m.(totalValue := TotalValue());
      m := m.(cash := cash);
      m := m.(positionValue := Sum(Values(positions)));
      m := m.(unrealizedPnl := Sum(Pnls(positions)));
      m := m.(openPositions := |GetOpenPositions()|);
      m := m.(totalPnl := TotalPnl());
      m := m.(totalReturnPercentage := TotalReturnPercentage());
      metrics := Some(m);
    }
  }
}
