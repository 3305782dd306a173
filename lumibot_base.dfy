// The signal-emitting strategies of lumibot-service/strategies/base.py: RSI reversal,
// MACD histogram crossover and the grid set-up. Each `on_trading_iteration` takes the
// bars `get_historical_prices` returns and the position quantity `get_position`
// reports, and hands back the orders it would submit and the signal it emits.
//
// The Bollinger-band strategy of the same file rests on `np.std` and is not modelled.

module LumibotBase {
  import opened Common
  import opened KeyedTable
  import opened LumibotCommon

  /** `last_signal` and `entry_price`, the fields the RSI and MACD iterations update. */
  datatype BaseFields = BaseFields(lastSignal: Option<string>, entryPrice: Option<real>)

  // ---------------------------------------------------------------- RSI strategy

  function RsiBuyData(symbol: string, price: real, size: real, rsi: real): seq<Field>
  {
    [Field("symbol", Text(symbol)), Field("price", Num(price)), Field("size", Num(size)),
     Field("rsi", Num(rsi)), Field("reason", Text("RSI oversold"))]
  }

  function RsiSellData(symbol: string, price: real, size: real, rsi: real, pnl: real): seq<Field>
  {
    [Field("symbol", Text(symbol)), Field("price", Num(price)), Field("size", Num(size)),
     Field("rsi", Num(rsi)), Field("reason", Text("RSI overbought")), Field("pnl_percent", Num(pnl))]
  }

  /** The RSI decision on the latest close: buy `position_size` when oversold and flat,
      sell the whole position when overbought and holding. */
  function RsiTrade(symbol: string, positionSize: real, oversold: real, overbought: real,
                    s: BaseFields, price: real, rsi: real, quantity: Option<real>): Outcome<BaseFields>
  {
    match Decide(rsi < oversold, rsi > overbought, HasPosition(quantity))
    case Enter =>
      Outcome(BaseFields(Some("BUY"), Some(price)), [Market(Buy, positionSize)],
              Some(Emitted("BUY", "RSIStrategy", RsiBuyData(symbol, price, positionSize, rsi))))
    case Exit =>
      Outcome(BaseFields(Some("SELL"), None), [Market(Sell, Held(quantity))],
              Some(Emitted("SELL", "RSIStrategy", RsiSellData(symbol, price, Held(quantity), rsi, PnlPercent(s.entryPrice, price)))))
    case Stay => Outcome(s, [], None)
  }

  /** Both directions of the RSI rule: a BUY exactly when oversold and flat, recording the
      entry price; a SELL of the held quantity exactly when overbought and holding,
      clearing it; nothing else changes otherwise. */
  lemma RsiTradeCases(symbol: string, positionSize: real, oversold: real, overbought: real,
                      s: BaseFields, price: real, rsi: real, quantity: Option<real>)
    ensures var o := RsiTrade(symbol, positionSize, oversold, overbought, s, price, rsi, quantity);
      var has := HasPosition(quantity);
      (o.orders == [Market(Buy, positionSize)] <==> rsi < oversold && !has)
      && (o.orders == [Market(Buy, positionSize)] ==> o.state.entryPrice == Some(price) && o.signal.value.signalType == "BUY")
      && (o.orders == [Market(Sell, Held(quantity))] <==> rsi > overbought && has)
      && (o.orders == [Market(Sell, Held(quantity))] ==> o.state.entryPrice == None && o.signal.value.signalType == "SELL")
      && (o.orders == [] <==> o.signal.None?)
      && (o.orders == [] ==> o.state == s)
  {
    DecideCases(rsi < oversold, rsi > overbought, HasPosition(quantity));
  }

  class RsiStrategy {
    const symbol: string
    const rsiPeriod: nat
    const oversold: real
    const overbought: real
    const positionSize: real

    var lastSignal: Option<string>
    var entryPrice: Option<real>
    var signals: seq<Emitted>

    constructor (symbol: string, rsiPeriod: nat, oversold: real, overbought: real, positionSize: real)
      ensures this.symbol == symbol && this.rsiPeriod == rsiPeriod && this.oversold == oversold
      ensures this.overbought == overbought && this.positionSize == positionSize
      ensures lastSignal == None && entryPrice == None && signals == []
    {
      this.symbol := symbol;
      this.rsiPeriod := rsiPeriod;
      this.oversold := oversold;
      this.overbought := overbought;
      this.positionSize := positionSize;
      lastSignal := None;
      entryPrice := None;
      signals := [];
    }

    /** `on_trading_iteration`: nothing with fewer than rsi_period + 1 bars, otherwise
        `RsiTrade` on the RSI of the last rsi_period changes. */
    method OnTradingIteration(bars: History, quantity: Option<real>) returns (orders: seq<Order>, signal: Option<Emitted>)
      requires rsiPeriod >= 1
      modifies this
      ensures bars.NoHistory? || |bars.bars| < rsiPeriod + 1 ==>
        orders == [] && signal.None? && lastSignal == old(lastSignal) && entryPrice == old(entryPrice)
        && signals == old(signals)
      ensures bars.History? && |bars.bars| >= rsiPeriod + 1 ==>
        Outcome(BaseFields(lastSignal, entryPrice), orders, signal)
        == RsiTrade(symbol, positionSize, oversold, overbought, BaseFields(old(lastSignal), old(entryPrice)),
             LastClose(bars.bars), LastPeriodRsi(Closes(bars.bars), rsiPeriod), quantity)
        && signals == Appended(old(signals), signal)
    {
      orders, signal := [], None;
      if bars.NoHistory? || |bars.bars| < rsiPeriod + 1 {
        return;
      }
      var rsi := LastPeriodRsi(Closes(bars.bars), rsiPeriod);
      var o := RsiTrade(symbol, positionSize, oversold, overbought, BaseFields(lastSignal, entryPrice),
                        LastClose(bars.bars), rsi, quantity);
      lastSignal, entryPrice := o.state.lastSignal, o.state.entryPrice;
      orders, signal := o.orders, o.signal;
      signals := Appended(signals, signal);
    }
  }

  // ---------------------------------------------------------------- EMA series

  /** The `_ema` series at index i: the first datum, then one EMA step per datum. */
  function EmaAt(data: seq<real>, m: real, i: nat): real
    requires i < |data|
  {
    if i == 0 then data[0] else EmaStep(EmaAt(data, m, i - 1), data[i], m)
  }

  /** The array `_ema` returns, as a sequence. */
  function EmaSeries(data: seq<real>, period: nat): (r: seq<real>)
    ensures |r| == |data|
  {
    seq(|data|, i requires 0 <= i < |data| => EmaAt(data, Multiplier(period), i))
  }

  /** `_ema`: seeds with the first datum (not a simple average) and folds the rest in
      place; the array it returns has the input's length. */
  method Ema(data: array<real>, period: nat) returns (ema: array<real>)
    requires data.Length > 0
    ensures fresh(ema)
    ensures ema[..] == EmaSeries(data[..], period)
  {
    var multiplier := 2.0 / (period as real + 1.0);
    ema := new real[data.Length];
    ema[0] := data[0];
    var i := 1;
    while i < data.Length
      invariant 1 <= i <= data.Length
      invariant forall k :: 0 <= k < i ==> ema[k] == EmaAt(data[..], multiplier, k)
    {
      ema[i] := (data[i] - ema[i - 1]) * multiplier + ema[i - 1];
      i := i + 1;
    }
  }

  /** With a multiplier in [0, 1] every EMA value stays inside any bounds of the data. */
  lemma {:induction false} EmaAtWithin(data: seq<real>, m: real, i: nat, lo: real, hi: real)
    requires i < |data| && 0.0 <= m <= 1.0
    requires forall k :: 0 <= k < |data| ==> lo <= data[k] <= hi
    ensures lo <= EmaAt(data, m, i) <= hi
  {
    if i > 0 {
      EmaAtWithin(data, m, i - 1, lo, hi);
      EmaStepWithin(EmaAt(data, m, i - 1), data[i], m, lo, hi);
    }
  }

  /** Every value of `_ema` lies between the smallest and the largest datum bound. */
  lemma EmaSeriesWithin(data: seq<real>, period: nat, lo: real, hi: real)
    requires period >= 1
    requires forall k :: 0 <= k < |data| ==> lo <= data[k] <= hi
    ensures forall i :: 0 <= i < |data| ==> lo <= EmaSeries(data, period)[i] <= hi
  {
    forall i | 0 <= i < |data|
      ensures lo <= EmaSeries(data, period)[i] <= hi
    {
      EmaAtWithin(data, Multiplier(period), i, lo, hi);
    }
  }

  // ---------------------------------------------------------------- MACD

  /** The elementwise difference of two numpy arrays of one length. */
  function Minus(a: seq<real>, b: seq<real>): (r: seq<real>)
    requires |a| == |b|
    ensures |r| == |a|
  {
    seq(|a|, i requires 0 <= i < |a| => a[i] - b[i])
  }

  datatype Macd = Macd(line: seq<real>, signal: seq<real>, histogram: seq<real>)

  /** `_calculate_macd`: the fast EMA minus the slow EMA, the EMA of that line, and the
      line minus its signal, all three as long as the prices. */
  function MacdOf(prices: seq<real>, fast: nat, slow: nat, signal: nat): (r: Macd)
    ensures |r.line| == |r.signal| == |r.histogram| == |prices|
  {
    var line := Minus(EmaSeries(prices, fast), EmaSeries(prices, slow));
    var sig := EmaSeries(line, signal);
    Macd(line, sig, Minus(line, sig))
  }

  method Subtract(a: array<real>, b: array<real>) returns (c: array<real>)
    requires a.Length == b.Length
    ensures fresh(c)
    ensures c[..] == Minus(a[..], b[..])
  {
    c := new real[a.Length];
    var i := 0;
    while i < a.Length
      invariant 0 <= i <= a.Length
      invariant forall k :: 0 <= k < i ==> c[k] == a[k] - b[k]
    {
      c[i] := a[i] - b[i];
      i := i + 1;
    }
  }

  /** `_calculate_macd` over the closes, with numpy's elementwise operations as loops. */
  method CalculateMacd(prices: array<real>, fast: nat, slow: nat, signal: nat)
    returns (line: array<real>, signalLine: array<real>, histogram: array<real>)
    requires prices.Length > 0
    ensures Macd(line[..], signalLine[..], histogram[..]) == MacdOf(prices[..], fast, slow, signal)
  {
    var emaFast := Ema(prices, fast);
    var emaSlow := Ema(prices, slow);
    line := Subtract(emaFast, emaSlow);
    signalLine := Ema(line, signal);
    histogram := Subtract(line, signalLine);
  }

  /** On a flat market both EMAs equal the price, so the MACD line, its signal and the
      histogram are zero throughout. */
  lemma MacdFlat(prices: seq<real>, c: real, fast: nat, slow: nat, signal: nat)
    requires fast >= 1 && slow >= 1 && signal >= 1
    requires forall k :: 0 <= k < |prices| ==> prices[k] == c
    ensures var m := MacdOf(prices, fast, slow, signal);
      forall i :: 0 <= i < |prices| ==> m.line[i] == 0.0 && m.histogram[i] == 0.0
  {
    var m := MacdOf(prices, fast, slow, signal);
    EmaSeriesWithin(prices, fast, c, c);
    EmaSeriesWithin(prices, slow, c, c);
    assert forall k :: 0 <= k < |m.line| ==> 0.0 <= m.line[k] <= 0.0;
    EmaSeriesWithin(m.line, signal, 0.0, 0.0);
  }

  function MacdData(symbol: string, price: real, m: Macd, reason: string): seq<Field>
    requires |m.line| == |m.signal| == |m.histogram| > 0
  {
    [Field("symbol", Text(symbol)), Field("price", Num(price)), Field("macd", Num(m.line[|m.line| - 1])),
     Field("signal", Num(m.signal[|m.signal| - 1])), Field("histogram", Num(m.histogram[|m.histogram| - 1])),
     Field("reason", Text(reason))]
  }

  /** The histogram crosses above zero on the latest bar. */
  predicate BullishCross(h: seq<real>)
    requires |h| >= 2
  {
    h[|h| - 1] > 0.0 && h[|h| - 2] <= 0.0
  }

  /** The histogram crosses below zero on the latest bar. */
  predicate BearishCross(h: seq<real>)
    requires |h| >= 2
  {
    h[|h| - 1] < 0.0 && h[|h| - 2] >= 0.0
  }

  /** The MACD decision: a bullish histogram cross buys when flat, a bearish one sells
      the position when holding. */
  function MacdTrade(symbol: string, positionSize: real, s: BaseFields, price: real, m: Macd,
                     quantity: Option<real>): Outcome<BaseFields>
    requires |m.line| == |m.signal| == |m.histogram| >= 2
  {
    match Decide(BullishCross(m.histogram), BearishCross(m.histogram), HasPosition(quantity))
    case Enter =>
      Outcome(BaseFields(Some("BUY"), Some(price)), [Market(Buy, positionSize)],
              Some(Emitted("BUY", "MACDStrategy", MacdData(symbol, price, m, "MACD bullish crossover"))))
    case Exit =>
      Outcome(BaseFields(Some("SELL"), None), [Market(Sell, Held(quantity))],
              Some(Emitted("SELL", "MACDStrategy",
                MacdData(symbol, price, m, "MACD bearish crossover") + [Field("pnl_percent", Num(PnlPercent(s.entryPrice, price)))])))
    case Stay => Outcome(s, [], None)
  }

  /** A buy exactly on a bullish histogram cross while flat, a sell of the held quantity
      exactly on a bearish one while holding; a bullish cross while holding does nothing. */
  lemma MacdTradeCases(symbol: string, positionSize: real, s: BaseFields, price: real, m: Macd, quantity: Option<real>)
    requires |m.line| == |m.signal| == |m.histogram| >= 2
    ensures var o := MacdTrade(symbol, positionSize, s, price, m, quantity);
      var has := HasPosition(quantity);
      (o.orders == [Market(Buy, positionSize)] <==> BullishCross(m.histogram) && !has)
      && (o.orders == [Market(Sell, Held(quantity))] <==> BearishCross(m.histogram) && has)
      && (o.orders == [] <==> o.signal.None?)
      && (o.orders == [] ==> o.state == s)
  {
    DecideCases(BullishCross(m.histogram), BearishCross(m.histogram), HasPosition(quantity));
  }

  /** On a flat market the MACD strategy never trades. */
  lemma MacdFlatNeverTrades(symbol: string, positionSize: real, s: BaseFields, prices: seq<real>, c: real,
                            fast: nat, slow: nat, signal: nat, quantity: Option<real>)
    requires fast >= 1 && slow >= 1 && signal >= 1 && |prices| >= 2
    requires forall k :: 0 <= k < |prices| ==> prices[k] == c
    ensures MacdTrade(symbol, positionSize, s, c, MacdOf(prices, fast, slow, signal), quantity).orders == []
  {
    MacdFlat(prices, c, fast, slow, signal);
  }

  /** The IndexError `_ema` raises on `data[0]` of an empty array. */
  const EmptyEmaError: string := "IndexError: index 0 is out of bounds for axis 0 with size 0"

  /** On a single price both EMAs are that price, so the MACD line, its signal and the
      histogram are all zero: `histogram[-1] > 0` and `histogram[-1] < 0` both fail
      before `histogram[-2]` is read. */
  lemma MacdOneBar(prices: seq<real>, fast: nat, slow: nat, signal: nat)
    requires |prices| == 1
    ensures MacdOf(prices, fast, slow, signal).histogram == [0.0]
  {
    var m := MacdOf(prices, fast, slow, signal);
    assert m.line[0] == 0.0;
    assert m.histogram[0] == 0.0;
  }

  class MacdStrategy {
    const symbol: string
    const fastPeriod: nat
    const slowPeriod: nat
    const signalPeriod: nat
    const positionSize: real

    var lastSignal: Option<string>
    var entryPrice: Option<real>
    var signals: seq<Emitted>

    constructor (symbol: string, fastPeriod: nat, slowPeriod: nat, signalPeriod: nat, positionSize: real)
      ensures this.symbol == symbol && this.fastPeriod == fastPeriod && this.slowPeriod == slowPeriod
      ensures this.signalPeriod == signalPeriod && this.positionSize == positionSize
      ensures lastSignal == None && entryPrice == None && signals == []
    {
      this.symbol := symbol;
      this.fastPeriod := fastPeriod;
      this.slowPeriod := slowPeriod;
      this.signalPeriod := signalPeriod;
      this.positionSize := positionSize;
      lastSignal := None;
      entryPrice := None;
      signals := [];
    }

    /** `on_trading_iteration`: nothing with fewer than slow_period + signal_period
        bars; past that guard, an empty bar list makes `_ema` raise on `data[0]`, a single
        bar gives a zero histogram that neither cross test reads past, and otherwise
        `MacdTrade` runs on the MACD of the closes. */
    method OnTradingIteration(bars: History, quantity: Option<real>)
      returns (orders: seq<Order>, signal: Option<Emitted>, error: Option<string>)
      modifies this
      ensures bars.History? && |bars.bars| == 0 && slowPeriod + signalPeriod == 0 <==> error.Some?
      ensures error.Some? ==> error.value == EmptyEmaError
      ensures bars.NoHistory? || |bars.bars| < slowPeriod + signalPeriod || |bars.bars| <= 1 ==>
        orders == [] && signal.None? && lastSignal == old(lastSignal) && entryPrice == old(entryPrice)
        && signals == old(signals)
      ensures bars.History? && |bars.bars| >= slowPeriod + signalPeriod && |bars.bars| >= 2 ==>
        Outcome(BaseFields(lastSignal, entryPrice), orders, signal)
        == MacdTrade(symbol, positionSize, BaseFields(old(lastSignal), old(entryPrice)), LastClose(bars.bars),
             MacdOf(Closes(bars.bars), fastPeriod, slowPeriod, signalPeriod), quantity)
        && signals == Appended(old(signals), signal)
    {
      orders, signal, error := [], None, None;
      if bars.NoHistory? || |bars.bars| < slowPeriod + signalPeriod {
        return;
      }
      if |bars.bars| == 0 {
        error := Some(EmptyEmaError);
        return;
      }
      orders, signal := TradeOnCloses(Closes(bars.bars), quantity);
    }

    /** The iteration past its guard on a non-empty list of closes: the MACD is computed,
        a single close leaves everything as it was, and otherwise `MacdTrade` runs. */
    method TradeOnCloses(closes: seq<real>, quantity: Option<real>) returns (orders: seq<Order>, signal: Option<Emitted>)
      requires |closes| >= 1
      modifies this
      ensures |closes| == 1 ==>
        orders == [] && signal.None? && lastSignal == old(lastSignal) && entryPrice == old(entryPrice)
        && signals == old(signals)
      ensures |closes| >= 2 ==>
        Outcome(BaseFields(lastSignal, entryPrice), orders, signal)
        == MacdTrade(symbol, positionSize, BaseFields(old(lastSignal), old(entryPrice)), closes[|closes| - 1],
             MacdOf(closes, fastPeriod, slowPeriod, signalPeriod), quantity)
        && signals == Appended(old(signals), signal)
    {
      orders, signal := [], None;
      var prices := new real[|closes|](i requires 0 <= i < |closes| => closes[i]);
      assert prices[..] == closes;
      var line, signalLine, histogram := CalculateMacd(prices, fastPeriod, slowPeriod, signalPeriod);
      if histogram.Length == 1 {
        MacdOneBar(closes, fastPeriod, slowPeriod, signalPeriod);
        return;
      }
      var o := MacdTrade(symbol, positionSize, BaseFields(lastSignal, entryPrice), closes[|closes| - 1],
                         Macd(line[..], signalLine[..], histogram[..]), quantity);
      lastSignal, entryPrice := o.state.lastSignal, o.state.entryPrice;
      orders, signal := o.orders, o.signal;
      signals := Appended(signals, signal);
    }
  }

  // ---------------------------------------------------------------- grid set-up

  /** The i-th buy level below the price, `price * (1 - spacing * (i + 1))`. */
  function BuyLevel(price: real, spacing: real, i: nat): real
  {
    price * (1.0 - spacing * (i + 1) as real)
  }

  /** The i-th sell level above the price, `price * (1 + spacing * (i + 1))`. */
  function SellLevel(price: real, spacing: real, i: nat): real
  {
    price * (1.0 + spacing * (i + 1) as real)
  }

  /** Levels further from the price are further away by `price * spacing` per step. */
  lemma LevelDistance(price: real, spacing: real, i: nat, j: nat)
    ensures BuyLevel(price, spacing, i) - BuyLevel(price, spacing, j) == price * spacing * (j - i) as real
    ensures SellLevel(price, spacing, j) - SellLevel(price, spacing, i) == price * spacing * (j - i) as real
  {
    assert BuyLevel(price, spacing, i) == price - price * spacing * (i + 1) as real;
    assert BuyLevel(price, spacing, j) == price - price * spacing * (j + 1) as real;
    assert SellLevel(price, spacing, i) == price + price * spacing * (i + 1) as real;
    assert SellLevel(price, spacing, j) == price + price * spacing * (j + 1) as real;
  }

  /** The grid's lower bound, `price * (1 - spacing * levels / 2)`. */
  function LowerPrice(price: real, spacing: real, levels: nat): real
  {
    price * (1.0 - spacing * levels as real / 2.0)
  }

  /** The grid's upper bound, `price * (1 + spacing * levels / 2)`. */
  function UpperPrice(price: real, spacing: real, levels: nat): real
  {
    price * (1.0 + spacing * levels as real / 2.0)
  }

  /** The `grid_orders` dict `_setup_grid` fills. Order ids come from the broker and are
      not part of the model. */
  datatype GridOrders = GridOrders(center: real, lower: real, upper: real, buyLevels: seq<real>, sellLevels: seq<real>)

  /** `grid_levels // 2` buy levels, nearest first. */
  function BuyLevels(price: real, spacing: real, n: nat): (r: seq<real>)
    ensures |r| == n
  {
    seq(n, i requires 0 <= i < n => BuyLevel(price, spacing, i))
  }

  /** `grid_levels // 2` sell levels, nearest first. */
  function SellLevels(price: real, spacing: real, n: nat): (r: seq<real>)
    ensures |r| == n
  {
    seq(n, i requires 0 <= i < n => SellLevel(price, spacing, i))
  }

  /** With a positive price and spacing the buy levels fall strictly below the price and
      strictly decrease, and the sell levels rise strictly above it and strictly
      increase. */
  lemma GridLevelsOrdered(price: real, spacing: real, n: nat)
    requires price > 0.0 && spacing > 0.0
    ensures forall i, j :: 0 <= i < j < n ==> BuyLevels(price, spacing, n)[i] > BuyLevels(price, spacing, n)[j]
    ensures forall i, j :: 0 <= i < j < n ==> SellLevels(price, spacing, n)[i] < SellLevels(price, spacing, n)[j]
    ensures forall i :: 0 <= i < n ==> BuyLevels(price, spacing, n)[i] < price < SellLevels(price, spacing, n)[i]
  {
    var ps := price * spacing;
    assert ps > 0.0;
    forall i, j | 0 <= i < j < n
      ensures BuyLevel(price, spacing, i) > BuyLevel(price, spacing, j)
      ensures SellLevel(price, spacing, i) < SellLevel(price, spacing, j)
    {
      LevelDistance(price, spacing, i, j);
      MulPositive(ps, (j - i) as real);
    }
    forall i | 0 <= i < n
      ensures BuyLevel(price, spacing, i) < price < SellLevel(price, spacing, i)
    {
      assert BuyLevel(price, spacing, i) == price - ps * (i + 1) as real;
      assert SellLevel(price, spacing, i) == price + ps * (i + 1) as real;
      MulPositive(ps, (i + 1) as real);
    }
  }

  lemma MulPositive(a: real, b: real)
    requires a > 0.0 && b > 0.0
    ensures a * b > 0.0
  {
  }

  /** Every level `_setup_grid` places lies inside the reported bounds
      [lower_price, upper_price]: the furthest level is `levels // 2` steps out, and the
      bounds are `levels / 2` steps out. */
  lemma GridLevelsWithinBounds(price: real, spacing: real, levels: nat)
    requires price > 0.0 && spacing >= 0.0
    ensures forall i :: 0 <= i < levels / 2 ==>
      LowerPrice(price, spacing, levels) <= BuyLevels(price, spacing, levels / 2)[i]
      && SellLevels(price, spacing, levels / 2)[i] <= UpperPrice(price, spacing, levels)
  {
    var ps := price * spacing;
    MulNonNegative(price, spacing);
    assert LowerPrice(price, spacing, levels) == price - ps * (levels as real / 2.0);
    assert UpperPrice(price, spacing, levels) == price + ps * (levels as real / 2.0);
    forall i | 0 <= i < levels / 2
      ensures LowerPrice(price, spacing, levels) <= BuyLevel(price, spacing, i)
      ensures SellLevel(price, spacing, i) <= UpperPrice(price, spacing, levels)
    {
      assert BuyLevel(price, spacing, i) == price - ps * (i + 1) as real;
      assert SellLevel(price, spacing, i) == price + ps * (i + 1) as real;
      assert (i + 1) as real <= levels as real / 2.0;
      MulNonNegative(ps, levels as real / 2.0 - (i + 1) as real);
    }
  }

  /** The grid `_setup_grid` records around `price`. */
  function Grid(price: real, spacing: real, levels: nat): GridOrders
  {
    GridOrders(price, LowerPrice(price, spacing, levels), UpperPrice(price, spacing, levels),
               BuyLevels(price, spacing, levels / 2), SellLevels(price, spacing, levels / 2))
  }

  function GridInitializedData(symbol: string, g: GridOrders, levels: nat): seq<Field>
  {
    [Field("symbol", Text(symbol)), Field("center_price", Num(g.center)), Field("lower_price", Num(g.lower)),
     Field("upper_price", Num(g.upper)), Field("levels", Count(levels))]
  }

  /** The limit orders `_setup_grid` submits: every buy level, then every sell level. */
  function LimitOrders(side: Side, size: real, levels: seq<real>): (r: seq<Order>)
    ensures |r| == |levels|
    ensures forall i :: 0 <= i < |r| ==> r[i] == Limit(side, size, levels[i])
  {
    seq(|levels|, i requires 0 <= i < |levels| => Limit(side, size, levels[i]))
  }

  /** The orders `_setup_grid` submits for a grid: a limit buy at each buy level, then a
      limit sell at each sell level. */
  function GridLimitOrders(g: GridOrders, size: real): seq<Order>
  {
    LimitOrders(Buy, size, g.buyLevels) + LimitOrders(Sell, size, g.sellLevels)
  }

  lemma LimitOrdersAppend(side: Side, size: real, levels: seq<real>, p: real)
    ensures LimitOrders(side, size, levels + [p]) == LimitOrders(side, size, levels) + [Limit(side, size, p)]
  {
    assert LimitOrders(side, size, levels + [p])[..|levels|] == LimitOrders(side, size, levels);
  }

  /** The two loops of `_setup_grid`: n buy levels with a limit buy at each, then n
      sell levels with a limit sell at each. */
  method LayGrid(price: real, spacing: real, n: nat, size: real) returns (buys: seq<real>, sells: seq<real>, orders: seq<Order>)
    ensures buys == BuyLevels(price, spacing, n) && sells == SellLevels(price, spacing, n)
    ensures orders == LimitOrders(Buy, size, buys) + LimitOrders(Sell, size, sells)
  {
    buys, sells, orders := [], [], [];
    var i := 0;
    while i < n
      invariant 0 <= i <= n
      invariant buys == BuyLevels(price, spacing, n)[..i]
      invariant orders == LimitOrders(Buy, size, buys)
    {
      var p := price * (1.0 - spacing * (i + 1) as real);
      assert p == BuyLevel(price, spacing, i);
      LimitOrdersAppend(Buy, size, buys, p);
      assert BuyLevels(price, spacing, n)[..i + 1] == buys + [p];
      buys := buys + [p];
      orders := orders + [Limit(Buy, size, p)];
      i := i + 1;
    }
    var buyOrders := orders;
    i := 0;
    while i < n
      invariant 0 <= i <= n
      invariant sells == SellLevels(price, spacing, n)[..i]
      invariant orders == buyOrders + LimitOrders(Sell, size, sells)
    {
      var p := price * (1.0 + spacing * (i + 1) as real);
      assert p == SellLevel(price, spacing, i);
      LimitOrdersAppend(Sell, size, sells, p);
      assert SellLevels(price, spacing, n)[..i + 1] == sells + [p];
      sells := sells + [p];
      orders := orders + [Limit(Sell, size, p)];
      i := i + 1;
    }
    assert buys == BuyLevels(price, spacing, n)[..n];
    assert sells == SellLevels(price, spacing, n)[..n];
  }

  class GridStrategy {
    const symbol: string
    const gridLevels: nat
    const gridSpacing: real
    const positionSize: real

    var gridOrders: Option<GridOrders>
    var initialized: bool
    var signals: seq<Emitted>

    constructor (symbol: string, gridLevels: nat, gridSpacing: real, positionSize: real)
      ensures this.symbol == symbol && this.gridLevels == gridLevels && this.gridSpacing == gridSpacing
      ensures this.positionSize == positionSize
      ensures gridOrders == None && !initialized && signals == []
    {
      this.symbol := symbol;
      this.gridLevels := gridLevels;
      this.gridSpacing := gridSpacing;
      this.positionSize := positionSize;
      gridOrders := None;
      initialized := false;
      signals := [];
    }

    /** `_setup_grid`: the grid bounds `price * (1 -/+ spacing * levels / 2)`, the
        buy levels and then the sell levels as limit orders, and GRID_INITIALIZED. */
    method SetupGrid(price: real) returns (orders: seq<Order>)
      modifies this
      ensures gridOrders == Some(Grid(price, gridSpacing, gridLevels))
      ensures orders == GridLimitOrders(gridOrders.value, positionSize)
      ensures signals == old(signals) + [Emitted("GRID_INITIALIZED", "GridStrategy", GridInitializedData(symbol, gridOrders.value, gridLevels))]
      ensures initialized == old(initialized)
    {
      var lower := price * (1.0 - gridSpacing * gridLevels as real / 2.0);
      var upper := price * (1.0 + gridSpacing * gridLevels as real / 2.0);
      assert lower == LowerPrice(price, gridSpacing, gridLevels) && upper == UpperPrice(price, gridSpacing, gridLevels);
      var buys, sells;
      buys, sells, orders := LayGrid(price, gridSpacing, gridLevels / 2, positionSize);
      var g := GridOrders(price, lower, upper, buys, sells);
      gridOrders := Some(g);
      signals := signals + [Emitted("GRID_INITIALIZED", "GridStrategy", GridInitializedData(symbol, g, gridLevels))];
    }

    /** `on_trading_iteration`: the first iteration with bars lays the grid out around
        the latest close; every later one changes nothing. */
    method OnTradingIteration(bars: History) returns (orders: seq<Order>)
      requires bars.History? ==> |bars.bars| > 0
      modifies this
      ensures bars.NoHistory? || old(initialized) ==>
        orders == [] && gridOrders == old(gridOrders) && initialized == old(initialized) && signals == old(signals)
      ensures bars.History? && !old(initialized) ==>
        var g := Grid(LastClose(bars.bars), gridSpacing, gridLevels);
        initialized && gridOrders == Some(g) && orders == GridLimitOrders(g, positionSize)
        && signals == old(signals) + [Emitted("GRID_INITIALIZED", "GridStrategy", GridInitializedData(symbol, g, gridLevels))]
    {
      orders := [];
      if bars.NoHistory? {
        return;
      }
      var price := bars.bars[|bars.bars| - 1].close;
      if !initialized {
        orders := SetupGrid(price);
        initialized := true;
      }
    }
  }

  // ---------------------------------------------------------------- registry

  datatype BaseKind = RsiReversal | MacdTrend | BollingerReversion | GridTrading

  /** STRATEGIES. */
  function BaseStrategies(): Table<BaseKind>
  {
    [Entry("rsi_reversal", RsiReversal), Entry("macd_trend", MacdTrend),
     Entry("bollinger_reversion", BollingerReversion), Entry("grid_trading", GridTrading)]
  }

  /** `get_strategy` is None exactly for names outside the four keys `list_strategies`
      returns. */
  lemma BaseRegistry(name: string)
    ensures Keys(BaseStrategies()) == ["rsi_reversal", "macd_trend", "bollinger_reversion", "grid_trading"]
    ensures Get(BaseStrategies(), name).None? <==>
      name !in ["rsi_reversal", "macd_trend", "bollinger_reversion", "grid_trading"]
    ensures Get(BaseStrategies(), "macd_trend") == Some(MacdTrend)
  {
    assert Keys(BaseStrategies()) == ["rsi_reversal", "macd_trend", "bollinger_reversion", "grid_trading"];
  }
}
