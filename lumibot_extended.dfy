// The Lumibot strategies of lumibot-service/strategies/extended_strategies.py:
// Supertrend, DCA with safety orders, EMA crossover and range breakout. Each
// `on_trading_iteration` takes the bars `get_historical_prices` would return and the
// quantity `get_position` would report (None for no position), updates the
// strategy's fields, and returns the orders it would submit and the signal it emits.

module LumibotExtended {
  import opened Common
  import opened KeyedTable
  import opened LumibotCommon

  // ---------------------------------------------------------------- Supertrend

  /** `(high + low) / 2`. */
  function Hl2(b: Bar): real
  {
    (b.high + b.low) / 2.0
  }

  datatype Supertrend = Supertrend(value: real, direction: int)

  /** The band test of `_calculate_supertrend` for a given ATR: above the upper band the
      trend turns bullish and the line is the lower band; below the lower band it turns
      bearish and the line is the upper band; in between the stored direction is kept
      and so is the stored value, or the midpoint when that value is falsy. */
  function SupertrendOf(close: real, mid: real, atr: real, multiplier: real, direction: int, stored: Option<real>): Supertrend
  {
    var upper := mid + multiplier * atr;
    var lower := mid - multiplier * atr;
    if close > upper then Supertrend(lower, 1)
    else if close < lower then Supertrend(upper, -1)
    else Supertrend(if Truthy(stored) then stored.value else mid, direction)
  }

  /** A change of direction happens only on a close outside the bands, and the new line
      then sits on the far side of the close: below it after a bullish flip, above it
      after a bearish one. The direction stays +1 or -1. */
  lemma SupertrendFlips(close: real, mid: real, atr: real, multiplier: real, direction: int, stored: Option<real>)
    requires multiplier * atr >= 0.0
    ensures var t := SupertrendOf(close, mid, atr, multiplier, direction, stored);
      (direction == 1 || direction == -1 ==> t.direction == 1 || t.direction == -1)
      && (t.direction == 1 && direction != 1 ==> close > mid + multiplier * atr && t.value == mid - multiplier * atr < close)
      && (t.direction == -1 && direction != -1 ==> close < mid - multiplier * atr && t.value == mid + multiplier * atr > close)
      && (t.direction != direction ==> t.direction == 1 || t.direction == -1)
  {
  }

  /** Inside the bands nothing changes except a falsy stored line, which becomes the
      midpoint. */
  lemma SupertrendHoldsInside(close: real, mid: real, atr: real, multiplier: real, direction: int, stored: Option<real>)
    requires mid - multiplier * atr <= close <= mid + multiplier * atr
    ensures SupertrendOf(close, mid, atr, multiplier, direction, stored).direction == direction
    ensures Truthy(stored) ==> SupertrendOf(close, mid, atr, multiplier, direction, stored).value == stored.value
    ensures !Truthy(stored) ==> SupertrendOf(close, mid, atr, multiplier, direction, stored).value == mid
  {
  }

  function SupertrendBuyData(symbol: string, price: real, size: real, line: real): seq<Field>
  {
    [Field("symbol", Text(symbol)), Field("price", Num(price)), Field("size", Num(size)),
     Field("supertrend", Num(line)), Field("direction", Text("bullish")),
     Field("reason", Text("Supertrend bullish crossover"))]
  }

  function SupertrendSellData(symbol: string, price: real, size: real, line: real, pnl: real): seq<Field>
  {
    [Field("symbol", Text(symbol)), Field("price", Num(price)), Field("size", Num(size)),
     Field("supertrend", Num(line)), Field("direction", Text("bearish")),
     Field("reason", Text("Supertrend bearish crossover")), Field("pnl_percent", Num(pnl))]
  }

  /** The fields of `SupertrendStrategy` that an iteration updates. */
  datatype SupertrendFields = SupertrendFields(lastSignal: Option<string>, entryPrice: Option<real>,
                                               value: Option<real>, direction: int)

  /** The trading half of a Supertrend iteration, given the new reading `t` and the
      current close: the reading is stored, a flip from bearish to bullish buys when
      flat, and a flip from bullish to bearish sells the whole position. */
  function SupertrendTrade(symbol: string, size: real, s: SupertrendFields, t: Supertrend, price: real,
                           quantity: Option<real>): Outcome<SupertrendFields>
  {
    var moved := s.(value := Some(t.value), direction := t.direction);
    if t.direction == 1 && s.direction == -1 && !HasPosition(quantity) then
      Outcome(moved.(lastSignal := Some("BUY"), entryPrice := Some(price)), [Market(Buy, size)],
              Some(Emitted("BUY", "SupertrendStrategy", SupertrendBuyData(symbol, price, size, t.value))))
    else if t.direction == -1 && s.direction == 1 && HasPosition(quantity) then
      Outcome(moved.(lastSignal := Some("SELL"), entryPrice := None), [Market(Sell, quantity.value)],
              Some(Emitted("SELL", "SupertrendStrategy",
                SupertrendSellData(symbol, price, quantity.value, t.value, PnlPercent(s.entryPrice, price)))))
    else Outcome(moved, [], None)
  }

  /** What a Supertrend trade promises: an order goes out exactly when a signal is
      emitted; a BUY needs no position and a flip of the stored trend from bearish to
      bullish, a SELL a position and the opposite flip, and it sells all of it; the
      reading is stored either way. */
  lemma SupertrendTradeCases(symbol: string, size: real, s: SupertrendFields, t: Supertrend, price: real, quantity: Option<real>)
    ensures var o := SupertrendTrade(symbol, size, s, t, price, quantity);
      (o.orders == [] <==> o.signal.None?)
      && o.state.value == Some(t.value) && o.state.direction == t.direction
      && (o.signal.Some? && o.signal.value.signalType == "BUY" <==> !HasPosition(quantity) && s.direction == -1 && t.direction == 1)
      && (o.signal.Some? && o.signal.value.signalType == "BUY" ==> o.orders == [Market(Buy, size)] && o.state.entryPrice == Some(price))
      && (o.signal.Some? && o.signal.value.signalType == "SELL" <==> HasPosition(quantity) && s.direction == 1 && t.direction == -1)
      && (o.signal.Some? && o.signal.value.signalType == "SELL" ==> o.orders == [Market(Sell, quantity.value)] && o.state.entryPrice == None)
  {
  }

  /** A Supertrend BUY happens only on a close above the upper band and a SELL only on a
      close below the lower band, and neither signal follows itself: after a BUY the
      stored trend is bullish and the next BUY needs a bearish one; after a SELL it is
      bearish and the next SELL needs a bullish one. */
  lemma SupertrendTradesOnBands(symbol: string, size: real, s: SupertrendFields, close: real, mid: real, atr: real,
                                multiplier: real, quantity: Option<real>, t': Supertrend, price': real, quantity': Option<real>)
    requires multiplier * atr >= 0.0
    ensures var t := SupertrendOf(close, mid, atr, multiplier, s.direction, s.value);
      var o := SupertrendTrade(symbol, size, s, t, close, quantity);
      var o' := SupertrendTrade(symbol, size, o.state, t', price', quantity');
      (o.signal.Some? && o.signal.value.signalType == "BUY" ==> close > mid + multiplier * atr)
      && (o.signal.Some? && o.signal.value.signalType == "SELL" ==> close < mid - multiplier * atr)
      && (o.signal.Some? && o.signal.value.signalType == "BUY" ==> o'.signal.None? || o'.signal.value.signalType != "BUY")
      && (o.signal.Some? && o.signal.value.signalType == "SELL" ==> o'.signal.None? || o'.signal.value.signalType != "SELL")
  {
    var t := SupertrendOf(close, mid, atr, multiplier, s.direction, s.value);
    SupertrendFlips(close, mid, atr, multiplier, s.direction, s.value);
    SupertrendTradeCases(symbol, size, s, t, close, quantity);
    var o := SupertrendTrade(symbol, size, s, t, close, quantity);
    SupertrendTradeCases(symbol, size, o.state, t', price', quantity');
  }

  class SupertrendStrategy {
    const symbol: string
    const atrPeriod: nat
    const atrMultiplier: real
    const positionSize: real

    var lastSignal: Option<string>
    var entryPrice: Option<real>
    var supertrendValue: Option<real>
    var supertrendDirection: int
    var signals: seq<Emitted>

    ghost predicate Valid()
      reads this
    {
      atrPeriod >= 1 && (supertrendDirection == 1 || supertrendDirection == -1)
    }

    constructor (symbol: string, atrPeriod: nat, atrMultiplier: real, positionSize: real)
      requires atrPeriod >= 1
      ensures Valid()
      ensures this.symbol == symbol && this.atrPeriod == atrPeriod
      ensures this.atrMultiplier == atrMultiplier && this.positionSize == positionSize
      ensures lastSignal == None && entryPrice == None && supertrendValue == None
      ensures supertrendDirection == 1 && signals == []
    {
      this.symbol := symbol;
      this.atrPeriod := atrPeriod;
      this.atrMultiplier := atrMultiplier;
      this.positionSize := positionSize;
      lastSignal := None;
      entryPrice := None;
      supertrendValue := None;
      supertrendDirection := 1;
      signals := [];
    }

    /** `_calculate_supertrend` on the stored direction and value. */
    method CalculateSupertrend(bars: seq<Bar>) returns (line: real, direction: int)
      requires Valid() && |bars| > 0
      ensures Supertrend(line, direction) ==
        SupertrendOf(LastClose(bars), Hl2(bars[|bars| - 1]), AtrOf(bars, atrPeriod), atrMultiplier, supertrendDirection, supertrendValue)
    {
      var atr := CalculateAtr(bars, atrPeriod);
      var t := SupertrendOf(bars[|bars| - 1].close, Hl2(bars[|bars| - 1]), atr, atrMultiplier, supertrendDirection, supertrendValue);
      line, direction := t.value, t.direction;
    }

    /** `on_trading_iteration`: fewer than atr_period + 20 bars do nothing; otherwise
        the Supertrend reading of the bars is traded on as `SupertrendTrade` says. */
    method OnTradingIteration(bars: History, quantity: Option<real>) returns (orders: seq<Order>, signal: Option<Emitted>)
      requires Valid()
      modifies this
      ensures Valid()
      ensures signals == Appended(old(signals), signal)
      ensures bars.NoHistory? || |bars.bars| < atrPeriod + 20 ==>
        orders == [] && signal.None? && lastSignal == old(lastSignal) && entryPrice == old(entryPrice)
        && supertrendValue == old(supertrendValue) && supertrendDirection == old(supertrendDirection)
      ensures bars.History? && |bars.bars| >= atrPeriod + 20 ==>
        var bs := bars.bars;
        Outcome(SupertrendFields(lastSignal, entryPrice, supertrendValue, supertrendDirection), orders, signal)
        == SupertrendTrade(symbol, positionSize,
             SupertrendFields(old(lastSignal), old(entryPrice), old(supertrendValue), old(supertrendDirection)),
             SupertrendOf(LastClose(bs), Hl2(bs[|bs| - 1]), AtrOf(bs, atrPeriod), atrMultiplier,
                          old(supertrendDirection), old(supertrendValue)),
             LastClose(bs), quantity)
    {
      orders, signal := [], None;
      if bars.NoHistory? || |bars.bars| < atrPeriod + 20 {
        return;
      }
      var bs := bars.bars;
      var line, direction := CalculateSupertrend(bs);
      var o := SupertrendTrade(symbol, positionSize, SupertrendFields(lastSignal, entryPrice, supertrendValue, supertrendDirection),
                               Supertrend(line, direction), LastClose(bs), quantity);
      lastSignal, entryPrice := o.state.lastSignal, o.state.entryPrice;
      supertrendValue, supertrendDirection := o.state.value, o.state.direction;
      orders, signal := o.orders, o.signal;
      signals := Appended(signals, signal);
    }
  }

  // ---------------------------------------------------------------- DCA

  /** The order size of the entry branch, or None when it does not buy: nothing once
      `max_levels` entries are filled; the base size when there is no position; after a
      drop of at least `drop_threshold` below a truthy average, the base size times
      `multiplier ** len(entries)`. */
  function DcaOrderSize(filled: nat, maxLevels: int, has: bool, average: Option<real>, price: real,
                        base: real, multiplier: real, dropThreshold: real): Option<real>
  {
    if filled >= maxLevels then None
    else if !has then Some(base)
    else if Truthy(average) && (average.value - price) / average.value >= dropThreshold then Some(base * Pow(multiplier, filled))
    else None
  }

  /** Buys happen only below `max_levels` entries and are positive; with a position a
      buy needs the drop, and with a multiplier of at least one each safety order is at
      least as large as the one the previous level would have placed. */
  lemma DcaOrderSizeCases(filled: nat, maxLevels: int, has: bool, average: Option<real>, price: real,
                          base: real, multiplier: real, dropThreshold: real)
    requires base > 0.0 && multiplier > 0.0
    ensures var q := DcaOrderSize(filled, maxLevels, has, average, price, base, multiplier, dropThreshold);
      (q.Some? ==> filled < maxLevels && q.value > 0.0)
      && (q.Some? && has ==> Truthy(average) && (average.value - price) / average.value >= dropThreshold
                             && q.value == base * Pow(multiplier, filled))
      && (filled < maxLevels && !has ==> q == Some(base))
      && (q.Some? && has && multiplier >= 1.0 && filled > 0 ==> q.value >= base * Pow(multiplier, filled - 1))
  {
    PowPositive(multiplier, filled);
    MulNonNegative(base, Pow(multiplier, filled));
    assert base * Pow(multiplier, filled) > 0.0;
    if multiplier >= 1.0 && filled > 0 {
      PowGrows(multiplier, filled - 1);
      MulNonNegative(base, Pow(multiplier, filled) - Pow(multiplier, filled - 1));
    }
  }

  function DcaTakeProfitData(symbol: string, price: real, size: real, average: real, invested: real, levels: nat): seq<Field>
    requires average != 0.0
  {
    [Field("symbol", Text(symbol)), Field("price", Num(price)), Field("size", Num(size)),
     Field("avg_entry", Num(average)), Field("pnl_percent", Num((price - average) / average * 100.0)),
     Field("total_invested", Num(invested)), Field("levels_filled", Count(levels))]
  }

  function DcaBuyData(symbol: string, price: real, size: real, level: nat, average: real, reason: Value): seq<Field>
  {
    [Field("symbol", Text(symbol)), Field("price", Num(price)), Field("size", Num(size)),
     Field("level", Count(level)), Field("avg_entry", Num(average)), Field("reason", reason)]
  }

  /** The reason text of a DCA buy. */
  function DcaReason(has: bool, average: Option<real>, price: real): Value
  {
    if !has then Text("Initial DCA entry")
    else if Truthy(average) then Formatted("DCA entry - price dropped {:.1f}%", [(average.value - price) / average.value * 100.0])
    else Text("")
  }

  /** One DCA iteration on values: a due take-profit sells the whole DCA size and clears
      the cost basis; otherwise a buy of the size `DcaOrderSize` gives is appended to
      the entries and the average entry is recomputed. */
  function DcaStep(symbol: string, base: real, maxLevels: int, dropThreshold: real, takeProfitPct: real, multiplier: real,
                   s: DcaFields, bars: History, quantity: Option<real>): Outcome<DcaFields>
    requires bars.History? ==> |bars.bars| > 0
    requires base > 0.0 && multiplier > 0.0 && s.size >= 0.0
  {
    if bars.NoHistory? then Outcome(s, [], None)
    else
      var price := LastClose(bars.bars);
      var has := HasPosition(quantity);
      if TakeProfitDue(has, s.average, price, takeProfitPct) then
        Outcome(DcaFields([], 0.0, 0.0, None), [Market(Sell, s.size)],
                Some(Emitted("TAKE_PROFIT", "DCAStrategy",
                  DcaTakeProfitData(symbol, price, s.size, s.average.value, s.invested, |s.entries|))))
      else
        var q := DcaOrderSize(|s.entries|, maxLevels, has, s.average, price, base, multiplier, dropThreshold);
        if q.None? then Outcome(s, [], None)
        else
          DcaOrderSizeCases(|s.entries|, maxLevels, has, s.average, price, base, multiplier, dropThreshold);
          var t := DcaBought(s, price, q.value);
          Outcome(t, [Market(Buy, q.value)],
                  Some(Emitted("DCA_BUY", "DCAStrategy",
                    DcaBuyData(symbol, price, q.value, |t.entries|, t.average.value, DcaReason(has, s.average, price)))))
  }

  /** Every DCA iteration keeps the cost basis consistent with the entries (invested is
      the sum of price times size, size the sum of sizes, the average their quotient)
      and never holds more than `max_levels` entries. */
  lemma DcaStepKeepsBook(symbol: string, base: real, maxLevels: int, dropThreshold: real, takeProfitPct: real, multiplier: real,
                         s: DcaFields, bars: History, quantity: Option<real>)
    requires bars.History? ==> |bars.bars| > 0
    requires base > 0.0 && multiplier > 0.0
    requires DcaBook(s.entries, s.invested, s.size, s.average) && WithinLevels(s, maxLevels)
    ensures var t := DcaStep(symbol, base, maxLevels, dropThreshold, takeProfitPct, multiplier, s, bars, quantity).state;
      DcaBook(t.entries, t.invested, t.size, t.average) && WithinLevels(t, maxLevels)
  {
    SizesPositive(s.entries);
    var t := DcaStep(symbol, base, maxLevels, dropThreshold, takeProfitPct, multiplier, s, bars, quantity).state;
    if bars.History? {
      var price := LastClose(bars.bars);
      var has := HasPosition(quantity);
      if TakeProfitDue(has, s.average, price, takeProfitPct) {
        DcaBookEmpty();
        assert t == DcaFields([], 0.0, 0.0, None);
      } else {
        var q := DcaOrderSize(|s.entries|, maxLevels, has, s.average, price, base, multiplier, dropThreshold);
        if q.Some? {
          DcaOrderSizeCases(|s.entries|, maxLevels, has, s.average, price, base, multiplier, dropThreshold);
          DcaBoughtKeepsBook(s, price, q.value, maxLevels);
          assert t == DcaBought(s, price, q.value);
        } else {
          assert t == s;
        }
      }
    }
  }

  /** What a DCA iteration promises about its orders: a TAKE_PROFIT happens exactly when
      the take-profit is due and sells the tracked size; a DCA_BUY adds exactly one entry
      at the current close, needs a free level, and with a position needs the drop. */
  lemma DcaStepTrades(symbol: string, base: real, maxLevels: int, dropThreshold: real, takeProfitPct: real, multiplier: real,
                      s: DcaFields, bars: History, quantity: Option<real>)
    requires bars.History? ==> |bars.bars| > 0
    requires base > 0.0 && multiplier > 0.0 && s.size >= 0.0
    ensures var o := DcaStep(symbol, base, maxLevels, dropThreshold, takeProfitPct, multiplier, s, bars, quantity);
      (o.orders == [] <==> o.signal.None?)
      && (bars.NoHistory? ==> o == Outcome(s, [], None))
      && (o.signal.Some? && o.signal.value.signalType == "TAKE_PROFIT" <==>
            bars.History? && TakeProfitDue(HasPosition(quantity), s.average, LastClose(bars.bars), takeProfitPct))
      && (o.signal.Some? && o.signal.value.signalType == "TAKE_PROFIT" ==>
            o.orders == [Market(Sell, s.size)] && o.state == DcaFields([], 0.0, 0.0, None))
      && (o.signal.Some? && o.signal.value.signalType == "DCA_BUY" ==>
            |s.entries| < maxLevels && o.state.entries == s.entries + [DcaEntry(LastClose(bars.bars), o.orders[0].quantity)]
            && o.orders[0].quantity > 0.0
            && (HasPosition(quantity) ==>
                  Truthy(s.average) && (s.average.value - LastClose(bars.bars)) / s.average.value >= dropThreshold))
  {
    if bars.History? {
      DcaOrderSizeCases(|s.entries|, maxLevels, HasPosition(quantity), s.average, LastClose(bars.bars), base, multiplier, dropThreshold);
    }
  }

  class DcaStrategy {
    const symbol: string
    const basePositionSize: real
    const maxLevels: int
    const dropThreshold: real
    const takeProfitPct: real
    const safetyOrderMultiplier: real

    var entries: seq<DcaEntry>
    var totalInvested: real
    var totalSize: real
    var averageEntry: Option<real>
    var signals: seq<Emitted>

    /** The cost basis matches the entries, and at most `max_levels` entries are open. */
    ghost predicate Valid()
      reads this
    {
      basePositionSize > 0.0 && safetyOrderMultiplier > 0.0
      && DcaBook(entries, totalInvested, totalSize, averageEntry)
      && WithinLevels(DcaFields(entries, totalInvested, totalSize, averageEntry), maxLevels)
    }

    constructor (symbol: string, basePositionSize: real, maxLevels: int, dropThreshold: real,
                 takeProfitPct: real, safetyOrderMultiplier: real)
      requires basePositionSize > 0.0 && safetyOrderMultiplier > 0.0
      ensures Valid()
      ensures this.symbol == symbol && this.basePositionSize == basePositionSize && this.maxLevels == maxLevels
      ensures this.dropThreshold == dropThreshold && this.takeProfitPct == takeProfitPct
      ensures this.safetyOrderMultiplier == safetyOrderMultiplier
      ensures entries == [] && totalInvested == 0.0 && totalSize == 0.0 && averageEntry == None && signals == []
    {
      this.symbol := symbol;
      this.basePositionSize := basePositionSize;
      this.maxLevels := maxLevels;
      this.dropThreshold := dropThreshold;
      this.takeProfitPct := takeProfitPct;
      this.safetyOrderMultiplier := safetyOrderMultiplier;
      entries := [];
      totalInvested := 0.0;
      totalSize := 0.0;
      averageEntry := None;
      signals := [];
      DcaBookEmpty();
    }

    /** `on_trading_iteration`, as `DcaStep` describes it; the cost basis stays
        consistent with the entries. */
    method OnTradingIteration(bars: History, quantity: Option<real>) returns (orders: seq<Order>, signal: Option<Emitted>)
      requires Valid()
      requires bars.History? ==> |bars.bars| > 0
      modifies this
      ensures Valid()
      ensures signals == Appended(old(signals), signal)
      ensures Outcome(DcaFields(entries, totalInvested, totalSize, averageEntry), orders, signal)
        == DcaStep(symbol, basePositionSize, maxLevels, dropThreshold, takeProfitPct, safetyOrderMultiplier,
             DcaFields(old(entries), old(totalInvested), old(totalSize), old(averageEntry)), bars, quantity)
    {
      var o := DcaStep(symbol, basePositionSize, maxLevels, dropThreshold, takeProfitPct, safetyOrderMultiplier,
                       DcaFields(entries, totalInvested, totalSize, averageEntry), bars, quantity);
      DcaStepKeepsBook(symbol, basePositionSize, maxLevels, dropThreshold, takeProfitPct, safetyOrderMultiplier,
                       DcaFields(entries, totalInvested, totalSize, averageEntry), bars, quantity);
      entries, totalInvested, totalSize, averageEntry := o.state.entries, o.state.invested, o.state.size, o.state.average;
      orders, signal := o.orders, o.signal;
      signals := Appended(signals, signal);
    }
  }

  // ---------------------------------------------------------------- EMA crossover

  function EmaCrossBuyData(symbol: string, price: real, fast: real, slow: real): seq<Field>
  {
    [Field("symbol", Text(symbol)), Field("price", Num(price)), Field("fast_ema", Num(fast)),
     Field("slow_ema", Num(slow)), Field("reason", Text("EMA bullish crossover"))]
  }

  function EmaCrossSellData(symbol: string, price: real, fast: real, slow: real, pnl: real): seq<Field>
  {
    [Field("symbol", Text(symbol)), Field("price", Num(price)), Field("fast_ema", Num(fast)),
     Field("slow_ema", Num(slow)), Field("reason", Text("EMA bearish crossover")), Field("pnl_percent", Num(pnl))]
  }

  /** The fields of `EMACrossStrategy` that an iteration updates. */
  datatype EmaCrossFields = EmaCrossFields(lastSignal: Option<string>, entryPrice: Option<real>,
                                           prevFast: Option<real>, prevSlow: Option<real>)

  /** One EMA-crossover iteration on values: with at least slow_period + 5 bars both EMAs
      of the closes are computed, the crossing rule decides against the stored pair, and
      the new pair is stored whatever the decision. */
  ghost function EmaCrossStep(symbol: string, fastPeriod: nat, slowPeriod: nat, size: real,
                              s: EmaCrossFields, bars: History, quantity: Option<real>): Outcome<EmaCrossFields>
    requires fastPeriod >= 1 && slowPeriod >= 1
  {
    if bars.NoHistory? || |bars.bars| < slowPeriod + 5 then Outcome(s, [], None)
    else
      var closes := Closes(bars.bars);
      var price := LastClose(bars.bars);
      var fast := EmaValue(closes, fastPeriod);
      var slow := EmaValue(closes, slowPeriod);
      var stored := s.(prevFast := Some(fast), prevSlow := Some(slow));
      match CrossMove(s.prevFast, s.prevSlow, fast, slow, HasPosition(quantity))
      case Enter =>
        Outcome(stored.(lastSignal := Some("BUY"), entryPrice := Some(price)), [Market(Buy, size)],
                Some(Emitted("BUY", "EMACrossStrategy", EmaCrossBuyData(symbol, price, fast, slow))))
      case Exit =>
        Outcome(stored.(lastSignal := Some("SELL"), entryPrice := None), [Market(Sell, quantity.value)],
                Some(Emitted("SELL", "EMACrossStrategy", EmaCrossSellData(symbol, price, fast, slow, PnlPercent(s.entryPrice, price)))))
      case Stay => Outcome(stored, [], None)
  }

  /** What an EMA-crossover iteration promises: a BUY exactly when the stored fast EMA
      was at or below the slow one, the new fast EMA is above the new slow one and there
      is no position; a SELL exactly on the opposite crossing with a position, selling
      all of it. */
  lemma EmaCrossStepTrades(symbol: string, fastPeriod: nat, slowPeriod: nat, size: real,
                           s: EmaCrossFields, bars: History, quantity: Option<real>)
    requires fastPeriod >= 1 && slowPeriod >= 1
    requires bars.History? && |bars.bars| >= slowPeriod + 5
    ensures var o := EmaCrossStep(symbol, fastPeriod, slowPeriod, size, s, bars, quantity);
      var fast := EmaValue(Closes(bars.bars), fastPeriod);
      var slow := EmaValue(Closes(bars.bars), slowPeriod);
      o.state.prevFast == Some(fast) && o.state.prevSlow == Some(slow)
      && (o.orders == [Market(Buy, size)] && o.signal.Some? && o.signal.value.signalType == "BUY" <==>
            s.prevFast.Some? && s.prevSlow.Some? && s.prevFast.value <= s.prevSlow.value && fast > slow && !HasPosition(quantity))
      && (o.signal.Some? && o.signal.value.signalType == "SELL" <==>
            s.prevFast.Some? && s.prevSlow.Some? && s.prevFast.value >= s.prevSlow.value && fast < slow && HasPosition(quantity))
      && (o.signal.Some? && o.signal.value.signalType == "SELL" ==> o.orders == [Market(Sell, quantity.value)])
      && (o.orders == [] <==> o.signal.None?)
  {
    var fast := EmaValue(Closes(bars.bars), fastPeriod);
    var slow := EmaValue(Closes(bars.bars), slowPeriod);
    CrossMoveCases(s.prevFast, s.prevSlow, fast, slow, HasPosition(quantity));
  }

  /** Two BUYs never follow each other, nor two SELLs: the pair stored with a BUY has the
      fast EMA above the slow one, which rules out the next bullish crossing. */
  lemma EmaCrossNoRepeat(symbol: string, fastPeriod: nat, slowPeriod: nat, size: real,
                         s: EmaCrossFields, bars: History, quantity: Option<real>,
                         bars': History, quantity': Option<real>)
    requires fastPeriod >= 1 && slowPeriod >= 1
    ensures var o := EmaCrossStep(symbol, fastPeriod, slowPeriod, size, s, bars, quantity);
      var o' := EmaCrossStep(symbol, fastPeriod, slowPeriod, size, o.state, bars', quantity');
      o.signal.Some? && o'.signal.Some? ==> o.signal.value.signalType != o'.signal.value.signalType
  {
    var o := EmaCrossStep(symbol, fastPeriod, slowPeriod, size, s, bars, quantity);
    if o.signal.Some? && bars'.History? && |bars'.bars| >= slowPeriod + 5 {
      var fast := EmaValue(Closes(bars.bars), fastPeriod);
      var slow := EmaValue(Closes(bars.bars), slowPeriod);
      var fast' := EmaValue(Closes(bars'.bars), fastPeriod);
      var slow' := EmaValue(Closes(bars'.bars), slowPeriod);
      CrossMoveNoRepeat(s.prevFast, s.prevSlow, fast, slow, HasPosition(quantity), fast', slow', HasPosition(quantity'));
    }
  }

  class EmaCrossStrategy {
    const symbol: string
    const fastPeriod: nat
    const slowPeriod: nat
    const positionSize: real

    var lastSignal: Option<string>
    var entryPrice: Option<real>
    var prevFastEma: Option<real>
    var prevSlowEma: Option<real>
    var signals: seq<Emitted>

    constructor (symbol: string, fastPeriod: nat, slowPeriod: nat, positionSize: real)
      requires fastPeriod >= 1 && slowPeriod >= 1
      ensures this.symbol == symbol && this.fastPeriod == fastPeriod && this.slowPeriod == slowPeriod
      ensures this.positionSize == positionSize
      ensures lastSignal == None && entryPrice == None && prevFastEma == None && prevSlowEma == None && signals == []
    {
      this.symbol := symbol;
      this.fastPeriod := fastPeriod;
      this.slowPeriod := slowPeriod;
      this.positionSize := positionSize;
      lastSignal := None;
      entryPrice := None;
      prevFastEma := None;
      prevSlowEma := None;
      signals := [];
    }

    /** `on_trading_iteration`, as `EmaCrossStep` describes it. */
    method OnTradingIteration(bars: History, quantity: Option<real>) returns (orders: seq<Order>, signal: Option<Emitted>)
      requires fastPeriod >= 1 && slowPeriod >= 1
      modifies this
      ensures signals == Appended(old(signals), signal)
      ensures Outcome(EmaCrossFields(lastSignal, entryPrice, prevFastEma, prevSlowEma), orders, signal)
        == EmaCrossStep(symbol, fastPeriod, slowPeriod, positionSize,
             EmaCrossFields(old(lastSignal), old(entryPrice), old(prevFastEma), old(prevSlowEma)), bars, quantity)
    {
      orders, signal := [], None;
      if bars.NoHistory? || |bars.bars| < slowPeriod + 5 {
        return;
      }
      var closes := Closes(bars.bars);
      var fastEma := CalculateEmaValue(closes, fastPeriod);
      var slowEma := CalculateEmaValue(closes, slowPeriod);
      var currentPrice := closes[|closes| - 1];
      var has := HasPosition(quantity);
      if prevFastEma.Some? && prevSlowEma.Some? {
        if fastEma > slowEma && prevFastEma.value <= prevSlowEma.value {
          if !has {
            orders := [Market(Buy, positionSize)];
            lastSignal := Some("BUY");
            entryPrice := Some(currentPrice);
            signal := Some(Emitted("BUY", "EMACrossStrategy", EmaCrossBuyData(symbol, currentPrice, fastEma, slowEma)));
            signals := signals + [signal.value];
          }
        } else if fastEma < slowEma && prevFastEma.value >= prevSlowEma.value {
          if has {
            orders := [Market(Sell, quantity.value)];
            lastSignal := Some("SELL");
            var pnl := PnlPercent(entryPrice, currentPrice);
            signal := Some(Emitted("SELL", "EMACrossStrategy", EmaCrossSellData(symbol, currentPrice, fastEma, slowEma, pnl)));
            signals := signals + [signal.value];
            entryPrice := None;
          }
        }
      }
      prevFastEma := Some(fastEma);
      prevSlowEma := Some(slowEma);
    }
  }

  // ---------------------------------------------------------------- Breakout

  datatype Range = Range(high: real, low: real)

  /** `max(highs[-lookback:])` and `min(lows[-lookback:])` as written: the window ends
      with the current bar. */
  function RangeAsWritten(bars: seq<Bar>, lookback: nat): Range
    requires 1 <= lookback <= |bars|
  {
    var w := LastN(bars, lookback);
    Range(SeqMax(Highs(w)), SeqMin(Lows(w)))
  }

  /** The entry test as written: a consolidation narrower than the threshold and a
      close above the range high. */
  predicate BreakoutEntryAsWritten(bars: seq<Bar>, lookback: nat, threshold: real)
    requires 1 <= lookback <= |bars|
  {
    var r := RangeAsWritten(bars, lookback);
    r.low != 0.0 && (r.high - r.low) / r.low < threshold && LastClose(bars) > r.high
  }

  /** As written the range includes the current bar, whose close is at most its own
      high: the upside breakout never fires on a bar whose close lies between its low
      and its high. */
  lemma BreakoutAsWrittenNeverEnters(bars: seq<Bar>, lookback: nat, threshold: real)
    requires 1 <= lookback <= |bars|
    requires WellFormed(bars[|bars| - 1])
    ensures !BreakoutEntryAsWritten(bars, lookback, threshold)
  {
    var w := LastN(bars, lookback);
    assert w[|w| - 1] == bars[|bars| - 1];
    assert Highs(w)[|w| - 1] == bars[|bars| - 1].high;
  }

  /** The range the breakout rule means: the `lookback` bars before the current one. */
  function PriorRange(bars: seq<Bar>, lookback: nat): Range
    requires 1 <= lookback && lookback + 1 <= |bars|
  {
    var w := LastN(bars[..|bars| - 1], lookback);
    Range(SeqMax(Highs(w)), SeqMin(Lows(w)))
  }

  /** The prior range holds every one of the previous `lookback` bars, and both of its
      ends are prices of one of them. */
  lemma PriorRangeBounds(bars: seq<Bar>, lookback: nat)
    requires 1 <= lookback && lookback + 1 <= |bars|
    ensures var r := PriorRange(bars, lookback);
      (forall i :: |bars| - 1 - lookback <= i < |bars| - 1 ==> bars[i].low >= r.low && bars[i].high <= r.high)
      && (exists i :: |bars| - 1 - lookback <= i < |bars| - 1 && bars[i].high == r.high)
      && (exists i :: |bars| - 1 - lookback <= i < |bars| - 1 && bars[i].low == r.low)
  {
    var off := |bars| - 1 - lookback;
    var w := LastN(bars[..|bars| - 1], lookback);
    assert w == bars[off..|bars| - 1];
    var r := PriorRange(bars, lookback);
    var hs, ls := Highs(w), Lows(w);
    forall i | off <= i < |bars| - 1
      ensures bars[i].low >= r.low && bars[i].high <= r.high
    {
      assert hs[i - off] == bars[i].high && ls[i - off] == bars[i].low;
    }
    var k :| 0 <= k < |w| && hs[k] == r.high;
    assert bars[k + off].high == r.high;
    var m :| 0 <= m < |w| && ls[m] == r.low;
    assert bars[m + off].low == r.low;
  }

  /** On positive prices the prior range has a positive low, so the range size is defined. */
  lemma PriorRangePositive(bars: seq<Bar>, lookback: nat)
    requires 1 <= lookback && lookback + 1 <= |bars|
    requires Priced(bars)
    ensures PriorRange(bars, lookback).low > 0.0
  {
    PriorRangeBounds(bars, lookback);
  }

  /** The corrected entry test: a narrow range over the previous bars and a close above
      every one of their highs. */
  predicate BreakoutEntry(bars: seq<Bar>, lookback: nat, threshold: real)
    requires 1 <= lookback && lookback + 1 <= |bars|
  {
    var r := PriorRange(bars, lookback);
    r.low != 0.0 && (r.high - r.low) / r.low < threshold && LastClose(bars) > r.high
  }

  /** An entry closes above the high of every one of the previous `lookback` bars. */
  lemma BreakoutEntryAbove(bars: seq<Bar>, lookback: nat, threshold: real)
    requires 1 <= lookback && lookback + 1 <= |bars|
    requires BreakoutEntry(bars, lookback, threshold)
    ensures forall i :: |bars| - 1 - lookback <= i < |bars| - 1 ==> LastClose(bars) > bars[i].high
  {
    PriorRangeBounds(bars, lookback);
  }

  /** Two well-formed bars on which the corrected rule enters and the written one does
      not: a 0.5% range, then a close above it. */
  lemma BreakoutCorrectedFires()
    ensures BreakoutEntry([Bar(100.5, 100.0, 100.0, 1.0), Bar(102.0, 100.0, 101.0, 1.0)], 1, 0.02)
    ensures !BreakoutEntryAsWritten([Bar(100.5, 100.0, 100.0, 1.0), Bar(102.0, 100.0, 101.0, 1.0)], 1, 0.02)
  {
    var bars := [Bar(100.5, 100.0, 100.0, 1.0), Bar(102.0, 100.0, 101.0, 1.0)];
    assert LastN(bars[..1], 1) == [bars[0]];
    assert Highs([bars[0]]) == [100.5] && Lows([bars[0]]) == [100.0];
    assert PriorRange(bars, 1) == Range(100.5, 100.0);
    BreakoutAsWrittenNeverEnters(bars, 1, 0.02);
  }

  function StopLossData(symbol: string, price: real, entry: real): seq<Field>
    requires entry != 0.0
  {
    [Field("symbol", Text(symbol)), Field("price", Num(price)), Field("entry_price", Num(entry)),
     Field("loss_percent", Num((entry - price) / entry * 100.0))]
  }

  function BreakoutBuyData(symbol: string, price: real, r: Range): seq<Field>
    requires r.low != 0.0
  {
    [Field("symbol", Text(symbol)), Field("price", Num(price)), Field("range_high", Num(r.high)),
     Field("range_low", Num(r.low)), Field("range_size_pct", Num((r.high - r.low) / r.low * 100.0)),
     Field("direction", Text("upside")), Field("reason", Text("Upside breakout from consolidation"))]
  }

  /** `has_position and entry_price and (entry - price) / entry >= stop_loss_pct`. */
  predicate StopHit(has: bool, entry: Option<real>, price: real, stopLossPct: real)
  {
    has && Truthy(entry) && (entry.value - price) / entry.value >= stopLossPct
  }

  /** The fields of `BreakoutStrategy` that an iteration updates. */
  datatype BreakoutFields = BreakoutFields(lastSignal: Option<string>, entryPrice: Option<real>,
                                           rangeHigh: Option<real>, rangeLow: Option<real>)

  /** One breakout iteration on values, with the corrected range: fewer than `lookback`
      bars do nothing; a stop-loss sells the position and clears the entry price; otherwise,
      when flat and a previous range of `lookback` bars exists, a close above a narrow such
      range buys and records the range. */
  function BreakoutStep(symbol: string, lookback: nat, threshold: real, size: real, stopLossPct: real,
                        s: BreakoutFields, bars: History, quantity: Option<real>): Outcome<BreakoutFields>
    requires lookback >= 1
    requires bars.History? ==> Priced(bars.bars)
  {
    if bars.NoHistory? || |bars.bars| < lookback then Outcome(s, [], None)
    else
      var bs := bars.bars;
      var price := LastClose(bs);
      if StopHit(HasPosition(quantity), s.entryPrice, price, stopLossPct) then
        Outcome(s.(entryPrice := None), [Market(Sell, quantity.value)],
                Some(Emitted("STOP_LOSS", "BreakoutStrategy", StopLossData(symbol, price, s.entryPrice.value))))
      else if !HasPosition(quantity) && |bs| >= lookback + 1 && BreakoutEntry(bs, lookback, threshold) then
        var r := PriorRange(bs, lookback);
        PriorRangePositive(bs, lookback);
        Outcome(BreakoutFields(Some("BUY"), Some(price), Some(r.high), Some(r.low)), [Market(Buy, size)],
                Some(Emitted("BREAKOUT_BUY", "BreakoutStrategy", BreakoutBuyData(symbol, price, r))))
      else Outcome(s, [], None)
  }

  /** A breakout iteration submits an order exactly when it emits a signal; a STOP_LOSS
      happens exactly when the stop is hit, sells the whole position and forgets the
      entry price. */
  lemma BreakoutStopLoss(symbol: string, lookback: nat, threshold: real, size: real, stopLossPct: real,
                         s: BreakoutFields, bars: History, quantity: Option<real>)
    requires lookback >= 1
    requires bars.History? ==> Priced(bars.bars)
    ensures var o := BreakoutStep(symbol, lookback, threshold, size, stopLossPct, s, bars, quantity);
      (o.orders == [] <==> o.signal.None?)
      && (o.signal.Some? && o.signal.value.signalType == "STOP_LOSS" <==>
            bars.History? && |bars.bars| >= lookback
            && StopHit(HasPosition(quantity), s.entryPrice, LastClose(bars.bars), stopLossPct))
      && (o.signal.Some? && o.signal.value.signalType == "STOP_LOSS" ==>
            o.orders == [Market(Sell, quantity.value)] && o.state == s.(entryPrice := None))
  {
    var o := BreakoutStep(symbol, lookback, threshold, size, stopLossPct, s, bars, quantity);
    if bars.History? && |bars.bars| >= lookback + 1 {
      var bs := bars.bars;
      PriorRangePositive(bs, lookback);
      if !StopHit(HasPosition(quantity), s.entryPrice, LastClose(bs), stopLossPct)
         && !HasPosition(quantity) && BreakoutEntry(bs, lookback, threshold) {
        assert o.signal.value.signalType == "BREAKOUT_BUY" != "STOP_LOSS";
      }
    }
  }

  /** A BREAKOUT_BUY happens exactly when no stop is due, nothing is held and the
      corrected entry test holds: a range narrower than the threshold and a close above
      every high of the previous `lookback` bars. It buys the configured size and
      records the range. */
  lemma BreakoutBuy(symbol: string, lookback: nat, threshold: real, size: real, stopLossPct: real,
                    s: BreakoutFields, bars: History, quantity: Option<real>)
    requires lookback >= 1
    requires bars.History? ==> Priced(bars.bars)
    ensures var o := BreakoutStep(symbol, lookback, threshold, size, stopLossPct, s, bars, quantity);
      (o.signal.Some? && o.signal.value.signalType == "BREAKOUT_BUY" <==>
            bars.History? && |bars.bars| >= lookback + 1 && !HasPosition(quantity)
            && BreakoutEntry(bars.bars, lookback, threshold))
      && (o.signal.Some? && o.signal.value.signalType == "BREAKOUT_BUY" ==>
            var bs := bars.bars;
            var r := PriorRange(bs, lookback);
            o.orders == [Market(Buy, size)]
            && o.state == BreakoutFields(Some("BUY"), Some(LastClose(bs)), Some(r.high), Some(r.low))
            && (forall i :: |bs| - 1 - lookback <= i < |bs| - 1 ==> LastClose(bs) > bs[i].high))
  {
    var o := BreakoutStep(symbol, lookback, threshold, size, stopLossPct, s, bars, quantity);
    if bars.History? && |bars.bars| >= lookback + 1 {
      var bs := bars.bars;
      PriorRangePositive(bs, lookback);
      if StopHit(HasPosition(quantity), s.entryPrice, LastClose(bs), stopLossPct) {
        assert o.signal.value.signalType == "STOP_LOSS" != "BREAKOUT_BUY";
      } else if !HasPosition(quantity) && BreakoutEntry(bs, lookback, threshold) {
        BreakoutEntryAbove(bs, lookback, threshold);
      }
    }
  }

  class BreakoutStrategy {
    const symbol: string
    const lookbackPeriod: nat
    const breakoutThreshold: real
    const positionSize: real
    const stopLossPct: real

    var lastSignal: Option<string>
    var entryPrice: Option<real>
    var rangeHigh: Option<real>
    var rangeLow: Option<real>
    var signals: seq<Emitted>

    constructor (symbol: string, lookbackPeriod: nat, breakoutThreshold: real, positionSize: real, stopLossPct: real)
      requires lookbackPeriod >= 1
      ensures this.symbol == symbol && this.lookbackPeriod == lookbackPeriod
      ensures this.breakoutThreshold == breakoutThreshold && this.positionSize == positionSize && this.stopLossPct == stopLossPct
      ensures lastSignal == None && entryPrice == None && rangeHigh == None && rangeLow == None && signals == []
    {
      this.symbol := symbol;
      this.lookbackPeriod := lookbackPeriod;
      this.breakoutThreshold := breakoutThreshold;
      this.positionSize := positionSize;
      this.stopLossPct := stopLossPct;
      lastSignal := None;
      entryPrice := None;
      rangeHigh := None;
      rangeLow := None;
      signals := [];
    }

    /** `on_trading_iteration` with the corrected range, as `BreakoutStep` describes it. */
    method OnTradingIteration(bars: History, quantity: Option<real>) returns (orders: seq<Order>, signal: Option<Emitted>)
      requires lookbackPeriod >= 1
      requires bars.History? ==> Priced(bars.bars)
      modifies this
      ensures signals == Appended(old(signals), signal)
      ensures Outcome(BreakoutFields(lastSignal, entryPrice, rangeHigh, rangeLow), orders, signal)
        == BreakoutStep(symbol, lookbackPeriod, breakoutThreshold, positionSize, stopLossPct,
             BreakoutFields(old(lastSignal), old(entryPrice), old(rangeHigh), old(rangeLow)), bars, quantity)
    {
      orders, signal := [], None;
      if bars.NoHistory? || |bars.bars| < lookbackPeriod {
        return;
      }
      var o := BreakoutStep(symbol, lookbackPeriod, breakoutThreshold, positionSize, stopLossPct,
                            BreakoutFields(lastSignal, entryPrice, rangeHigh, rangeLow), bars, quantity);
      lastSignal, entryPrice := o.state.lastSignal, o.state.entryPrice;
      rangeHigh, rangeLow := o.state.rangeHigh, o.state.rangeLow;
      orders, signal := o.orders, o.signal;
      signals := Appended(signals, signal);
    }
  }

  // ---------------------------------------------------------------- registry

  datatype ExtendedKind = SupertrendKind | DcaKind | EmaCrossKind | BreakoutKind

  /** EXTENDED_STRATEGIES. */
  function ExtendedStrategies(): Table<ExtendedKind>
  {
    [Entry("supertrend", SupertrendKind), Entry("dca", DcaKind), Entry("ema_cross", EmaCrossKind), Entry("breakout", BreakoutKind)]
  }

  /** `get_extended_strategy` is None exactly for names outside the four keys that
      `list_extended_strategies` returns. */
  lemma ExtendedRegistry(name: string)
    ensures Keys(ExtendedStrategies()) == ["supertrend", "dca", "ema_cross", "breakout"]
    ensures Get(ExtendedStrategies(), name).None? <==> name !in ["supertrend", "dca", "ema_cross", "breakout"]
    ensures Get(ExtendedStrategies(), "breakout") == Some(BreakoutKind)
  {
    assert Keys(ExtendedStrategies()) == ["supertrend", "dca", "ema_cross", "breakout"];
  }
}
