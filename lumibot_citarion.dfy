// The CITARION bot integrations of lumibot-service/strategies/citarion_integration.py:
// DCA, grid, Bollinger-band and Argus iterations. None of them submits an order; each
// only emits signal dicts for a CITARION bot, and an iteration may emit two of them
// (every `emit_signal` call appends to `self.signals`; the iteration returns the last).
//
// The Bollinger bands rest on a square root and are not modelled: an iteration that
// uses them takes the upper, middle and lower band as an input. The wall clock of the
// grid's daily rebalance is an input `now`, in seconds.

module LumibotCitarion {
  import opened Common
  import opened KeyedTable
  import opened LumibotCommon

  /** The three values `_calculate_bollinger_bands` returns. */
  datatype Bands = Bands(upper: real, middle: real, lower: real)

  /** What an integration iteration leaves behind: the new fields and every signal it
      emitted, in order. */
  datatype Emissions<S> = Emissions(state: S, emitted: seq<Emitted>)

  /** The value `on_trading_iteration` returns: the last signal emitted, if any. */
  function LastEmitted(emitted: seq<Emitted>): (r: Option<Emitted>)
    ensures |emitted| == 0 <==> r.None?
    ensures r.Some? ==> r.value == emitted[|emitted| - 1]
  {
    if |emitted| == 0 then None else Some(emitted[|emitted| - 1])
  }

  // ---------------------------------------------------------------- DCA integration

  /** The iteration as written: once the bar-count guard passes, the list comprehension
      over the undefined name `bands` raises NameError before anything else happens. */
  function DcaIntegrationAsWritten(bbPeriod: nat, s: DcaFields, bars: History): Result<Outcome<DcaFields>, string>
  {
    if bars.NoHistory? || |bars.bars| < bbPeriod + 10 then Ok(Outcome(s, [], None))
    else Err("NameError: name 'bands' is not defined")
  }

  /** As written the DCA integration never emits a signal and never changes its state:
      it either returns at the guard or raises. */
  lemma DcaIntegrationNeverSignals(bbPeriod: nat, s: DcaFields, bars: History)
    ensures var r := DcaIntegrationAsWritten(bbPeriod, s, bars);
      (r.Err? <==> bars.History? && |bars.bars| >= bbPeriod + 10)
      && (r.Ok? ==> r.value.signal.None? && r.value.state == s)
  {
  }

  /** Thirty flat bars with the default `bb_period` of 20 are enough to raise. */
  lemma DcaIntegrationCrashes()
    ensures DcaIntegrationAsWritten(20, DcaFields([], 0.0, 0.0, None),
                                    History(seq(30, i => Bar(100.0, 100.0, 100.0, 1.0)))).Err?
  {
  }

  function DcaIntegrationTakeProfitData(symbol: string, price: real, s: DcaFields): seq<Field>
    requires Truthy(s.average)
  {
    [Field("symbol", Text(symbol)), Field("price", Num(price)), Field("size", Num(s.size)),
     Field("avg_entry", Num(s.average.value)),
     Field("pnl_percent", Num((price - s.average.value) / s.average.value * 100.0)),
     Field("total_invested", Num(s.invested)), Field("levels_filled", Count(|s.entries|)),
     Field("action", Text("close_all")), Field("target_bot", Text("dca_bot"))]
  }

  function DcaIntegrationBuyData(symbol: string, price: real, size: real, s: DcaFields, rsi: real, lower: real): seq<Field>
  {
    [Field("symbol", Text(symbol)), Field("price", Num(price)), Field("size", Num(size)),
     Field("level", Count(|s.entries| + 1)), Field("rsi", Num(rsi)), Field("bb_lower", Num(lower)),
     Field("reason", Formatted("RSI oversold ({:.1f}) + Below lower BB", [rsi])),
     Field("action", Text("safety_order")), Field("target_bot", Text("dca_bot")),
     Field("avg_entry", OrNum(s.average))]
  }

  /** One DCA integration iteration, with the bars read as evidently intended: a due
      take-profit emits DCA_TAKE_PROFIT and clears the cost basis; otherwise, below
      `max_safety_orders` entries, an RSI under `rsi_oversold` and a close under the
      lower band emit DCA_BUY for `base * multiplier ** len(entries)` units and record
      the entry. */
  function DcaIntegrationStep(symbol: string, rsiPeriod: nat, rsiOversold: real, bbPeriod: nat, base: real,
                              maxSafetyOrders: int, multiplier: real, takeProfitPct: real,
                              s: DcaFields, bars: History, bands: Bands, quantity: Option<real>): Outcome<DcaFields>
    requires rsiPeriod >= 1 && base > 0.0 && multiplier > 0.0 && s.size >= 0.0
  {
    if bars.NoHistory? || |bars.bars| < bbPeriod + 10 || |bars.bars| == 0 then Outcome(s, [], None)
    else
      var price := LastClose(bars.bars);
      var rsi := LastPeriodRsi(Closes(bars.bars), rsiPeriod);
      if TakeProfitDue(HasPosition(quantity), s.average, price, takeProfitPct) then
        Outcome(DcaFields([], 0.0, 0.0, None), [],
                Some(Emitted("DCA_TAKE_PROFIT", "DCAIntegrationStrategy", DcaIntegrationTakeProfitData(symbol, price, s))))
      else if |s.entries| < maxSafetyOrders && rsi < rsiOversold && price < bands.lower then
        var size := SafetyOrderSize(base, multiplier, |s.entries|);
        Outcome(DcaBought(s, price, size), [],
                Some(Emitted("DCA_BUY", "DCAIntegrationStrategy", DcaIntegrationBuyData(symbol, price, size, s, rsi, bands.lower))))
      else Outcome(s, [], None)
  }

  /** Every DCA integration iteration keeps the cost basis consistent with the entries
      and never records more than `max_safety_orders` of them. */
  lemma DcaIntegrationKeepsBook(symbol: string, rsiPeriod: nat, rsiOversold: real, bbPeriod: nat, base: real,
                                maxSafetyOrders: int, multiplier: real, takeProfitPct: real,
                                s: DcaFields, bars: History, bands: Bands, quantity: Option<real>)
    requires rsiPeriod >= 1 && base > 0.0 && multiplier > 0.0
    requires DcaBook(s.entries, s.invested, s.size, s.average) && WithinLevels(s, maxSafetyOrders)
    ensures var t := DcaIntegrationStep(symbol, rsiPeriod, rsiOversold, bbPeriod, base, maxSafetyOrders, multiplier,
                                        takeProfitPct, s, bars, bands, quantity).state;
      DcaBook(t.entries, t.invested, t.size, t.average) && WithinLevels(t, maxSafetyOrders)
  {
    var t := DcaIntegrationStep(symbol, rsiPeriod, rsiOversold, bbPeriod, base, maxSafetyOrders, multiplier,
                                takeProfitPct, s, bars, bands, quantity).state;
    if bars.History? && |bars.bars| >= bbPeriod + 10 && |bars.bars| > 0 {
      var price := LastClose(bars.bars);
      var rsi := LastPeriodRsi(Closes(bars.bars), rsiPeriod);
      if TakeProfitDue(HasPosition(quantity), s.average, price, takeProfitPct) {
        DcaBookEmpty();
        assert t == DcaFields([], 0.0, 0.0, None);
      } else if |s.entries| < maxSafetyOrders && rsi < rsiOversold && price < bands.lower {
        var size := SafetyOrderSize(base, multiplier, |s.entries|);
        DcaBoughtKeepsBook(s, price, size, maxSafetyOrders);
        assert t == DcaBought(s, price, size);
      } else {
        assert t == s;
      }
    }
  }

  /** What a DCA integration iteration promises: it never orders; DCA_TAKE_PROFIT exactly
      when the take-profit is due, and the cost basis is then empty; DCA_BUY exactly when
      no take-profit is due, a safety level is free, the RSI is oversold and the close is
      under the lower band, and the new entry is at the close for the level's size. */
  lemma DcaIntegrationSignals(symbol: string, rsiPeriod: nat, rsiOversold: real, bbPeriod: nat, base: real,
                              maxSafetyOrders: int, multiplier: real, takeProfitPct: real,
                              s: DcaFields, bars: History, bands: Bands, quantity: Option<real>)
    requires rsiPeriod >= 1 && base > 0.0 && multiplier > 0.0 && s.size >= 0.0
    requires bars.History? && |bars.bars| >= bbPeriod + 10 && |bars.bars| > 0
    ensures var o := DcaIntegrationStep(symbol, rsiPeriod, rsiOversold, bbPeriod, base, maxSafetyOrders, multiplier,
                                        takeProfitPct, s, bars, bands, quantity);
      var price := LastClose(bars.bars);
      var due := TakeProfitDue(HasPosition(quantity), s.average, price, takeProfitPct);
      o.orders == []
      && (o.signal.Some? && o.signal.value.signalType == "DCA_TAKE_PROFIT" <==> due)
      && (due ==> o.state == DcaFields([], 0.0, 0.0, None))
      && (o.signal.Some? && o.signal.value.signalType == "DCA_BUY" <==>
            !due && |s.entries| < maxSafetyOrders && LastPeriodRsi(Closes(bars.bars), rsiPeriod) < rsiOversold
            && price < bands.lower)
      && (o.signal.Some? && o.signal.value.signalType == "DCA_BUY" ==>
            o.state.entries == s.entries + [DcaEntry(price, SafetyOrderSize(base, multiplier, |s.entries|))])
      && (o.signal.None? ==> o.state == s)
  {
    var price := LastClose(bars.bars);
    if !TakeProfitDue(HasPosition(quantity), s.average, price, takeProfitPct)
       && |s.entries| < maxSafetyOrders && LastPeriodRsi(Closes(bars.bars), rsiPeriod) < rsiOversold
       && price < bands.lower {
      var size := SafetyOrderSize(base, multiplier, |s.entries|);
      var o := DcaIntegrationStep(symbol, rsiPeriod, rsiOversold, bbPeriod, base, maxSafetyOrders, multiplier,
                                  takeProfitPct, s, bars, bands, quantity);
      assert o.state == DcaBought(s, price, size);
    }
  }

  class DcaIntegrationStrategy {
    const symbol: string
    const rsiPeriod: nat
    const rsiOversold: real
    const bbPeriod: nat
    const baseOrderSize: real
    const maxSafetyOrders: int
    const safetyOrderMultiplier: real
    const takeProfitPct: real

    var entries: seq<DcaEntry>
    var totalInvested: real
    var totalSize: real
    var averageEntry: Option<real>
    var signals: seq<Emitted>

    /** The cost basis matches the entries, and at most `max_safety_orders` are open. */
    ghost predicate Valid()
      reads this
    {
      rsiPeriod >= 1 && baseOrderSize > 0.0 && safetyOrderMultiplier > 0.0
      && DcaBook(entries, totalInvested, totalSize, averageEntry)
      && WithinLevels(DcaFields(entries, totalInvested, totalSize, averageEntry), maxSafetyOrders)
    }

    constructor (symbol: string, rsiPeriod: nat, rsiOversold: real, bbPeriod: nat, baseOrderSize: real,
                 maxSafetyOrders: int, safetyOrderMultiplier: real, takeProfitPct: real)
      requires rsiPeriod >= 1 && baseOrderSize > 0.0 && safetyOrderMultiplier > 0.0
      ensures Valid()
      ensures this.symbol == symbol && this.rsiPeriod == rsiPeriod && this.rsiOversold == rsiOversold
      ensures this.bbPeriod == bbPeriod && this.baseOrderSize == baseOrderSize && this.maxSafetyOrders == maxSafetyOrders
      ensures this.safetyOrderMultiplier == safetyOrderMultiplier && this.takeProfitPct == takeProfitPct
      ensures entries == [] && totalInvested == 0.0 && totalSize == 0.0 && averageEntry == None && signals == []
    {
      this.symbol := symbol;
      this.rsiPeriod := rsiPeriod;
      this.rsiOversold := rsiOversold;
      this.bbPeriod := bbPeriod;
      this.baseOrderSize := baseOrderSize;
      this.maxSafetyOrders := maxSafetyOrders;
      this.safetyOrderMultiplier := safetyOrderMultiplier;
      this.takeProfitPct := takeProfitPct;
      entries := [];
      totalInvested := 0.0;
      totalSize := 0.0;
      averageEntry := None;
      signals := [];
      DcaBookEmpty();
    }

    /** `on_trading_iteration` with the closes read from `bars`, as
        `DcaIntegrationStep` describes it; the cost basis stays consistent. */
    method OnTradingIteration(bars: History, bands: Bands, quantity: Option<real>) returns (signal: Option<Emitted>)
      requires Valid()
      modifies this
      ensures Valid()
      ensures signals == Appended(old(signals), signal)
      ensures Outcome(DcaFields(entries, totalInvested, totalSize, averageEntry), [], signal)
        == DcaIntegrationStep(symbol, rsiPeriod, rsiOversold, bbPeriod, baseOrderSize, maxSafetyOrders,
             safetyOrderMultiplier, takeProfitPct,
             DcaFields(old(entries), old(totalInvested), old(totalSize), old(averageEntry)), bars, bands, quantity)
    {
      var s := DcaFields(entries, totalInvested, totalSize, averageEntry);
      var o := DcaIntegrationStep(symbol, rsiPeriod, rsiOversold, bbPeriod, baseOrderSize, maxSafetyOrders,
                                  safetyOrderMultiplier, takeProfitPct, s, bars, bands, quantity);
      DcaIntegrationKeepsBook(symbol, rsiPeriod, rsiOversold, bbPeriod, baseOrderSize, maxSafetyOrders,
                              safetyOrderMultiplier, takeProfitPct, s, bars, bands, quantity);
      entries, totalInvested, totalSize, averageEntry := o.state.entries, o.state.invested, o.state.size, o.state.average;
      signal := o.signal;
      signals := Appended(signals, signal);
    }
  }

  // ---------------------------------------------------------------- Grid integration

  /** `min(max(atr_pct * atr_multiplier, min_grid_spacing_pct), max_grid_spacing_pct)`. */
  function GridSpacing(atrPct: real, multiplier: real, minSpacing: real, maxSpacing: real): real
  {
    Min(Max(atrPct * multiplier, minSpacing), maxSpacing)
  }

  /** The spacing lies between the two limits whenever they are ordered, and is the
      volatility-scaled ATR whenever that already lies between them. */
  lemma GridSpacingBounds(atrPct: real, multiplier: real, minSpacing: real, maxSpacing: real)
    requires minSpacing <= maxSpacing
    ensures minSpacing <= GridSpacing(atrPct, multiplier, minSpacing, maxSpacing) <= maxSpacing
    ensures minSpacing <= atrPct * multiplier <= maxSpacing ==>
      GridSpacing(atrPct, multiplier, minSpacing, maxSpacing) == atrPct * multiplier
  {
  }

  datatype Levels = Levels(support: real, resistance: real)

  /** `_find_support_resistance`: the lowest low and the highest high of the last
      `lookback` bars (all of them when there are fewer). */
  function SupportResistance(bars: seq<Bar>, lookback: nat): Levels
    requires |bars| > 0 && lookback >= 1
  {
    var w := LastN(bars, lookback);
    Levels(SeqMin(Lows(w)), SeqMax(Highs(w)))
  }

  /** Support is at most every low and resistance at least every high of the window,
      and each is a price of one of its bars. */
  lemma SupportResistanceBounds(bars: seq<Bar>, lookback: nat)
    requires |bars| > 0 && lookback >= 1
    ensures var lv := SupportResistance(bars, lookback);
      var start := |bars| - |LastN(bars, lookback)|;
      (forall i :: start <= i < |bars| ==> lv.support <= bars[i].low && bars[i].high <= lv.resistance)
      && (exists i :: start <= i < |bars| && bars[i].low == lv.support)
      && (exists i :: start <= i < |bars| && bars[i].high == lv.resistance)
  {
    var w := LastN(bars, lookback);
    var start := |bars| - |w|;
    var lv := SupportResistance(bars, lookback);
    var hs, ls := Highs(w), Lows(w);
    forall i | start <= i < |bars|
      ensures lv.support <= bars[i].low && bars[i].high <= lv.resistance
    {
      assert hs[i - start] == bars[i].high && ls[i - start] == bars[i].low;
    }
    var k :| 0 <= k < |w| && ls[k] == lv.support;
    assert bars[k + start].low == lv.support;
    var m :| 0 <= m < |w| && hs[m] == lv.resistance;
    assert bars[m + start].high == lv.resistance;
  }

  /** A grid configuration as `current_grid` stores it. */
  datatype Grid = Grid(upper: real, lower: real, spacing: real)

  /** `min(resistance, price * (1 + spacing * levels / 2))` and
      `max(support, price * (1 - spacing * levels / 2))`. */
  function GridBounds(price: real, spacing: real, gridLevels: int, lv: Levels): Grid
  {
    var half := spacing * gridLevels as real / 2.0;
    Grid(Min(lv.resistance, price * (1.0 + half)), Max(lv.support, price * (1.0 - half)), spacing)
  }

  /** The grid never reaches past resistance or below support, and it holds the price
      whenever support and resistance do and the spacing is not negative. */
  lemma GridBoundsWithin(price: real, spacing: real, gridLevels: int, lv: Levels)
    requires price > 0.0 && spacing >= 0.0 && gridLevels >= 0
    ensures var g := GridBounds(price, spacing, gridLevels, lv);
      g.upper <= lv.resistance && g.lower >= lv.support
      && (lv.support <= price <= lv.resistance ==> g.lower <= price <= g.upper)
  {
    var half := spacing * gridLevels as real / 2.0;
    MulNonNegative(spacing, gridLevels as real);
    MulNonNegative(price, half);
    assert price * (1.0 + half) == price + price * half;
    assert price * (1.0 - half) == price - price * half;
  }

  /** The fields of `GridIntegrationStrategy`. */
  datatype GridFields = GridFields(current: Option<Grid>, lastRebalance: Option<real>)

  /** The reasons to rebalance, in the order they are appended: none stored yet; or the
      price outside the stored grid, a spacing more than 20% away from the stored one,
      and more than a day since the last rebalance. */
  function RebalanceReasons(s: GridFields, price: real, spacing: real, now: real): seq<string>
    requires s.current.Some? ==> s.current.value.spacing != 0.0
  {
    if s.current.None? then ["Initial grid setup"]
    else
      var g := s.current.value;
      (if price > g.upper || price < g.lower then ["Price outside grid range"] else [])
      + (if Abs(spacing - g.spacing) / g.spacing > 0.2 then ["Volatility changed significantly"] else [])
      + (if s.lastRebalance.Some? && now - s.lastRebalance.value > 86400.0 then ["Daily rebalance check"] else [])
  }

  function GridRebalanceData(symbol: string, price: real, atr: real, atrPct: real, g: Grid, gridLevels: int,
                             lv: Levels, reasons: seq<string>): seq<Field>
  {
    [Field("symbol", Text(symbol)), Field("current_price", Num(price)), Field("atr", Num(atr)),
     Field("atr_pct", Num(atrPct * 100.0)), Field("grid_upper", Num(g.upper)), Field("grid_lower", Num(g.lower)),
     Field("grid_spacing", Num(g.spacing)), Field("grid_spacing_pct", Num(g.spacing * 100.0)),
     Field("grid_levels", Count(gridLevels)), Field("support", Num(lv.support)), Field("resistance", Num(lv.resistance)),
     Field("action", Text("reconfigure_grid")), Field("target_bot", Text("grid_bot")), Field("reasons", Texts(reasons))]
  }

  /** The grid half of an iteration, given the ATR of the bars: spacing from the ATR as a
      fraction of the close, bounds from support and resistance over the last 50 bars,
      and GRID_REBALANCE with the new grid whenever there is a reason to rebalance. */
  function GridTrade(symbol: string, gridLevels: int, atrMultiplier: real, minSpacing: real, maxSpacing: real,
                     s: GridFields, bars: seq<Bar>, atr: real, now: real): Outcome<GridFields>
    requires |bars| > 0 && LastClose(bars) != 0.0
    requires s.current.Some? ==> s.current.value.spacing != 0.0
  {
    var price := LastClose(bars);
    var atrPct := atr / price;
    var spacing := GridSpacing(atrPct, atrMultiplier, minSpacing, maxSpacing);
    var lv := SupportResistance(bars, 50);
    var g := GridBounds(price, spacing, gridLevels, lv);
    var reasons := RebalanceReasons(s, price, spacing, now);
    if |reasons| > 0 then
      Outcome(GridFields(Some(g), Some(now)), [],
              Some(Emitted("GRID_REBALANCE", "GridIntegrationStrategy",
                GridRebalanceData(symbol, price, atr, atrPct, g, gridLevels, lv, reasons))))
    else Outcome(s, [], None)
  }

  /** A rebalance happens exactly when there is no grid yet, the price has left it, the
      spacing moved by more than 20% or a day has passed; it then stores the new grid and
      the time, and otherwise nothing changes. */
  lemma GridRebalanceCases(symbol: string, gridLevels: int, atrMultiplier: real, minSpacing: real, maxSpacing: real,
                           s: GridFields, bars: seq<Bar>, atr: real, now: real)
    requires |bars| > 0 && LastClose(bars) != 0.0
    requires s.current.Some? ==> s.current.value.spacing != 0.0
    ensures var o := GridTrade(symbol, gridLevels, atrMultiplier, minSpacing, maxSpacing, s, bars, atr, now);
      var price := LastClose(bars);
      var spacing := GridSpacing(atr / price, atrMultiplier, minSpacing, maxSpacing);
      o.orders == []
      && (o.signal.Some? <==>
            s.current.None?
            || price > s.current.value.upper || price < s.current.value.lower
            || Abs(spacing - s.current.value.spacing) / s.current.value.spacing > 0.2
            || (s.lastRebalance.Some? && now - s.lastRebalance.value > 86400.0))
      && (o.signal.Some? ==>
            o.signal.value.signalType == "GRID_REBALANCE"
            && o.state == GridFields(Some(GridBounds(price, spacing, gridLevels, SupportResistance(bars, 50))), Some(now)))
      && (o.signal.None? ==> o.state == s)
  {
  }

  /** The grid laid from the bars holds their latest close. */
  lemma GridHoldsPrice(bars: seq<Bar>, spacing: real, gridLevels: int)
    requires Priced(bars) && |bars| > 0 && WellFormed(bars[|bars| - 1])
    requires spacing >= 0.0 && gridLevels >= 0
    ensures var g := GridBounds(LastClose(bars), spacing, gridLevels, SupportResistance(bars, 50));
      g.lower <= LastClose(bars) <= g.upper && g.spacing == spacing
  {
    var lv := SupportResistance(bars, 50);
    SupportResistanceBounds(bars, 50);
    assert lv.support <= bars[|bars| - 1].low && bars[|bars| - 1].high <= lv.resistance;
    GridBoundsWithin(LastClose(bars), spacing, gridLevels, lv);
  }

  /** A grid just stored at time `now` that holds the price at an unchanged spacing gives
      no reason to rebalance. */
  lemma NoReasonsAfterRebalance(g: Grid, price: real, spacing: real, now: real)
    requires g.lower <= price <= g.upper && g.spacing == spacing && spacing != 0.0
    ensures RebalanceReasons(GridFields(Some(g), Some(now)), price, spacing, now) == []
  {
    assert Abs(spacing - g.spacing) / g.spacing == 0.0;
  }

  /** Right after a rebalance, the same bars at the same time do not rebalance again:
      the close lies inside the new grid (support and resistance span the last bar), the
      spacing is unchanged and no time has passed. */
  lemma GridSettles(symbol: string, gridLevels: int, atrMultiplier: real, minSpacing: real, maxSpacing: real,
                    s: GridFields, bars: seq<Bar>, atr: real, now: real)
    requires Priced(bars) && |bars| > 0 && WellFormed(bars[|bars| - 1])
    requires 0.0 < minSpacing <= maxSpacing && gridLevels >= 0
    requires s.current.Some? ==> s.current.value.spacing != 0.0
    ensures var o := GridTrade(symbol, gridLevels, atrMultiplier, minSpacing, maxSpacing, s, bars, atr, now);
      o.signal.Some? ==>
        GridTrade(symbol, gridLevels, atrMultiplier, minSpacing, maxSpacing, o.state, bars, atr, now).signal.None?
  {
    var o := GridTrade(symbol, gridLevels, atrMultiplier, minSpacing, maxSpacing, s, bars, atr, now);
    GridRebalanceCases(symbol, gridLevels, atrMultiplier, minSpacing, maxSpacing, s, bars, atr, now);
    if o.signal.Some? {
      var price := LastClose(bars);
      var spacing := GridSpacing(atr / price, atrMultiplier, minSpacing, maxSpacing);
      GridSpacingBounds(atr / price, atrMultiplier, minSpacing, maxSpacing);
      GridHoldsPrice(bars, spacing, gridLevels);
      var g := GridBounds(price, spacing, gridLevels, SupportResistance(bars, 50));
      assert o.state == GridFields(Some(g), Some(now));
      NoReasonsAfterRebalance(g, price, spacing, now);
    }
  }

  class GridIntegrationStrategy {
    const symbol: string
    const gridLevels: int
    const atrPeriod: nat
    const atrMultiplier: real
    const minGridSpacingPct: real
    const maxGridSpacingPct: real

    var currentGrid: Option<Grid>
    var lastRebalance: Option<real>
    var signals: seq<Emitted>

    /** A stored grid's spacing lies between the two limits, so it is never zero. */
    ghost predicate Valid()
      reads this
    {
      atrPeriod >= 1 && 0.0 < minGridSpacingPct <= maxGridSpacingPct
      && (currentGrid.Some? ==> minGridSpacingPct <= currentGrid.value.spacing <= maxGridSpacingPct)
    }

    constructor (symbol: string, gridLevels: int, atrPeriod: nat, atrMultiplier: real,
                 minGridSpacingPct: real, maxGridSpacingPct: real)
      requires atrPeriod >= 1 && 0.0 < minGridSpacingPct <= maxGridSpacingPct
      ensures Valid()
      ensures this.symbol == symbol && this.gridLevels == gridLevels && this.atrPeriod == atrPeriod
      ensures this.atrMultiplier == atrMultiplier && this.minGridSpacingPct == minGridSpacingPct
      ensures this.maxGridSpacingPct == maxGridSpacingPct
      ensures currentGrid == None && lastRebalance == None && signals == []
    {
      this.symbol := symbol;
      this.gridLevels := gridLevels;
      this.atrPeriod := atrPeriod;
      this.atrMultiplier := atrMultiplier;
      this.minGridSpacingPct := minGridSpacingPct;
      this.maxGridSpacingPct := maxGridSpacingPct;
      currentGrid := None;
      lastRebalance := None;
      signals := [];
    }

    /** `on_trading_iteration`: fewer than 50 bars do nothing; otherwise the ATR of the
        bars drives `GridTrade`. */
    method OnTradingIteration(bars: History, now: real) returns (signal: Option<Emitted>)
      requires Valid()
      requires bars.History? ==> Priced(bars.bars)
      modifies this
      ensures Valid()
      ensures signals == Appended(old(signals), signal)
      ensures bars.NoHistory? || |bars.bars| < 50 ==>
        signal.None? && currentGrid == old(currentGrid) && lastRebalance == old(lastRebalance)
      ensures bars.History? && |bars.bars| >= 50 ==>
        Outcome(GridFields(currentGrid, lastRebalance), [], signal)
        == GridTrade(symbol, gridLevels, atrMultiplier, minGridSpacingPct, maxGridSpacingPct,
             GridFields(old(currentGrid), old(lastRebalance)), bars.bars, AtrOf(bars.bars, atrPeriod), now)
    {
      signal := None;
      if bars.NoHistory? || |bars.bars| < 50 {
        return;
      }
      var bs := bars.bars;
      var atr := CalculateAtr(bs, atrPeriod);
      var o := GridTrade(symbol, gridLevels, atrMultiplier, minGridSpacingPct, maxGridSpacingPct,
                         GridFields(currentGrid, lastRebalance), bs, atr, now);
      GridSpacingBounds(atr / LastClose(bs), atrMultiplier, minGridSpacingPct, maxGridSpacingPct);
      currentGrid, lastRebalance := o.state.current, o.state.lastRebalance;
      signal := o.signal;
      signals := Appended(signals, signal);
    }
  }

  // ---------------------------------------------------------------- BB integration

  /** `(price - lower) / (upper - lower)`, or 0.5 when the bands coincide. */
  function PercentB(price: real, bands: Bands): real
  {
    if bands.upper != bands.lower then (price - bands.lower) / (bands.upper - bands.lower) else 0.5
  }

  /** %B places the price on the band scale: 0 at the lower band, 1 at the upper one, and
      0.5 when the bands coincide. */
  lemma PercentBScale(price: real, bands: Bands)
    ensures bands.upper == bands.lower ==> PercentB(price, bands) == 0.5
    ensures bands.upper != bands.lower ==>
      PercentB(price, bands) * (bands.upper - bands.lower) == price - bands.lower
    ensures bands.upper != bands.lower && price == bands.lower ==> PercentB(price, bands) == 0.0
    ensures bands.upper != bands.lower && price == bands.upper ==> PercentB(price, bands) == 1.0
  {
    if bands.upper != bands.lower && price == bands.upper {
      var w := bands.upper - bands.lower;
      assert w / w == 1.0;
    }
  }

  /** The fields of `BBIntegrationStrategy` that an iteration updates. */
  datatype BbFields = BbFields(lastSignal: Option<string>, squeezeActive: bool)

  function BbSqueezeData(symbol: string, price: real, bands: Bands, bandwidth: real, pb: real): seq<Field>
  {
    [Field("symbol", Text(symbol)), Field("price", Num(price)), Field("bb_upper", Num(bands.upper)),
     Field("bb_middle", Num(bands.middle)), Field("bb_lower", Num(bands.lower)),
     Field("bandwidth", Num(bandwidth * 100.0)), Field("percent_b", Num(pb * 100.0)),
     Field("action", Text("prepare_breakout")), Field("target_bot", Text("bb_bot")),
     Field("reason", Text("Bollinger Band squeeze detected - potential breakout incoming"))]
  }

  function BbTouchData(symbol: string, price: real, band: string, bandValue: real, middle: real, pb: real,
                       action: string, reason: string): seq<Field>
  {
    [Field("symbol", Text(symbol)), Field("price", Num(price)), Field(band, Num(bandValue)),
     Field("bb_middle", Num(middle)), Field("percent_b", Num(pb * 100.0)),
     Field("action", Text(action)), Field("target_bot", Text("bb_bot")),
     Field("reason", Formatted(reason, [pb * 100.0]))]
  }

  function BbMiddleData(symbol: string, price: real, middle: real, pb: real): seq<Field>
  {
    [Field("symbol", Text(symbol)), Field("price", Num(price)), Field("bb_middle", Num(middle)),
     Field("percent_b", Num(pb * 100.0)), Field("action", Text("take_profit")), Field("target_bot", Text("bb_bot")),
     Field("reason", Text("Price returned to middle band - take profit"))]
  }

  /** The touch signals an earlier iteration can leave in `last_signal`. */
  predicate Touched(lastSignal: Option<string>)
  {
    lastSignal == Some("BB_LOWER_TOUCH") || lastSignal == Some("BB_UPPER_TOUCH")
  }

  /** The signal half of a BB iteration on the close and the bands: the squeeze latch
      first, then at most one of the lower-touch, upper-touch and middle-return tests;
      `last_signal` becomes the type of the last signal emitted, if any. */
  function BbTrade(symbol: string, squeezeThreshold: real, s: BbFields, price: real, bands: Bands): Emissions<BbFields>
    requires bands.middle != 0.0
  {
    var bandwidth := (bands.upper - bands.lower) / bands.middle;
    var pb := PercentB(price, bands);
    var isSqueeze := bandwidth < squeezeThreshold;
    var squeeze :=
      if isSqueeze && !s.squeezeActive then
        [Emitted("BB_SQUEEZE", "BBIntegrationStrategy", BbSqueezeData(symbol, price, bands, bandwidth, pb))]
      else [];
    var active := if isSqueeze && !s.squeezeActive then true else if !isSqueeze && s.squeezeActive then false else s.squeezeActive;
    var touch :=
      if pb < 0.05 then
        [Emitted("BB_LOWER_TOUCH", "BBIntegrationStrategy",
           BbTouchData(symbol, price, "bb_lower", bands.lower, bands.middle, pb, "mean_reversion_buy", "Price touching lower BB (%B: {:.1f}%)"))]
      else if pb > 0.95 then
        [Emitted("BB_UPPER_TOUCH", "BBIntegrationStrategy",
           BbTouchData(symbol, price, "bb_upper", bands.upper, bands.middle, pb, "mean_reversion_sell", "Price touching upper BB (%B: {:.1f}%)"))]
      else if 0.45 < pb < 0.55 && Touched(s.lastSignal) then
        [Emitted("BB_MIDDLE_RETURN", "BBIntegrationStrategy", BbMiddleData(symbol, price, bands.middle, pb))]
      else [];
    var emitted := squeeze + touch;
    Emissions(BbFields(if |emitted| > 0 then Some(emitted[|emitted| - 1].signalType) else s.lastSignal, active), emitted)
  }

  /** The squeeze latch: after every iteration `squeeze_active` says whether the
      bandwidth is under the threshold, and BB_SQUEEZE is emitted exactly when it falls
      under it while the latch was open. */
  lemma BbSqueezeLatch(symbol: string, squeezeThreshold: real, s: BbFields, price: real, bands: Bands)
    requires bands.middle != 0.0
    ensures var e := BbTrade(symbol, squeezeThreshold, s, price, bands);
      var isSqueeze := (bands.upper - bands.lower) / bands.middle < squeezeThreshold;
      e.state.squeezeActive == isSqueeze
      && (|e.emitted| > 0 && e.emitted[0].signalType == "BB_SQUEEZE" <==> isSqueeze && !s.squeezeActive)
  {
  }

  /** A squeeze is announced once: the iteration after one that emitted BB_SQUEEZE does
      not emit it again, whatever the close and bands. */
  lemma BbSqueezeOnce(symbol: string, squeezeThreshold: real, s: BbFields, price: real, bands: Bands,
                      price': real, bands': Bands)
    requires bands.middle != 0.0 && bands'.middle != 0.0
    ensures var e := BbTrade(symbol, squeezeThreshold, s, price, bands);
      var e' := BbTrade(symbol, squeezeThreshold, e.state, price', bands');
      |e.emitted| > 0 && e.emitted[0].signalType == "BB_SQUEEZE" ==>
        |e'.emitted| == 0 || e'.emitted[0].signalType != "BB_SQUEEZE"
  {
    var e := BbTrade(symbol, squeezeThreshold, s, price, bands);
    BbSqueezeLatch(symbol, squeezeThreshold, s, price, bands);
    BbSqueezeLatch(symbol, squeezeThreshold, e.state, price', bands');
    var e' := BbTrade(symbol, squeezeThreshold, e.state, price', bands');
    if |e'.emitted| > 0 && e'.emitted[0].signalType == "BB_SQUEEZE" {
      assert !e.state.squeezeActive;
    }
  }

  /** The mean-reversion tests: at most two signals, the squeeze before the touch; a
      lower touch exactly under 5% %B, an upper touch exactly over 95%, and a middle
      return only between 45% and 55% right after a touch. */
  lemma BbTouches(symbol: string, squeezeThreshold: real, s: BbFields, price: real, bands: Bands)
    requires bands.middle != 0.0
    ensures var e := BbTrade(symbol, squeezeThreshold, s, price, bands);
      var pb := PercentB(price, bands);
      var last := LastEmitted(e.emitted);
      (last.Some? && last.value.signalType == "BB_LOWER_TOUCH" <==> pb < 0.05)
      && (last.Some? && last.value.signalType == "BB_UPPER_TOUCH" <==> 0.05 <= pb && pb > 0.95)
      && (last.Some? && last.value.signalType == "BB_MIDDLE_RETURN" <==> 0.45 < pb < 0.55 && Touched(s.lastSignal))
  {
  }

  /** At most two signals per iteration, and `last_signal` records the last one. */
  lemma BbLastSignal(symbol: string, squeezeThreshold: real, s: BbFields, price: real, bands: Bands)
    requires bands.middle != 0.0
    ensures var e := BbTrade(symbol, squeezeThreshold, s, price, bands);
      var last := LastEmitted(e.emitted);
      |e.emitted| <= 2
      && (last.Some? ==> e.state.lastSignal == Some(last.value.signalType))
      && (last.None? ==> e.state.lastSignal == s.lastSignal)
  {
  }

  class BbIntegrationStrategy {
    const symbol: string
    const bbPeriod: nat
    const squeezeThreshold: real

    var lastSignal: Option<string>
    var squeezeActive: bool
    var signals: seq<Emitted>

    constructor (symbol: string, bbPeriod: nat, squeezeThreshold: real)
      ensures this.symbol == symbol && this.bbPeriod == bbPeriod && this.squeezeThreshold == squeezeThreshold
      ensures lastSignal == None && !squeezeActive && signals == []
    {
      this.symbol := symbol;
      this.bbPeriod := bbPeriod;
      this.squeezeThreshold := squeezeThreshold;
      lastSignal := None;
      squeezeActive := false;
      signals := [];
    }

    /** `on_trading_iteration`: fewer than bb_period + 10 bars do nothing; otherwise
        `BbTrade` on the last close, and every signal it emits is appended. */
    method OnTradingIteration(bars: History, bands: Bands) returns (signal: Option<Emitted>)
      requires bands.middle != 0.0
      modifies this
      ensures bars.NoHistory? || |bars.bars| < bbPeriod + 10 ==>
        signal.None? && lastSignal == old(lastSignal) && squeezeActive == old(squeezeActive) && signals == old(signals)
      ensures bars.History? && |bars.bars| >= bbPeriod + 10 && |bars.bars| > 0 ==>
        var e := BbTrade(symbol, squeezeThreshold, BbFields(old(lastSignal), old(squeezeActive)), LastClose(bars.bars), bands);
        BbFields(lastSignal, squeezeActive) == e.state && signals == old(signals) + e.emitted
        && signal == LastEmitted(e.emitted)
    {
      signal := None;
      if bars.NoHistory? || |bars.bars| < bbPeriod + 10 || |bars.bars| == 0 {
        return;
      }
      var e := BbTrade(symbol, squeezeThreshold, BbFields(lastSignal, squeezeActive), LastClose(bars.bars), bands);
      lastSignal, squeezeActive := e.state.lastSignal, e.state.squeezeActive;
      signals := signals + e.emitted;
      signal := LastEmitted(e.emitted);
    }
  }

  // ---------------------------------------------------------------- Argus integration

  /** The arithmetic mean of the sampled volumes, 0 before the first sample. */
  function MeanOrZero(xs: seq<real>): real
  {
    if |xs| == 0 then 0.0 else Sum(xs) / |xs| as real
  }

  /** `avg += (v - avg) / n` with n the new sample count keeps the running average equal
      to the mean of every sample taken. */
  lemma RunningMean(xs: seq<real>, v: real)
    ensures MeanOrZero(xs + [v]) == MeanOrZero(xs) + (v - MeanOrZero(xs)) / (|xs| + 1) as real
  {
    SumAppend(xs, v);
    var n := |xs| as real;
    var m := MeanOrZero(xs);
    assert Sum(xs) == m * n by {
      if |xs| > 0 {
        MeanTimesCount(Sum(xs), n);
      }
    }
    assert m * (n + 1.0) == m * n + m;
    assert m + (v - m) / (n + 1.0) == (m * (n + 1.0) + (v - m)) / (n + 1.0);
  }

  /** The fields of `ArgusIntegrationStrategy`. */
  datatype ArgusFields = ArgusFields(avgVolume: real, volumeSamples: nat)

  function WhaleData(symbol: string, price: real, prev: real, change: real): seq<Field>
  {
    [Field("symbol", Text(symbol)), Field("price", Num(price)), Field("prev_price", Num(prev)),
     Field("price_change_pct", Num(change * 100.0)), Field("direction", Text(if price > prev then "up" else "down")),
     Field("action", Text("monitor_closely")), Field("target_bot", Text("argus_bot")),
     Field("reason", Formatted("Large price movement detected: {:.2f}%", [change * 100.0]))]
  }

  function VolumeSpikeData(symbol: string, price: real, volume: real, avg: real, ratio: real): seq<Field>
  {
    [Field("symbol", Text(symbol)), Field("price", Num(price)), Field("volume", Num(volume)),
     Field("avg_volume", Num(avg)), Field("volume_ratio", Num(ratio)),
     Field("action", Text("investigate_volume")), Field("target_bot", Text("argus_bot")),
     Field("reason", Formatted("Volume spike detected: {:.1f}x average", [ratio]))]
  }

  /** The Argus half of an iteration: the latest volume is folded into the running
      average, then a close-to-close move beyond the threshold emits ARGUS_WHALE_MOVE and
      a volume above the threshold times the (updated) average emits ARGUS_VOLUME_SPIKE. */
  function ArgusTrade(symbol: string, priceChangeThreshold: real, volumeSpikeThreshold: real,
                      s: ArgusFields, bars: seq<Bar>): Emissions<ArgusFields>
    requires |bars| >= 2 && bars[|bars| - 2].close != 0.0
  {
    var price := bars[|bars| - 1].close;
    var prev := bars[|bars| - 2].close;
    var volume := bars[|bars| - 1].volume;
    var samples := s.volumeSamples + 1;
    var avg := s.avgVolume + (volume - s.avgVolume) / samples as real;
    var change := Abs(price - prev) / prev;
    var whale := if change > priceChangeThreshold then [Emitted("ARGUS_WHALE_MOVE", "ArgusIntegrationStrategy", WhaleData(symbol, price, prev, change))] else [];
    var spike :=
      if avg > 0.0 && volume / avg > volumeSpikeThreshold then
        [Emitted("ARGUS_VOLUME_SPIKE", "ArgusIntegrationStrategy", VolumeSpikeData(symbol, price, volume, avg, volume / avg))]
      else [];
    Emissions(ArgusFields(avg, samples), whale + spike)
  }

  /** A whale move is reported exactly on a relative move beyond the threshold, before
      any volume spike; a spike exactly when the latest volume exceeds the threshold
      times a positive running average; one sample is added either way. */
  lemma ArgusSignals(symbol: string, priceChangeThreshold: real, volumeSpikeThreshold: real,
                     s: ArgusFields, bars: seq<Bar>)
    requires |bars| >= 2 && bars[|bars| - 2].close != 0.0
    ensures var e := ArgusTrade(symbol, priceChangeThreshold, volumeSpikeThreshold, s, bars);
      var price, prev := bars[|bars| - 1].close, bars[|bars| - 2].close;
      var whale := Abs(price - prev) / prev > priceChangeThreshold;
      var spike := e.state.avgVolume > 0.0 && bars[|bars| - 1].volume / e.state.avgVolume > volumeSpikeThreshold;
      e.state.volumeSamples == s.volumeSamples + 1
      && |e.emitted| == (if whale then 1 else 0) + (if spike then 1 else 0)
      && (whale ==> e.emitted[0].signalType == "ARGUS_WHALE_MOVE")
      && (spike ==> e.emitted[|e.emitted| - 1].signalType == "ARGUS_VOLUME_SPIKE")
  {
  }

  class ArgusIntegrationStrategy {
    const symbol: string
    const priceChangeThreshold: real
    const volumeSpikeThreshold: real

    var avgVolume: real
    var volumeSamples: nat
    var signals: seq<Emitted>
    /** Every volume sampled so far. */
    ghost var sampled: seq<real>

    /** The running average is the mean of the sampled volumes. */
    ghost predicate Valid()
      reads this
    {
      volumeSamples == |sampled| && avgVolume == MeanOrZero(sampled)
    }

    constructor (symbol: string, priceChangeThreshold: real, volumeSpikeThreshold: real)
      ensures Valid() && sampled == []
      ensures this.symbol == symbol && this.priceChangeThreshold == priceChangeThreshold
      ensures this.volumeSpikeThreshold == volumeSpikeThreshold
      ensures avgVolume == 0.0 && volumeSamples == 0 && signals == []
    {
      this.symbol := symbol;
      this.priceChangeThreshold := priceChangeThreshold;
      this.volumeSpikeThreshold := volumeSpikeThreshold;
      avgVolume := 0.0;
      volumeSamples := 0;
      signals := [];
      sampled := [];
    }

    /** `on_trading_iteration`: fewer than 20 bars do nothing; otherwise the latest
        volume is sampled and `ArgusTrade` decides the signals. */
    method OnTradingIteration(bars: History) returns (signal: Option<Emitted>)
      requires Valid()
      requires bars.History? ==> Priced(bars.bars)
      modifies this
      ensures Valid()
      ensures bars.NoHistory? || |bars.bars| < 20 ==>
        signal.None? && avgVolume == old(avgVolume) && volumeSamples == old(volumeSamples)
        && signals == old(signals) && sampled == old(sampled)
      ensures bars.History? && |bars.bars| >= 20 ==>
        var e := ArgusTrade(symbol, priceChangeThreshold, volumeSpikeThreshold,
                            ArgusFields(old(avgVolume), old(volumeSamples)), bars.bars);
        ArgusFields(avgVolume, volumeSamples) == e.state && signals == old(signals) + e.emitted
        && signal == LastEmitted(e.emitted) && sampled == old(sampled) + [bars.bars[|bars.bars| - 1].volume]
    {
      signal := None;
      if bars.NoHistory? || |bars.bars| < 20 {
        return;
      }
      var bs := bars.bars;
      assert bs[|bs| - 2].close > 0.0;
      var e := ArgusTrade(symbol, priceChangeThreshold, volumeSpikeThreshold, ArgusFields(avgVolume, volumeSamples), bs);
      RunningMean(sampled, bs[|bs| - 1].volume);
      sampled := sampled + [bs[|bs| - 1].volume];
      avgVolume, volumeSamples := e.state.avgVolume, e.state.volumeSamples;
      signals := signals + e.emitted;
      signal := LastEmitted(e.emitted);
    }
  }

  // ---------------------------------------------------------------- registry

  datatype CitarionKind = DcaIntegrationKind | GridIntegrationKind | BbIntegrationKind | ArgusIntegrationKind

  /** CITARION_STRATEGIES. */
  function CitarionStrategies(): Table<CitarionKind>
  {
    [Entry("dca_integration", DcaIntegrationKind), Entry("grid_integration", GridIntegrationKind),
     Entry("bb_integration", BbIntegrationKind), Entry("argus_integration", ArgusIntegrationKind)]
  }

  /** `get_citarion_strategy` is None exactly for names outside the four keys that
      `list_citarion_strategies` returns. */
  lemma CitarionRegistry(name: string)
    ensures Keys(CitarionStrategies()) == ["dca_integration", "grid_integration", "bb_integration", "argus_integration"]
    ensures Get(CitarionStrategies(), name).None? <==>
      name !in ["dca_integration", "grid_integration", "bb_integration", "argus_integration"]
    ensures Get(CitarionStrategies(), "argus_integration") == Some(ArgusIntegrationKind)
  {
    assert Keys(CitarionStrategies()) == ["dca_integration", "grid_integration", "bb_integration", "argus_integration"];
  }
}
