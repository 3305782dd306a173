// The built-in strategies of the IAF service (iaf-service/strategies/builtin.py).
// Every generator walks `data.items()`, skips frames that are too short, and stores a
// boolean series under the frame's symbol. The indicator columns the rules read (RSI,
// EMA, MACD, Bollinger bands) come from ewm and rolling-std code that is not modelled:
// each strategy is handed the function that computes them.

module Builtin {
  import opened Common
  import opened KeyedTable
  import opened StrategyTypes
  import opened StrategyBase
  import opened Indicators

  // ----- Symbols -----

  const DataSuffix := "_data"

  /** `identifier.replace("_data", "")`: every occurrence removed, scanning left to right. */
  function SymbolOf(id: string): (r: string)
    ensures |r| <= |id|
  {
    if |id| < |DataSuffix| then id
    else if id[..|DataSuffix|] == DataSuffix then SymbolOf(id[|DataSuffix|..])
    else [id[0]] + SymbolOf(id[1..])
  }

  /** "_data" starts at index i. */
  predicate OccursAt(s: string, i: nat)
  {
    i + |DataSuffix| <= |s| && s[i..i + |DataSuffix|] == DataSuffix
  }

  /** The string holds no "_data". */
  predicate Clean(s: string)
  {
    forall i: nat :: i < |s| ==> !OccursAt(s, i)
  }

  lemma {:induction false} SymbolOfClean(s: string)
    requires Clean(s)
    ensures SymbolOf(s) == s
  {
    if |s| >= |DataSuffix| {
      assert !OccursAt(s, 0);
      assert s[0..|DataSuffix|] == s[..|DataSuffix|];
      assert Clean(s[1..]) by {
        forall i: nat | i < |s[1..]|
          ensures !OccursAt(s[1..], i)
        {
          assert !OccursAt(s, i + 1);
          if i + |DataSuffix| <= |s[1..]| {
            assert s[1..][i..i + |DataSuffix|] == s[i + 1..i + 1 + |DataSuffix|];
          }
        }
      }
      SymbolOfClean(s[1..]);
    }
  }

  /** Appending "_data" does not change the symbol read back: no occurrence can straddle
      the join, because "_data" has no other '_'. */
  lemma {:induction false} SymbolOfSuffixed(x: string)
    ensures SymbolOf(x + DataSuffix) == SymbolOf(x)
    decreases |x|
  {
    var s := x + DataSuffix;
    if |x| == 0 {
      assert s == DataSuffix;
      assert s[|DataSuffix|..] == [];
    } else {
      assert s[..|DataSuffix|] == DataSuffix ==> |x| >= |DataSuffix| by {
        if |x| < |DataSuffix| {
          assert s[|x|] == '_';
          assert s[..|DataSuffix|][|x|] == s[|x|];
        }
      }
      if s[..|DataSuffix|] == DataSuffix {
        assert x[..|DataSuffix|] == s[..|DataSuffix|];
        assert s[|DataSuffix|..] == x[|DataSuffix|..] + DataSuffix;
        SymbolOfSuffixed(x[|DataSuffix|..]);
      } else {
        assert s[1..] == x[1..] + DataSuffix;
        SymbolOfSuffixed(x[1..]);
        if |x| >= |DataSuffix| {
          assert x[..|DataSuffix|] == s[..|DataSuffix|];
        }
      }
    }
  }

  /** The identifier f"{symbol}_data" every built-in strategy gives its data source reads
      back as the symbol. */
  lemma IdentifierNamesSymbol(symbol: string)
    requires Clean(symbol)
    ensures SymbolOf(symbol + DataSuffix) == symbol
  {
    SymbolOfSuffixed(symbol);
    SymbolOfClean(symbol);
  }

  // ----- The per-frame loop -----

  /** The dict a generator returns: a boolean series per symbol. */
  type SignalMap = Table<seq<bool>>

  /** `len(df) < x` with x an int: a negative bound skips nothing. */
  function MinLen(x: int): nat
  {
    if x < 0 then 0 else x
  }

  /** The frame keeps its series under `symbol`. */
  predicate Kept(e: Entry<seq<OHLCVData>>, minLen: nat, symbol: string)
  {
    |e.value| >= minLen && SymbolOf(e.key) == symbol
  }

  /** The loop of a generator over `data.items()`: frames shorter than minLen are skipped,
      and every other frame stores rule(frame) under its symbol, a later frame of the same
      symbol overwriting an earlier one. */
  function Collect(data: DataMap, minLen: nat, rule: seq<OHLCVData> -> seq<bool>): SignalMap
    decreases |data|
  {
    if |data| == 0 then []
    else
      var acc := Collect(data[..|data| - 1], minLen, rule);
      var e := data[|data| - 1];
      if |e.value| < minLen then acc else Put(acc, SymbolOf(e.key), rule(e.value))
  }

  /** A symbol has a series iff some long enough frame names it, and the series is the
      rule applied to the last such frame. */
  lemma {:induction false} CollectGet(data: DataMap, minLen: nat, rule: seq<OHLCVData> -> seq<bool>, symbol: string)
    ensures var r := Get(Collect(data, minLen, rule), symbol);
      (r.Some? <==> exists i :: 0 <= i < |data| && Kept(data[i], minLen, symbol))
      && (r.Some? ==> exists i :: (0 <= i < |data| && Kept(data[i], minLen, symbol)
            && r.value == rule(data[i].value)
            && forall j :: i < j < |data| ==> !Kept(data[j], minLen, symbol)))
    decreases |data|
  {
    if |data| > 0 {
      var n := |data| - 1;
      var prefix := data[..n];
      var e := data[n];
      CollectGet(prefix, minLen, rule, symbol);
      assert forall i :: 0 <= i < n ==> prefix[i] == data[i];
      if Kept(e, minLen, symbol) {
        PutGet(Collect(prefix, minLen, rule), symbol, rule(e.value));
      } else if |e.value| >= minLen {
        PutOther(Collect(prefix, minLen, rule), SymbolOf(e.key), rule(e.value), symbol);
      }
    }
  }

  /** Every stored series is the rule applied to some long enough frame of that symbol. */
  lemma {:induction false} CollectEntries(data: DataMap, minLen: nat, rule: seq<OHLCVData> -> seq<bool>, e: Entry<seq<bool>>)
    requires e in Collect(data, minLen, rule)
    ensures exists i :: 0 <= i < |data| && Kept(data[i], minLen, e.key) && e.value == rule(data[i].value)
    decreases |data|
  {
    var n := |data| - 1;
    var prefix := data[..n];
    var last := data[n];
    var acc := Collect(prefix, minLen, rule);
    if |last.value| >= minLen {
      PutEntries(acc, SymbolOf(last.key), rule(last.value), e);
    }
    if e in acc && !(|last.value| >= minLen && e == Entry(SymbolOf(last.key), rule(last.value))) {
      CollectEntries(prefix, minLen, rule, e);
      var i :| 0 <= i < |prefix| && Kept(prefix[i], minLen, e.key) && e.value == rule(prefix[i].value);
      assert prefix[i] == data[i];
    }
  }

  /** The same loop, written as the generators run it. */
  method CollectSignals(data: DataMap, minLen: nat, rule: seq<OHLCVData> -> seq<bool>) returns (signals: SignalMap)
    ensures signals == Collect(data, minLen, rule)
  {
    signals := [];
    for i := 0 to |data|
      invariant signals == Collect(data[..i], minLen, rule)
    {
      assert data[..i + 1][..i] == data[..i];
      if |data[i].value| >= minLen {
        signals := Put(signals, SymbolOf(data[i].key), rule(data[i].value));
      }
    }
    assert data[..|data|] == data;
  }

  /** The dict as the series generate_signals iterates over. */
  function ToSeries(m: SignalMap): (r: seq<SymbolFlags>)
    ensures |r| == |m|
    ensures forall i :: 0 <= i < |m| ==> r[i] == SymbolFlags(m[i].key, m[i].value)
  {
    seq(|m|, i requires 0 <= i < |m| => SymbolFlags(m[i].key, m[i].value))
  }

  // ----- Column tests -----

  /** Row i of a column; pandas aligns by index, so a row the column lacks reads NaN. */
  function At(col: Column, i: nat): Option<real>
  {
    if i < |col| then col[i] else None
  }

  predicate Below(a: Option<real>, level: real)
  {
    a.Some? && a.value < level
  }

  predicate Exceeds(a: Option<real>, level: real)
  {
    a.Some? && a.value > level
  }

  /** Rows where the column rises through the level: below it on the previous row, above it now. */
  function RisesThrough(n: nat, col: Column, level: real): (r: seq<bool>)
    ensures |r| == n && (n > 0 ==> !r[0])
  {
    seq(n, i => i > 0 && Below(At(col, i - 1), level) && Exceeds(At(col, i), level))
  }

  /** Rows where the column falls through the level: above it on the previous row, below it now. */
  function FallsThrough(n: nat, col: Column, level: real): (r: seq<bool>)
    ensures |r| == n && (n > 0 ==> !r[0])
  {
    seq(n, i => i > 0 && Exceeds(At(col, i - 1), level) && Below(At(col, i), level))
  }

  /** Rows where the first column crosses above the second. */
  function CrossesAbove(n: nat, a: Column, b: Column): (r: seq<bool>)
    ensures |r| == n && (n > 0 ==> !r[0])
  {
    seq(n, i => i > 0 && AtMost(At(a, i - 1), At(b, i - 1)) && Above(At(a, i), At(b, i)))
  }

  /** Rows where the first column crosses below the second. */
  function CrossesBelow(n: nat, a: Column, b: Column): (r: seq<bool>)
    ensures |r| == n && (n > 0 ==> !r[0])
  {
    seq(n, i => i > 0 && AtMost(At(b, i - 1), At(a, i - 1)) && Above(At(b, i), At(a, i)))
  }

  /** The strategies' crossing tests agree with the crossover and crossunder indicators. */
  lemma CrossesAreIndicatorCrossings(a: Column, b: Column)
    requires |a| == |b|
    ensures CrossesAbove(|a|, a, b) == Crossover(a, b)
    ensures CrossesBelow(|a|, a, b) == Crossunder(a, b)
  {
    var above, below := CrossesAbove(|a|, a, b), CrossesBelow(|a|, a, b);
    var over, under := Crossover(a, b), Crossunder(a, b);
    forall i | 0 <= i < |a|
      ensures above[i] == over[i] && below[i] == under[i]
    {
      if i > 0 {
        assert At(a, i - 1) == a[i - 1] && At(b, i - 1) == b[i - 1];
      }
      assert At(a, i) == a[i] && At(b, i) == b[i];
    }
  }

  /** No row crosses both ways. */
  lemma CrossesExclusive(n: nat, a: Column, b: Column, i: nat)
    requires i < n
    ensures !(CrossesAbove(n, a, b)[i] && CrossesBelow(n, a, b)[i])
  {
  }

  /** A column level that never changes. */
  function Flat(n: nat, level: real): Column
  {
    seq(n, i => Some(level))
  }

  /** Rising through a level is crossing over the flat level, except from exactly the level. */
  lemma RisesThroughIsStrictCrossover(col: Column, level: real, i: nat)
    requires i < |col|
    ensures RisesThrough(|col|, col, level)[i]
      <==> Crossover(col, Flat(|col|, level))[i] && col[i - 1] != Some(level)
  {
  }

  // ----- RSI reversal -----

  datatype RsiReversal = RsiReversal(rsiPeriod: int, oversold: real, overbought: real)

  const DefaultRsiReversal := RsiReversal(14, 30.0, 70.0)

  /** The RSI column of a frame, at the strategy's period. */
  type RsiColumn = seq<OHLCVData> -> Column

  /** The buy test on one frame: RSI rising through oversold. */
  function RsiBuyRule(s: RsiReversal, rsi: RsiColumn): seq<OHLCVData> -> seq<bool>
  {
    df => RisesThrough(|df|, rsi(df), s.oversold)
  }

  /** The sell test on one frame: RSI falling through overbought. */
  function RsiSellRule(s: RsiReversal, rsi: RsiColumn): seq<OHLCVData> -> seq<bool>
  {
    df => FallsThrough(|df|, rsi(df), s.overbought)
  }

  function RsiReversalBuys(s: RsiReversal, rsi: RsiColumn, data: DataMap): SignalMap
  {
    Collect(data, MinLen(s.rsiPeriod + 1), RsiBuyRule(s, rsi))
  }

  function RsiReversalSells(s: RsiReversal, rsi: RsiColumn, data: DataMap): SignalMap
  {
    Collect(data, MinLen(s.rsiPeriod + 1), RsiSellRule(s, rsi))
  }

  /** A buy series comes from a frame of at least rsi_period + 1 rows and flags exactly the
      rows where RSI rose from below oversold to above it. */
  lemma RsiReversalBuyRows(s: RsiReversal, rsi: RsiColumn, data: DataMap, symbol: string)
    ensures var r := Get(RsiReversalBuys(s, rsi, data), symbol);
      r.Some? ==> exists i :: (0 <= i < |data| && |data[i].value| >= s.rsiPeriod + 1
        && |r.value| == |data[i].value|
        && forall k :: 0 < k < |data[i].value| ==>
             (r.value[k] <==>
                Below(At(rsi(data[i].value), k - 1), s.oversold) && Exceeds(At(rsi(data[i].value), k), s.oversold)))
  {
    CollectGet(data, MinLen(s.rsiPeriod + 1), RsiBuyRule(s, rsi), symbol);
  }

  /** With oversold <= overbought no row is both a buy and a sell. */
  lemma RsiReversalExclusive(n: nat, col: Column, s: RsiReversal, i: nat)
    requires s.oversold <= s.overbought && i < n
    ensures !(RisesThrough(n, col, s.oversold)[i] && FallsThrough(n, col, s.overbought)[i])
  {
  }

  // ----- MACD, EMA and Bollinger band strategies -----

  datatype MacdCrossover = MacdCrossover(fastPeriod: int, slowPeriod: int, signalPeriod: int)

  const DefaultMacdCrossover := MacdCrossover(12, 26, 9)

  /** The macd and macd_signal columns of a frame. */
  datatype MacdColumns = MacdColumns(macd: Column, signal: Column)

  function MacdBuyRule(macd: seq<OHLCVData> -> MacdColumns): seq<OHLCVData> -> seq<bool>
  {
    df => CrossesAbove(|df|, macd(df).macd, macd(df).signal)
  }

  function MacdSellRule(macd: seq<OHLCVData> -> MacdColumns): seq<OHLCVData> -> seq<bool>
  {
    df => CrossesBelow(|df|, macd(df).macd, macd(df).signal)
  }

  function MacdBuys(s: MacdCrossover, macd: seq<OHLCVData> -> MacdColumns, data: DataMap): SignalMap
  {
    Collect(data, MinLen(s.slowPeriod + s.signalPeriod), MacdBuyRule(macd))
  }

  function MacdSells(s: MacdCrossover, macd: seq<OHLCVData> -> MacdColumns, data: DataMap): SignalMap
  {
    Collect(data, MinLen(s.slowPeriod + s.signalPeriod), MacdSellRule(macd))
  }

  datatype EmaCrossover = EmaCrossover(shortPeriod: int, longPeriod: int)

  const DefaultEmaCrossover := EmaCrossover(9, 21)

  /** The EMA column of a frame at a period. */
  type EmaColumn = (seq<OHLCVData>, int) -> Column

  function EmaBuyRule(s: EmaCrossover, ema: EmaColumn): seq<OHLCVData> -> seq<bool>
  {
    df => CrossesAbove(|df|, ema(df, s.shortPeriod), ema(df, s.longPeriod))
  }

  function EmaSellRule(s: EmaCrossover, ema: EmaColumn): seq<OHLCVData> -> seq<bool>
  {
    df => CrossesBelow(|df|, ema(df, s.shortPeriod), ema(df, s.longPeriod))
  }

  function EmaBuys(s: EmaCrossover, ema: EmaColumn, data: DataMap): SignalMap
  {
    Collect(data, MinLen(s.longPeriod), EmaBuyRule(s, ema))
  }

  function EmaSells(s: EmaCrossover, ema: EmaColumn, data: DataMap): SignalMap
  {
    Collect(data, MinLen(s.longPeriod), EmaSellRule(s, ema))
  }

  /** On every symbol the EMA buy and sell series never flag the same row. */
  lemma EmaBuySellExclusive(s: EmaCrossover, ema: EmaColumn, data: DataMap, symbol: string, k: nat)
    requires Get(EmaBuys(s, ema, data), symbol).Some? && Get(EmaSells(s, ema, data), symbol).Some?
    requires k < |Get(EmaBuys(s, ema, data), symbol).value| && k < |Get(EmaSells(s, ema, data), symbol).value|
    ensures !(Get(EmaBuys(s, ema, data), symbol).value[k] && Get(EmaSells(s, ema, data), symbol).value[k])
  {
    var buy := EmaBuyRule(s, ema);
    var sell := EmaSellRule(s, ema);
    var minLen := MinLen(s.longPeriod);
    CollectGet(data, minLen, buy, symbol);
    CollectGet(data, minLen, sell, symbol);
    var i :| 0 <= i < |data| && Kept(data[i], minLen, symbol) && Get(EmaBuys(s, ema, data), symbol).value == buy(data[i].value)
      && forall j :: i < j < |data| ==> !Kept(data[j], minLen, symbol);
    var i' :| 0 <= i' < |data| && Kept(data[i'], minLen, symbol) && Get(EmaSells(s, ema, data), symbol).value == sell(data[i'].value)
      && forall j :: i' < j < |data| ==> !Kept(data[j], minLen, symbol);
    assert i == i';
    CrossesExclusive(|data[i].value|, ema(data[i].value, s.shortPeriod), ema(data[i].value, s.longPeriod), k);
  }

  datatype BollingerBands = BollingerBands(period: int, stdDev: real)

  const DefaultBollingerBands := BollingerBands(20, 2.0)

  /** The bb_lower and bb_upper columns of a frame. */
  datatype BandColumns = BandColumns(lower: Column, upper: Column)

  /** Rows closing below the lower band. */
  function UnderBand(df: seq<OHLCVData>, lower: Column): (r: seq<bool>)
    ensures |r| == |df|
  {
    seq(|df|, i requires 0 <= i < |df| => Exceeds(At(lower, i), df[i].close))
  }

  /** Rows closing above the upper band. */
  function OverBand(df: seq<OHLCVData>, upper: Column): (r: seq<bool>)
    ensures |r| == |df|
  {
    seq(|df|, i requires 0 <= i < |df| => Below(At(upper, i), df[i].close))
  }

  function BollingerBuyRule(bands: seq<OHLCVData> -> BandColumns): seq<OHLCVData> -> seq<bool>
  {
    df => UnderBand(df, bands(df).lower)
  }

  function BollingerSellRule(bands: seq<OHLCVData> -> BandColumns): seq<OHLCVData> -> seq<bool>
  {
    df => OverBand(df, bands(df).upper)
  }

  function BollingerBuys(s: BollingerBands, bands: seq<OHLCVData> -> BandColumns, data: DataMap): SignalMap
  {
    Collect(data, MinLen(s.period), BollingerBuyRule(bands))
  }

  function BollingerSells(s: BollingerBands, bands: seq<OHLCVData> -> BandColumns, data: DataMap): SignalMap
  {
    Collect(data, MinLen(s.period), BollingerSellRule(bands))
  }

  /** Where the lower band is not above the upper one, no row is both below and above them. */
  lemma BandsExclusive(df: seq<OHLCVData>, b: BandColumns, i: nat)
    requires i < |df| && i < |b.lower| && i < |b.upper|
    requires b.lower[i].Some? && b.upper[i].Some? && b.lower[i].value <= b.upper[i].value
    ensures !(UnderBand(df, b.lower)[i] && OverBand(df, b.upper)[i])
  {
  }

  // ----- Grid -----

  /** The distance between neighbouring grid levels. */
  function Spacing(price: real, pct: real): real
  {
    price * (pct / 100.0)
  }

  /** The first offset of `range(-n // 2, n // 2 + 1)`. */
  function LowOffset(n: int): int
  {
    FloorDiv(-n, 2)
  }

  /** How many offsets the range holds: n + 1 for n >= 0 (the odd case has its extra offset
      below), none for a negative n. */
  function LevelCount(n: int): (r: nat)
    ensures r == if n < 0 then 0 else n + 1
  {
    var hi := FloorDiv(n, 2);
    if hi - LowOffset(n) + 1 < 0 then 0 else hi - LowOffset(n) + 1
  }

  /** The levels in the order the loop appends them. */
  function RawLevels(price: real, n: int, sp: real): (r: seq<real>)
    ensures |r| == LevelCount(n)
  {
    seq(LevelCount(n), j => price + ((LowOffset(n) + j) as real) * sp)
  }

  function Reverse(s: seq<real>): (r: seq<real>)
    ensures |r| == |s| && forall i :: 0 <= i < |s| ==> r[i] == s[|s| - 1 - i]
  {
    seq(|s|, i requires 0 <= i < |s| => s[|s| - 1 - i])
  }

  lemma {:induction false} ReverseMultiset(s: seq<real>)
    ensures multiset(Reverse(s)) == multiset(s)
    decreases |s|
  {
    if |s| > 0 {
      var t := s[1..];
      ReverseMultiset(t);
      assert Reverse(s) == Reverse(t) + [s[0]];
      assert s == [s[0]] + t;
    }
  }

  lemma ScaleMonotone(a: int, b: int, sp: real)
    requires a <= b && sp >= 0.0
    ensures (a as real) * sp <= (b as real) * sp
  {
    assert ((b - a) as real) * sp >= 0.0;
  }

  lemma ScaleAntitone(a: int, b: int, sp: real)
    requires a <= b && sp <= 0.0
    ensures (a as real) * sp >= (b as real) * sp
  {
    assert ((b - a) as real) * sp <= 0.0;
  }

  /** With a negative spacing a later appended level is lower. */
  lemma RawLevelsDescend(price: real, n: int, sp: real, i: int, j: int)
    requires sp < 0.0 && 0 <= i <= j < LevelCount(n)
    ensures RawLevels(price, n, sp)[i] >= RawLevels(price, n, sp)[j]
  {
    ScaleAntitone(LowOffset(n) + i, LowOffset(n) + j, sp);
  }

  /** The offsets of a non-empty range end at half of n, rounded down. */
  lemma LevelSpan(n: int)
    requires LevelCount(n) > 0
    ensures LowOffset(n) + LevelCount(n) == FloorDiv(n, 2) + 1
  {
  }

  /** The appended levels in sorted order: the offsets increase, so sorting keeps them as
      they are when the spacing is not negative and reverses them when it is. */
  function SortedLevels(price: real, n: int, sp: real): (r: seq<real>)
    ensures |r| == LevelCount(n)
  {
    var raw := RawLevels(price, n, sp);
    if sp >= 0.0 then raw else Reverse(raw)
  }

  /** `_calculate_grid_levels`: price + i * spacing for each offset, sorted. */
  function GridLevels(price: real, n: int, pct: real): (r: seq<real>)
    ensures |r| == LevelCount(n)
  {
    SortedLevels(price, n, Spacing(price, pct))
  }

  /** With a non-negative spacing the appended levels already increase. */
  lemma RawLevelsAscending(price: real, n: int, sp: real)
    requires sp >= 0.0
    ensures var raw := RawLevels(price, n, sp);
      forall i, j :: 0 <= i < j < |raw| ==> raw[i] <= raw[j]
  {
    var raw := RawLevels(price, n, sp);
    forall i, j | 0 <= i < j < |raw|
      ensures raw[i] <= raw[j]
    {
      ScaleMonotone(LowOffset(n) + i, LowOffset(n) + j, sp);
    }
  }

  /** With a negative spacing the appended levels decrease, so their reversal increases. */
  lemma ReversedLevelsAscending(price: real, n: int, sp: real)
    requires sp < 0.0
    ensures var r := Reverse(RawLevels(price, n, sp));
      forall i, j :: 0 <= i < j < |r| ==> r[i] <= r[j]
  {
    var raw := RawLevels(price, n, sp);
    var r := Reverse(raw);
    forall i, j | 0 <= i < j < |r|
      ensures r[i] <= r[j]
    {
      RawLevelsDescend(price, n, sp, |raw| - 1 - j, |raw| - 1 - i);
      assert r[i] == raw[|raw| - 1 - i];
      assert r[j] == raw[|raw| - 1 - j];
    }
  }

  lemma SortedLevelsSorted(price: real, n: int, sp: real)
    ensures var r := SortedLevels(price, n, sp);
      (forall i, j :: 0 <= i < j < |r| ==> r[i] <= r[j])
      && multiset(r) == multiset(RawLevels(price, n, sp))
  {
    if sp >= 0.0 {
      RawLevelsAscending(price, n, sp);
    } else {
      ReverseMultiset(RawLevels(price, n, sp));
      ReversedLevelsAscending(price, n, sp);
    }
  }

  /** The levels come out sorted and are a permutation of the ones the loop appended. */
  lemma GridLevelsSorted(price: real, n: int, pct: real)
    ensures var r := GridLevels(price, n, pct);
      (forall i, j :: 0 <= i < j < |r| ==> r[i] <= r[j])
      && multiset(r) == multiset(RawLevels(price, n, Spacing(price, pct)))
  {
    SortedLevelsSorted(price, n, Spacing(price, pct));
  }

  /** The levels strictly below a price, in grid order. */
  function LevelsBelow(levels: seq<real>, p: real): (r: seq<real>)
    ensures forall x :: x in r <==> x in levels && x < p
  {
    if |levels| == 0 then []
    else (if levels[0] < p then [levels[0]] else []) + LevelsBelow(levels[1..], p)
  }

  /** The levels strictly above a price, in grid order. */
  function LevelsAbove(levels: seq<real>, p: real): (r: seq<real>)
    ensures forall x :: x in r <==> x in levels && x > p
  {
    if |levels| == 0 then []
    else (if levels[0] > p then [levels[0]] else []) + LevelsAbove(levels[1..], p)
  }

  /** The offset of a level of the appended list, from its value. */
  lemma RawLevelAt(price: real, n: int, sp: real, x: real) returns (m: int)
    requires x in RawLevels(price, n, sp)
    ensures LowOffset(n) <= m < LowOffset(n) + LevelCount(n) && x == price + (m as real) * sp
  {
    var g := RawLevels(price, n, sp);
    var j :| 0 <= j < |g| && g[j] == x;
    m := LowOffset(n) + j;
  }

  /** A level m spacings from the price is at least one spacing away unless m is 0. */
  lemma OffsetNeighbours(price: real, sp: real, m: int, x: real)
    requires sp > 0.0 && x == price + (m as real) * sp
    ensures x < price ==> x <= price - sp
    ensures x > price ==> x >= price + sp && m >= 1
  {
    var d := (m as real) * sp;
    assert x == price + d;
    if m >= 1 {
      ScaleMonotone(1, m, sp);
      assert d >= sp;
    } else if m <= -1 {
      ScaleMonotone(m, -1, sp);
      assert d <= -sp;
    } else {
      assert d == 0.0;
    }
  }

  /** Below a price laid out with a positive spacing, every level is at most one spacing
      down; above it, at least one spacing up. */
  lemma RawNeighbours(price: real, n: int, sp: real, x: real)
    requires sp > 0.0 && x in RawLevels(price, n, sp)
    ensures x < price ==> x <= price - sp
    ensures x > price ==> x >= price + sp && FloorDiv(n, 2) >= 1
  {
    var m := RawLevelAt(price, n, sp, x);
    OffsetNeighbours(price, sp, m, x);
    if m >= 1 {
      LevelSpan(n);
    }
  }

  /** A member no smaller than every member is the maximum. */
  lemma MaxIs(s: seq<real>, m: real)
    requires m in s && forall x :: x in s ==> x <= m
    ensures SeqMax(s) == m
  {
    var i :| 0 <= i < |s| && s[i] == SeqMax(s);
    assert s[i] in s;
  }

  /** A member no larger than every member is the minimum. */
  lemma MinIs(s: seq<real>, m: real)
    requires m in s && forall x :: x in s ==> m <= x
    ensures SeqMin(s) == m
  {
    var i :| 0 <= i < |s| && s[i] == SeqMin(s);
    assert s[i] in s;
  }

  /** With a positive spacing the nearest level below the price is one spacing down. */
  lemma NearestBelow(price: real, n: int, sp: real)
    requires sp > 0.0 && n >= 1
    ensures var g := SortedLevels(price, n, sp);
      price in g && |LevelsBelow(g, price)| > 0 && SeqMax(LevelsBelow(g, price)) == price - sp
  {
    var lo := LowOffset(n);
    var g := SortedLevels(price, n, sp);
    assert g[-lo] == price;
    assert g[-lo - 1] == price - sp;
    var below := LevelsBelow(g, price);
    assert price - sp in below;
    forall x | x in below
      ensures x <= price - sp
    {
      RawNeighbours(price, n, sp, x);
    }
    MaxIs(below, price - sp);
  }

  /** With a positive spacing a level above the price exists only from two levels on, and
      the nearest is one spacing up. */
  lemma NearestAbove(price: real, n: int, sp: real)
    requires sp > 0.0 && n >= 1
    ensures var g := SortedLevels(price, n, sp);
      (|LevelsAbove(g, price)| > 0 <==> n >= 2)
      && (n >= 2 ==> SeqMin(LevelsAbove(g, price)) == price + sp)
  {
    var lo := LowOffset(n);
    var g := SortedLevels(price, n, sp);
    var above := LevelsAbove(g, price);
    forall x | x in above
      ensures n >= 2 && x >= price + sp
    {
      RawNeighbours(price, n, sp, x);
    }
    assert |above| > 0 ==> above[0] in above;
    if n >= 2 {
      assert g[-lo + 1] == price + sp;
      assert price + sp in above;
      MinIs(above, price + sp);
    }
  }

  /** On a grid laid out around a positive price with a positive spacing, the price itself
      is a level, the nearest level below is one spacing down, and a level above exists
      only from two levels on: with grid_levels = 1 the offsets are -1 and 0. */
  lemma FreshGridNeighbours(price: real, n: int, pct: real)
    requires price > 0.0 && pct > 0.0 && n >= 1
    ensures var g := GridLevels(price, n, pct); var sp := Spacing(price, pct);
      price in g
      && |LevelsBelow(g, price)| > 0 && SeqMax(LevelsBelow(g, price)) == price - sp
      && (|LevelsAbove(g, price)| > 0 <==> n >= 2)
      && (n >= 2 ==> SeqMin(LevelsAbove(g, price)) == price + sp)
  {
    var sp := Spacing(price, pct);
    assert sp > 0.0 by {
      assert pct / 100.0 > 0.0;
    }
    NearestBelow(price, n, sp);
    NearestAbove(price, n, sp);
  }

  /** The closest level below the latest close, when there is one. */
  function GridBuyFlags(grid: seq<real>, df: seq<OHLCVData>): (r: seq<bool>)
    requires |df| > 0
    ensures |r| == |df|
  {
    var lower := LevelsBelow(grid, df[|df| - 1].close);
    if |lower| > 0 then seq(|df|, k requires 0 <= k < |df| => df[k].close <= SeqMax(lower) * 1.001)
    else seq(|df|, k => false)
  }

  function GridSellFlags(grid: seq<real>, df: seq<OHLCVData>): (r: seq<bool>)
    requires |df| > 0
    ensures |r| == |df|
  {
    var upper := LevelsAbove(grid, df[|df| - 1].close);
    if |upper| > 0 then seq(|df|, k requires 0 <= k < |df| => df[k].close >= SeqMin(upper) * 0.999)
    else seq(|df|, k => false)
  }

  /** A row is a grid buy iff it closes within 0.1% above the nearest level below the latest
      close; with no level below, no row is. */
  lemma GridBuyNearestLower(grid: seq<real>, df: seq<OHLCVData>, k: nat)
    requires 0 < |df| && k < |df|
    ensures var cur := df[|df| - 1].close;
      GridBuyFlags(grid, df)[k] <==>
        exists l :: l in grid && l < cur && (forall m :: m in grid && m < cur ==> m <= l)
          && df[k].close <= l * 1.001
  {
    var cur := df[|df| - 1].close;
    var lower := LevelsBelow(grid, cur);
    if |lower| > 0 {
      var l := SeqMax(lower);
      assert l in lower;
      forall l' | l' in grid && l' < cur && (forall m :: m in grid && m < cur ==> m <= l')
        ensures l' == l
      {
        assert l' in lower;
      }
    }
  }

  /** A row is a grid sell iff it closes no more than 0.1% below the nearest level above
      the latest close; with no level above, no row is. */
  lemma GridSellNearestUpper(grid: seq<real>, df: seq<OHLCVData>, k: nat)
    requires 0 < |df| && k < |df|
    ensures var cur := df[|df| - 1].close;
      GridSellFlags(grid, df)[k] <==>
        exists u :: u in grid && u > cur && (forall m :: m in grid && m > cur ==> u <= m)
          && df[k].close >= u * 0.999
  {
    var cur := df[|df| - 1].close;
    var upper := LevelsAbove(grid, cur);
    if |upper| > 0 {
      var u := SeqMin(upper);
      assert u in upper;
      forall u' | u' in grid && u' > cur && (forall m :: m in grid && m > cur ==> u' <= m)
        ensures u' == u
      {
        assert u' in upper;
      }
    }
  }

  function GridFlags(side: SignalType, grid: seq<real>, df: seq<OHLCVData>): (r: seq<bool>)
    requires |df| > 0
    ensures |r| == |df|
  {
    if side == Buy then GridBuyFlags(grid, df) else GridSellFlags(grid, df)
  }

  /** The signals of a grid pass and the cached levels after it. */
  datatype GridPass = GridPass(signals: SignalMap, grid: seq<real>)

  /** One grid generator pass: frames under two rows are skipped; an empty cache is filled
      from the current frame's latest close, and every frame is tested against the cache. */
  function GridRun(grid: seq<real>, n: int, pct: real, side: SignalType, data: DataMap): GridPass
    decreases |data|
  {
    if |data| == 0 then GridPass([], grid)
    else GridNext(GridRun(grid, n, pct, side, data[..|data| - 1]), n, pct, side, data[|data| - 1])
  }

  /** One frame of a grid pass. */
  function GridNext(p: GridPass, n: int, pct: real, side: SignalType, e: Entry<seq<OHLCVData>>): GridPass
  {
    var df := e.value;
    if |df| < 2 then p
    else
      var g := if |p.grid| == 0 then GridLevels(df[|df| - 1].close, n, pct) else p.grid;
      GridPass(Put(p.signals, SymbolOf(e.key), GridFlags(side, g, df)), g)
  }

  lemma GridRunPrefix(grid: seq<real>, n: int, pct: real, side: SignalType, data: DataMap, i: nat)
    requires i < |data|
    ensures GridRun(grid, n, pct, side, data[..i + 1]) == GridNext(GridRun(grid, n, pct, side, data[..i]), n, pct, side, data[i])
  {
    assert data[..i + 1][..i] == data[..i];
  }

  /** A frame keeps a filled cache. */
  lemma GridNextKeeps(p: GridPass, n: int, pct: real, side: SignalType, e: Entry<seq<OHLCVData>>)
    requires |p.grid| > 0
    ensures GridNext(p, n, pct, side, e).grid == p.grid
  {
  }

  /** A frame of two rows or more fills an empty cache from its latest close. */
  lemma GridNextFills(p: GridPass, n: int, pct: real, side: SignalType, e: Entry<seq<OHLCVData>>)
    requires |p.grid| == 0 && |e.value| >= 2
    ensures GridNext(p, n, pct, side, e).grid == GridLevels(e.value[|e.value| - 1].close, n, pct)
  {
  }

  /** A filled cache is never recomputed. */
  lemma {:induction false} GridCacheKept(grid: seq<real>, n: int, pct: real, side: SignalType, data: DataMap)
    requires |grid| > 0
    ensures GridRun(grid, n, pct, side, data).grid == grid
    decreases |data|
  {
    if |data| > 0 {
      GridCacheKept(grid, n, pct, side, data[..|data| - 1]);
      GridNextKeeps(GridRun(grid, n, pct, side, data[..|data| - 1]), n, pct, side, data[|data| - 1]);
    }
  }

  /** An empty cache is filled from the latest close of the first frame with two rows or
      more, and every later frame of the pass (and every later pass) uses those levels. */
  lemma {:induction false} GridCacheFilled(n: int, pct: real, side: SignalType, data: DataMap, i: nat)
    requires n >= 0 && i < |data| && |data[i].value| >= 2
    requires forall j :: 0 <= j < i ==> |data[j].value| < 2
    ensures var df := data[i].value;
      GridRun([], n, pct, side, data).grid == GridLevels(df[|df| - 1].close, n, pct)
    decreases |data|
  {
    var prefix := data[..|data| - 1];
    var p := GridRun([], n, pct, side, prefix);
    if i == |data| - 1 {
      assert forall j :: 0 <= j < |prefix| ==> |prefix[j].value| < 2;
      GridSkipsShort(n, pct, side, prefix);
      GridNextFills(p, n, pct, side, data[i]);
    } else {
      assert prefix[i] == data[i];
      GridCacheFilled(n, pct, side, prefix, i);
      GridNextKeeps(p, n, pct, side, data[|data| - 1]);
    }
  }

  /** A pass over frames that are all too short leaves an empty cache empty. */
  lemma {:induction false} GridSkipsShort(n: int, pct: real, side: SignalType, data: DataMap)
    requires forall j :: 0 <= j < |data| ==> |data[j].value| < 2
    ensures GridRun([], n, pct, side, data) == GridPass([], [])
    decreases |data|
  {
    if |data| > 0 {
      GridSkipsShort(n, pct, side, data[..|data| - 1]);
    }
  }

  /** GridStrategy: the grid levels are cached on the instance by the first generator call
      that sees a frame of two rows or more. */
  class GridStrategy {
    const gridLevels: int
    const gridSpacingPct: real
    var gridPrices: seq<real>

    constructor(gridLevels: int, gridSpacingPct: real)
      ensures this.gridLevels == gridLevels && this.gridSpacingPct == gridSpacingPct
      ensures gridPrices == []
    {
      this.gridLevels := gridLevels;
      this.gridSpacingPct := gridSpacingPct;
      gridPrices := [];
    }

    method GenerateBuySignals(data: DataMap) returns (signals: SignalMap)
      modifies this
      ensures GridPass(signals, gridPrices) == GridRun(old(gridPrices), gridLevels, gridSpacingPct, Buy, data)
    {
      signals := RunGrid(Buy, data);
    }

    method GenerateSellSignals(data: DataMap) returns (signals: SignalMap)
      modifies this
      ensures GridPass(signals, gridPrices) == GridRun(old(gridPrices), gridLevels, gridSpacingPct, Sell, data)
    {
      signals := RunGrid(Sell, data);
    }

    /** The loop both generators run over `data.items()`, the cache written back as it
        is filled. */
    method RunGrid(side: SignalType, data: DataMap) returns (signals: SignalMap)
      modifies this
      ensures GridPass(signals, gridPrices) == GridRun(old(gridPrices), gridLevels, gridSpacingPct, side, data)
    {
      signals, gridPrices := GridLoop(gridPrices, gridLevels, gridSpacingPct, side, data);
    }
  }

  /** A grid pass over `data.items()` from the cache `grid0`. */
  method GridLoop(grid0: seq<real>, n: int, pct: real, side: SignalType, data: DataMap)
    returns (signals: SignalMap, grid: seq<real>)
    ensures GridPass(signals, grid) == GridRun(grid0, n, pct, side, data)
  {
    signals, grid := [], grid0;
    for i := 0 to |data|
      invariant GridPass(signals, grid) == GridRun(grid0, n, pct, side, data[..i])
    {
      GridRunPrefix(grid0, n, pct, side, data, i);
      var df := data[i].value;
      if |df| >= 2 {
        var currentPrice := df[|df| - 1].close;
        if |grid| == 0 {
          grid := GridLevels(currentPrice, n, pct);
        }
        signals := Put(signals, SymbolOf(data[i].key), GridFlags(side, grid, df));
      }
    }
    assert data[..|data|] == data;
  }

  // ----- Dollar-cost averaging -----

  datatype Dca = Dca(buyIntervalHours: int, useRsiFilter: bool, rsiThreshold: real)

  const DefaultDca := Dca(24, true, 45.0)

  /** `max(1, buy_interval_hours // 24)`: the row step between buys. */
  function DcaStep(hours: int): (k: nat)
    ensures k >= 1 && (hours >= 48 ==> 24 * k <= hours < 24 * k + 24)
  {
    var d := FloorDiv(hours, 24);
    if d < 1 then 1 else d
  }

  /** Rows a DCA frame of n rows buys on: every k-th row from the first, and with the RSI
      filter only those whose RSI is below the threshold. */
  function DcaFlags(n: nat, k: nat, rsi: Option<Column>, threshold: real): (r: seq<bool>)
    requires k >= 1
    ensures |r| == n
  {
    seq(n, j requires 0 <= j < n => j % k == 0 && (rsi.None? || Below(At(rsi.value, j), threshold)))
  }

  lemma MulBounds(k: int, d: int)
    requires k >= 1
    ensures d >= 1 ==> k * d >= k
    ensures d <= 0 ==> k * d <= 0
  {
  }

  lemma MulSucc(k: int, q: int)
    ensures k * (q + 1) == k * q + k
  {
  }

  /** Euclidean division is determined by the remainder bound. */
  lemma DivUnique(a: int, k: int, q: int, r: int)
    requires k >= 1 && a == k * q + r && 0 <= r < k
    ensures a / k == q && a % k == r
  {
    MulBounds(k, q - a / k);
    MulBounds(k, a / k - q);
  }

  /** The buy_signal loop of DCAStrategy: start all False, then visit every k-th row. */
  method DcaBuyFlags(n: nat, k: nat, rsi: Option<Column>, threshold: real) returns (flags: seq<bool>)
    requires k >= 1
    ensures flags == DcaFlags(n, k, rsi, threshold)
  {
    ghost var spec := DcaFlags(n, k, rsi, threshold);
    flags := seq(n, j => false);
    var i := 0;
    ghost var m := 0;
    while i < n
      invariant i == k * m && m >= 0
      invariant |flags| == n
      invariant forall j :: 0 <= j < n ==> flags[j] == (j < i && spec[j])
    {
      if rsi.None? || Below(At(rsi.value, i), threshold) {
        flags := flags[i := true];
      }
      DivUnique(i, k, m, 0);
      forall j | i < j < i + k
        ensures j % k != 0
      {
        DivUnique(j, k, m, j - i);
      }
      i := i + k;
      m := m + 1;
    }
  }

  /** Without the filter the first row is always bought, and the filter only removes buys. */
  lemma DcaFilterOnlyRemoves(n: nat, k: nat, rsi: Column, threshold: real, j: nat)
    requires k >= 1 && j < n
    ensures j == 0 ==> DcaFlags(n, k, None, threshold)[j]
    ensures DcaFlags(n, k, Some(rsi), threshold)[j] ==> DcaFlags(n, k, None, threshold)[j]
  {
  }

  /** Without the filter a frame of n rows gets ceil(n / k) buys. */
  lemma {:induction false} DcaBuyCount(n: nat, k: nat, threshold: real)
    requires k >= 1
    ensures CountTrue(DcaFlags(n, k, None, threshold)) == (n + k - 1) / k
  {
    if n > 0 {
      var f := DcaFlags(n, k, None, threshold);
      assert f[..n - 1] == DcaFlags(n - 1, k, None, threshold);
      DcaBuyCount(n - 1, k, threshold);
      var q := (n - 1) / k;
      var r := (n - 1) % k;
      DivUnique(n - 1, k, q, r);
      MulSucc(k, q);
      if r == 0 {
        DivUnique(n - 1 + k - 1, k, q, k - 1);
        DivUnique(n + k - 1, k, q + 1, 0);
      } else {
        DivUnique(n - 1 + k - 1, k, q + 1, r - 1);
        DivUnique(n + k - 1, k, q + 1, r);
      }
    }
  }

  function DcaBuyRule(s: Dca, rsi: RsiColumn): seq<OHLCVData> -> seq<bool>
  {
    df => DcaFlags(|df|, DcaStep(s.buyIntervalHours), if s.useRsiFilter then Some(rsi(df)) else None, s.rsiThreshold)
  }

  /** An all-False series of the frame's length. */
  function DcaSellRule(): seq<OHLCVData> -> seq<bool>
  {
    df => seq(|df|, i => false)
  }

  /** DCAStrategy.generate_buy_signals: frames of 14 rows or more, rsi_14 read when the
      filter is on. */
  function DcaBuys(s: Dca, rsi: RsiColumn, data: DataMap): SignalMap
  {
    Collect(data, 14, DcaBuyRule(s, rsi))
  }

  /** DCAStrategy.generate_sell_signals: an all-False series for every frame. */
  function DcaSells(data: DataMap): SignalMap
  {
    Collect(data, 0, DcaSellRule())
  }

  /** The DCA sell pass never emits a signal. */
  lemma DcaNeverSells(c: PassContext, data: DataMap)
    ensures Emit(c, ToSeries(DcaSells(data))).signals == []
  {
    var m := DcaSells(data);
    var series := ToSeries(m);
    forall k | 0 <= k < |series|
      ensures !Fires(series[k])
    {
      assert m[k] in m;
      CollectEntries(data, 0, DcaSellRule(), m[k]);
    }
    EmitQuiet(c, series, 0);
  }
}
