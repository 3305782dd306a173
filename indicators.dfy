// Indicator recurrences of the IAF service (iaf-service/strategies/indicators.py).
// A pandas column that can hold NaN is a `Column`: None stands for NaN, and every
// comparison with it is false, as in pandas. The ewm- and std-based indicators are
// not modelled; `CalculateIndicator` resolves a name to the indicator it would run.

module Indicators {
  import opened Common
  import opened StrategyTypes

  type Column = seq<Option<real>>

  function Closes(c: seq<OHLCVData>): (r: seq<real>)
    ensures |r| == |c| && forall i :: 0 <= i < |c| ==> r[i] == c[i].close
  {
    seq(|c|, i requires 0 <= i < |c| => c[i].close)
  }

  // ----- Simple moving average -----

  /** `rolling(window=period).mean()`: the mean of the last `period` values, NaN until a
      full window exists. */
  function Sma(source: seq<real>, period: nat): (r: Column)
    requires period >= 1
    ensures |r| == |source|
    ensures forall i :: 0 <= i < |source| ==> (r[i].Some? <==> i + 1 >= period)
  {
    seq(|source|, i requires 0 <= i < |source| =>
      if i + 1 >= period then Some(Mean(source[i + 1 - period..i + 1])) else None)
  }

  /** Each defined SMA value lies within the range of its window. */
  lemma SmaWithinWindow(source: seq<real>, period: nat, i: nat)
    requires period >= 1 && period - 1 <= i < |source|
    ensures var w := source[i + 1 - period..i + 1];
      SeqMin(w) <= Sma(source, period)[i].value <= SeqMax(w)
  {
    var w := source[i + 1 - period..i + 1];
    MeanWithin(w, SeqMin(w), SeqMax(w));
  }

  // ----- Average true range -----

  /** The true range of bar i: the bar's own range, widened by the gap from the previous
      close; the first bar has no previous close and NaN is skipped by the row max. */
  function TrueRange(c: seq<OHLCVData>, i: nat): (r: real)
    requires i < |c|
    ensures r >= c[i].high - c[i].low
    ensures i > 0 ==> r >= Abs(c[i].high - c[i - 1].close) && r >= Abs(c[i].low - c[i - 1].close)
    ensures r == c[i].high - c[i].low
      || (i > 0 && (r == Abs(c[i].high - c[i - 1].close) || r == Abs(c[i].low - c[i - 1].close)))
  {
    if i == 0 then c[i].high - c[i].low
    else Max(Max(c[i].high - c[i].low, Abs(c[i].high - c[i - 1].close)), Abs(c[i].low - c[i - 1].close))
  }

  function TrueRanges(c: seq<OHLCVData>): (r: seq<real>)
    ensures |r| == |c| && forall i :: 0 <= i < |c| ==> r[i] == TrueRange(c, i)
  {
    seq(|c|, i requires 0 <= i < |c| => TrueRange(c, i))
  }

  /** The ATR column: the rolling mean of the true range. */
  function Atr(c: seq<OHLCVData>, period: nat): Column
    requires period >= 1
  {
    Sma(TrueRanges(c), period)
  }

  /** On bars whose high is not below their low, every defined ATR value is non-negative. */
  lemma AtrNonNegative(c: seq<OHLCVData>, period: nat, i: nat)
    requires period >= 1 && i < |c|
    requires forall k :: 0 <= k < |c| ==> c[k].low <= c[k].high
    ensures Atr(c, period)[i].Some? ==> Atr(c, period)[i].value >= 0.0
  {
    if Atr(c, period)[i].Some? {
      var w := TrueRanges(c)[i + 1 - period..i + 1];
      MeanWithin(w, 0.0, SeqMax(w));
    }
  }

  // ----- On-balance volume -----

  /** OBV at bar i: volume added on a rising close, subtracted on a falling one. */
  function ObvAt(c: seq<OHLCVData>, i: nat): real
    requires i < |c|
  {
    if i == 0 then 0.0
    else if c[i].close > c[i - 1].close then ObvAt(c, i - 1) + c[i].volume
    else if c[i].close < c[i - 1].close then ObvAt(c, i - 1) - c[i].volume
    else ObvAt(c, i - 1)
  }

  /** The volume traded after the first bar, up to bar i. */
  function VolumeAfterFirst(c: seq<OHLCVData>, i: nat): real
    requires i < |c|
  {
    if i == 0 then 0.0 else VolumeAfterFirst(c, i - 1) + c[i].volume
  }

  /** With non-negative volumes, OBV never strays further from 0 than the volume traded. */
  lemma {:induction false} ObvBounded(c: seq<OHLCVData>, i: nat)
    requires i < |c|
    requires forall k :: 0 <= k < |c| ==> c[k].volume >= 0.0
    ensures Abs(ObvAt(c, i)) <= VolumeAfterFirst(c, i)
  {
    if i > 0 {
      ObvBounded(c, i - 1);
    }
  }

  /** On strictly rising closes, OBV is the volume traded. */
  lemma {:induction false} ObvOnRisingCloses(c: seq<OHLCVData>, i: nat)
    requires i < |c|
    requires forall k :: 0 < k <= i ==> c[k].close > c[k - 1].close
    ensures ObvAt(c, i) == VolumeAfterFirst(c, i)
  {
    if i > 0 {
      ObvOnRisingCloses(c, i - 1);
    }
  }

  /** pandas' complaint when the one-element list built for an empty frame is assigned. */
  const ObvLengthMismatch := "Length of values (1) does not match length of index (0)"

  /** The obv indicator: the list starts at [0] and grows one value per later bar; an
      empty frame cannot take that list as a column. */
  method Obv(c: seq<OHLCVData>) returns (r: Result<seq<real>, string>)
    ensures |c| == 0 ==> r == Err(ObvLengthMismatch)
    ensures |c| > 0 ==> r.Ok? && |r.value| == |c| && forall i :: 0 <= i < |c| ==> r.value[i] == ObvAt(c, i)
  {
    var obv: seq<real> := [0.0];
    var i := 1;
    while i < |c|
      invariant 1 <= i && (|c| > 0 ==> i <= |c|)
      invariant |obv| == i
      invariant |c| > 0 ==> forall k :: 0 <= k < i ==> obv[k] == ObvAt(c, k)
    {
      var last := obv[|obv| - 1];
      if c[i].close > c[i - 1].close {
        obv := obv + [last + c[i].volume];
      } else if c[i].close < c[i - 1].close {
        obv := obv + [last - c[i].volume];
      } else {
        obv := obv + [last];
      }
      i := i + 1;
    }
    if |obv| != |c| {
      return Err(ObvLengthMismatch);
    }
    return Ok(obv);
  }

  // ----- Crossings -----

  predicate AtMost(a: Option<real>, b: Option<real>)
  {
    a.Some? && b.Some? && a.value <= b.value
  }

  predicate Above(a: Option<real>, b: Option<real>)
  {
    a.Some? && b.Some? && a.value > b.value
  }

  /** The first column crosses above the second: at most it on the previous row, above it now. */
  function Crossover(first: Column, second: Column): (r: seq<bool>)
    requires |first| == |second|
    ensures |r| == |first|
    ensures |r| > 0 ==> !r[0]
  {
    seq(|first|, i requires 0 <= i < |first| =>
      i > 0 && AtMost(first[i - 1], second[i - 1]) && Above(first[i], second[i]))
  }

  /** The first column crosses below the second: at least it before, below it now. */
  function Crossunder(first: Column, second: Column): (r: seq<bool>)
    requires |first| == |second|
    ensures |r| == |first|
    ensures |r| > 0 ==> !r[0]
  {
    seq(|first|, i requires 0 <= i < |first| =>
      i > 0 && AtMost(second[i - 1], first[i - 1]) && Above(second[i], first[i]))
  }

  /** A row is never both a crossover and a crossunder. */
  lemma CrossingsExclusive(first: Column, second: Column, i: nat)
    requires |first| == |second| && i < |first|
    ensures !(Crossover(first, second)[i] && Crossunder(first, second)[i])
  {
  }

  /** Crossing below is crossing above with the columns swapped. */
  lemma CrossunderIsSwappedCrossover(first: Column, second: Column)
    requires |first| == |second|
    ensures Crossunder(first, second) == Crossover(second, first)
  {
  }

  // ----- Heikin Ashi -----

  datatype HaCandle = HaCandle(open: real, high: real, low: real, close: real)

  function HaClose(b: OHLCVData): real
  {
    (b.open + b.high + b.low + b.close) / 4.0
  }

  /** ha_open starts at the first open; each later one halves the previous HA body. */
  function HaOpen(c: seq<OHLCVData>, i: nat): real
    requires i < |c|
  {
    if i == 0 then c[0].open else (HaOpen(c, i - 1) + HaClose(c[i - 1])) / 2.0
  }

  /** A Heikin Ashi candle from the bar and its HA open and close. */
  function HaCandleOf(b: OHLCVData, o: real, cl: real): (h: HaCandle)
    ensures h.low <= h.open <= h.high && h.low <= h.close <= h.high
    ensures h.low <= b.low && b.high <= h.high
  {
    HaCandle(o, Max(Max(b.high, o), cl), Min(Min(b.low, o), cl), cl)
  }

  function HaAt(c: seq<OHLCVData>, i: nat): HaCandle
    requires i < |c|
  {
    HaCandleOf(c[i], HaOpen(c, i), HaClose(c[i]))
  }

  /** When every bar so far lies in [lo, hi], so does the Heikin Ashi open. */
  lemma {:induction false} HaOpenWithinRange(c: seq<OHLCVData>, i: nat, lo: real, hi: real)
    requires i < |c|
    requires forall k :: 0 <= k <= i ==>
      lo <= c[k].low && c[k].high <= hi
      && c[k].low <= c[k].open <= c[k].high && c[k].low <= c[k].close <= c[k].high
    ensures lo <= HaOpen(c, i) <= hi
  {
    if i > 0 {
      HaOpenWithinRange(c, i - 1, lo, hi);
    }
  }

  /** The ha_open column: a copy of the opens, then rewritten row by row from the second. */
  method HaOpens(c: seq<OHLCVData>, haClose: seq<real>) returns (haOpen: seq<real>)
    requires |haClose| == |c| && forall k :: 0 <= k < |c| ==> haClose[k] == HaClose(c[k])
    ensures |haOpen| == |c| && forall k :: 0 <= k < |c| ==> haOpen[k] == HaOpen(c, k)
  {
    haOpen := seq(|c|, k requires 0 <= k < |c| => c[k].open);
    if |c| == 0 {
      return;
    }
    for i := 1 to |c|
      invariant |haOpen| == |c|
      invariant forall k :: 0 <= k < i ==> haOpen[k] == HaOpen(c, k)
    {
      haOpen := haOpen[i := (haOpen[i - 1] + haClose[i - 1]) / 2.0];
    }
  }

  /** The heikin_ashi indicator: the close column, the open recurrence, then the high and
      low columns. */
  method HeikinAshi(c: seq<OHLCVData>) returns (ha: seq<HaCandle>)
    ensures |ha| == |c| && forall i :: 0 <= i < |c| ==> ha[i] == HaAt(c, i)
  {
    var haClose := seq(|c|, i requires 0 <= i < |c| => HaClose(c[i]));
    var haOpen := HaOpens(c, haClose);
    ha := seq(|c|, k requires 0 <= k < |c| => HaCandleOf(c[k], haOpen[k], haClose[k]));
  }

  // ----- Supertrend -----

  function Hl2(b: OHLCVData): real
  {
    (b.high + b.low) / 2.0
  }

  function UpperBand(c: seq<OHLCVData>, atr: Column, m: real, i: nat): Option<real>
    requires |atr| == |c| && i < |c|
  {
    if atr[i].Some? then Some(Hl2(c[i]) + m * atr[i].value) else None
  }

  function LowerBand(c: seq<OHLCVData>, atr: Column, m: real, i: nat): Option<real>
    requires |atr| == |c| && i < |c|
  {
    if atr[i].Some? then Some(Hl2(c[i]) - m * atr[i].value) else None
  }

  /** The trend direction: up after a close above the previous upper band, down after a
      close below the previous lower band, unchanged otherwise. */
  function TrendAt(c: seq<OHLCVData>, atr: Column, m: real, i: nat): (r: int)
    requires |atr| == |c| && i < |c|
    ensures r == 1 || r == -1
  {
    if i == 0 then 1
    else if Above(Some(c[i].close), UpperBand(c, atr, m, i - 1)) then 1
    else if Above(LowerBand(c, atr, m, i - 1), Some(c[i].close)) then -1
    else TrendAt(c, atr, m, i - 1)
  }

  /** The supertrend value: 0 on the first row, then the band on the trend's side. */
  function SupertrendAt(c: seq<OHLCVData>, atr: Column, m: real, i: nat): Option<real>
    requires |atr| == |c| && i < |c|
  {
    if i == 0 then Some(0.0)
    else if TrendAt(c, atr, m, i) == 1 then LowerBand(c, atr, m, i) else UpperBand(c, atr, m, i)
  }

  /** The trend changes only on a close through the previous opposite band. */
  lemma TrendFlipNeedsBreak(c: seq<OHLCVData>, atr: Column, m: real, i: nat)
    requires |atr| == |c| && 0 < i < |c|
    requires TrendAt(c, atr, m, i) != TrendAt(c, atr, m, i - 1)
    ensures TrendAt(c, atr, m, i) == 1 ==> Above(Some(c[i].close), UpperBand(c, atr, m, i - 1))
    ensures TrendAt(c, atr, m, i) == -1 ==> Above(LowerBand(c, atr, m, i - 1), Some(c[i].close))
  {
  }

  datatype SupertrendColumns = SupertrendColumns(value: Column, trend: seq<int>)

  /** The trend_direction column: all 1, then decided row by row from the second. */
  method TrendColumn(c: seq<OHLCVData>, atr: Column, m: real) returns (trend: seq<int>)
    requires |atr| == |c|
    ensures |trend| == |c| && forall k :: 0 <= k < |c| ==> trend[k] == TrendAt(c, atr, m, k)
  {
    trend := seq(|c|, k => 1);
    if |c| == 0 {
      return;
    }
    for i := 1 to |c|
      invariant |trend| == |c|
      invariant forall k :: 0 <= k < i ==> trend[k] == TrendAt(c, atr, m, k)
    {
      var t: int;
      if Above(Some(c[i].close), UpperBand(c, atr, m, i - 1)) {
        t := 1;
      } else if Above(LowerBand(c, atr, m, i - 1), Some(c[i].close)) {
        t := -1;
      } else {
        t := trend[i - 1];
      }
      trend := trend[i := t];
    }
  }

  /** The supertrend indicator over the ATR of the given period: the band on the trend's
      side, with the first row left at 0. */
  method Supertrend(c: seq<OHLCVData>, period: nat, m: real) returns (st: SupertrendColumns)
    requires period >= 1
    ensures |st.value| == |c| && |st.trend| == |c|
    ensures forall i :: 0 <= i < |c| ==>
      st.trend[i] == TrendAt(c, Atr(c, period), m, i) && st.value[i] == SupertrendAt(c, Atr(c, period), m, i)
  {
    var atr := Atr(c, period);
    var trend := TrendColumn(c, atr, m);
    var value: Column := seq(|c|, k requires 0 <= k < |c| =>
      if k == 0 then Some(0.0)
      else if trend[k] == 1 then LowerBand(c, atr, m, k) else UpperBand(c, atr, m, k));
    st := SupertrendColumns(value, trend);
  }

  // ----- The indicator registry -----

  datatype IndicatorFunction =
    | SmaIndicator | EmaIndicator | RsiIndicator | MacdIndicator | BollingerBandsIndicator
    | AtrIndicator | StochasticIndicator | AdxIndicator | VwapIndicator | ObvIndicator
    | CrossoverIndicator | CrossunderIndicator | HeikinAshiIndicator | SupertrendIndicator
    | IchimokuIndicator

  /** The names INDICATORS registers, in its declaration order; three are aliases. */
  const IndicatorNames: seq<string> := [
    "sma", "ema", "rsi", "macd", "bollinger_bands", "bb", "atr", "stochastic", "stoch",
    "adx", "vwap", "obv", "crossover", "crossunder", "heikin_ashi", "ha", "supertrend", "ichimoku"]

  /** The function INDICATORS maps a name to. */
  function Registered(name: string): (r: Option<IndicatorFunction>)
    ensures r.Some? <==> name in IndicatorNames
  {
    if name == "sma" then Some(SmaIndicator)
    else if name == "ema" then Some(EmaIndicator)
    else if name == "rsi" then Some(RsiIndicator)
    else if name == "macd" then Some(MacdIndicator)
    else if name == "bollinger_bands" || name == "bb" then Some(BollingerBandsIndicator)
    else if name == "atr" then Some(AtrIndicator)
    else if name == "stochastic" || name == "stoch" then Some(StochasticIndicator)
    else if name == "adx" then Some(AdxIndicator)
    else if name == "vwap" then Some(VwapIndicator)
    else if name == "obv" then Some(ObvIndicator)
    else if name == "crossover" then Some(CrossoverIndicator)
    else if name == "crossunder" then Some(CrossunderIndicator)
    else if name == "heikin_ashi" || name == "ha" then Some(HeikinAshiIndicator)
    else if name == "supertrend" then Some(SupertrendIndicator)
    else if name == "ichimoku" then Some(IchimokuIndicator)
    else None
  }

  /** Python's repr of a list of strings without quotes inside them: ['a', 'b']. */
  function QuotedList(names: seq<string>): string
  {
    "[" + QuotedItems(names) + "]"
  }

  function QuotedItems(names: seq<string>): string
  {
    if |names| == 0 then ""
    else if |names| == 1 then "'" + names[0] + "'"
    else "'" + names[0] + "', " + QuotedItems(names[1..])
  }

  function UnknownIndicator(name: string): string
  {
    "Unknown indicator: " + name + ". Available: " + QuotedList(IndicatorNames)
  }

  /** calculate_indicator's dispatch: the indicator registered under the name, or the
      ValueError naming every available indicator. */
  function CalculateIndicator(name: string): (r: Result<IndicatorFunction, string>)
    ensures r.Err? <==> name !in IndicatorNames
    ensures r.Err? ==> r.error == UnknownIndicator(name)
  {
    match Registered(name)
    case None => Err(UnknownIndicator(name))
    case Some(f) => Ok(f)
  }

  /** bb, stoch and ha run the same functions as their long names. */
  lemma BbAliasesBollingerBands()
    ensures CalculateIndicator("bb") == CalculateIndicator("bollinger_bands") == Ok(BollingerBandsIndicator)
  {
  }

  lemma StochAliasesStochastic()
    ensures CalculateIndicator("stoch") == CalculateIndicator("stochastic") == Ok(StochasticIndicator)
  {
  }

  lemma HaAliasesHeikinAshi()
    ensures CalculateIndicator("ha") == CalculateIndicator("heikin_ashi") == Ok(HeikinAshiIndicator)
  {
    assert Registered("ha") == Some(HeikinAshiIndicator);
    assert Registered("heikin_ashi") == Some(HeikinAshiIndicator);
  }
}
