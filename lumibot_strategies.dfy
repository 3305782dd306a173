// The strategies of lumibot-service/strategies.py: RSI reversal, MACD trend, grid
// trading and EMA cross. They submit orders through the framework (`buy`, `sell`,
// `sell_all`) and emit nothing; the cash `get_cash` reports and the position
// `get_position` returns (None when there is none) are inputs.
//
// The Bollinger-band strategy of the same file rests on a square root and is not
// modelled.

module LumibotStrategies {
  import opened Common
  import opened KeyedTable
  import opened LumibotCommon

  /** What an iteration of this file leaves behind: the new fields, the orders and the
      signal name it returns ("BUY", "SELL") if any. */
  datatype Step<S> = Step(state: S, orders: seq<Order>, signal: Option<string>)

  /** `(cash * position_size) / current_price`. */
  function BuyQuantity(cash: real, positionSize: real, price: real): real
    requires price != 0.0
  {
    cash * positionSize / price
  }

  // ---------------------------------------------------------------- calculate_rsi

  /** `calculate_rsi`: None with fewer than period + 1 bars; otherwise the RSI of the
      average gain and loss over the FIRST `period` changes of the window. */
  function FirstPeriodRsi(closes: seq<real>, period: nat): (r: Option<real>)
    requires period >= 1
    ensures r.None? <==> |closes| < period + 1
    ensures r.Some? ==> 0.0 <= r.value <= 100.0
  {
    if |closes| < period + 1 then None
    else
      var w := Deltas(closes)[..period];
      GainsNonNegative(w);
      var p := period as real;
      RsiOfScaled(Sum(Gains(w)), Sum(Losses(w)), p);
      Some(RsiOf(Sum(Gains(w)) / p, Sum(Losses(w)) / p))
  }

  /** `calculate_rsi` as the loop that collects the changes and averages the first
      `period` of them. */
  method CalculateRsi(bars: seq<Bar>, period: nat) returns (r: Option<real>)
    requires period >= 1
    ensures r == FirstPeriodRsi(Closes(bars), period)
  {
    if |bars| < period + 1 {
      return None;
    }
    ghost var closes := Closes(bars);
    var changes := CloseChanges(bars);
    var w := changes[..period];
    assert w == Deltas(closes)[..period];
    GainsNonNegative(w);
    var p := period as real;
    RsiOfScaled(Sum(Gains(w)), Sum(Losses(w)), p);
    var avgGain := Sum(Gains(w)) / p;
    var avgLoss := Sum(Losses(w)) / p;
    assert FirstPeriodRsi(closes, period) == Some(RsiOf(avgGain, avgLoss));
    if avgLoss == 0.0 {
      return Some(100.0);
    }
    var rs := avgGain / avgLoss;
    RsiOfRatio(avgGain, avgLoss);
    r := Some(100.0 - 100.0 / (1.0 + rs));
  }

  /** The loop of `calculate_rsi` that collects the change from each close to the next. */
  method CloseChanges(bars: seq<Bar>) returns (changes: seq<real>)
    requires |bars| >= 1
    ensures changes == Deltas(Closes(bars))
  {
    changes := [];
    var i := 1;
    while i < |bars|
      invariant 1 <= i <= |bars|
      invariant changes == Deltas(Closes(bars))[..i - 1]
    {
      DeltasExtend(bars, i);
      changes := changes + [bars[i].close - bars[i - 1].close];
      i := i + 1;
    }
    assert Deltas(Closes(bars))[..|bars| - 1] == Deltas(Closes(bars));
  }

  /** One more change of the closes: the loop of `calculate_rsi` appends the difference
      of two neighbouring closes. */
  lemma DeltasExtend(bars: seq<Bar>, i: nat)
    requires 1 <= i < |bars|
    ensures Deltas(Closes(bars))[..i] == Deltas(Closes(bars))[..i - 1] + [bars[i].close - bars[i - 1].close]
  {
    var d := Deltas(Closes(bars));
    assert d[i - 1] == bars[i].close - bars[i - 1].close;
  }

  /** The RSI written out as `100 - 100 / (1 + rs)` with rs the gain over the loss. */
  lemma RsiOfRatio(avgGain: real, avgLoss: real)
    requires avgGain >= 0.0 && avgLoss > 0.0
    ensures RsiOf(avgGain, avgLoss) == 100.0 - 100.0 / (1.0 + avgGain / avgLoss)
  {
  }

  /** Only the first period + 1 closes of the window count: whatever follows them,
      however recent, leaves `calculate_rsi` unchanged. */
  lemma FirstPeriodRsiIgnoresLater(closes: seq<real>, period: nat)
    requires period >= 1 && |closes| >= period + 1
    ensures FirstPeriodRsi(closes, period) == FirstPeriodRsi(closes[..period + 1], period)
  {
    assert Deltas(closes)[..period] == Deltas(closes[..period + 1])[..period];
  }

  /** On a window of exactly period + 1 closes the first and the last `period` changes
      coincide, and `calculate_rsi` agrees with the `_calculate_rsi` of the other files. */
  lemma FirstPeriodRsiOnShortWindow(closes: seq<real>, period: nat)
    requires period >= 1 && |closes| == period + 1
    ensures FirstPeriodRsi(closes, period) == Some(LastPeriodRsi(closes, period))
  {
    var w := Deltas(closes)[..period];
    assert RecentChanges(closes, period) == w;
    GainsNonNegative(w);
    RsiOfScaled(Sum(Gains(w)), Sum(Losses(w)), period as real);
  }

  // ---------------------------------------------------------------- calculate_ema

  /** `calculate_ema`: None with fewer than `period` data; otherwise the SMA of the first
      `period` data followed by one EMA step per further datum. */
  ghost function EmaList(data: seq<real>, period: nat): (r: Option<seq<real>>)
    requires period >= 1
    ensures r.None? <==> |data| < period
    ensures r.Some? ==> |r.value| == |data| - period + 1
  {
    if |data| < period then None
    else Some(seq(|data| - period + 1, i requires 0 <= i < |data| - period + 1 => EmaAfter(data, period, period + i)))
  }

  method CalculateEma(data: seq<real>, period: nat) returns (r: Option<seq<real>>)
    requires period >= 1
    ensures r == EmaList(data, period)
  {
    if |data| < period {
      return None;
    }
    var multiplier := 2.0 / (period as real + 1.0);
    var ema := [Sum(data[..period]) / period as real];
    var k := period;
    while k < |data|
      invariant period <= k <= |data|
      invariant |ema| == k - period + 1
      invariant forall i :: 0 <= i < |ema| ==> ema[i] == EmaAfter(data, period, period + i)
    {
      assert EmaAfter(data, period, k + 1) == EmaStep(ema[|ema| - 1], data[k], Multiplier(period));
      ema := ema + [(data[k] - ema[|ema| - 1]) * multiplier + ema[|ema| - 1]];
      k := k + 1;
    }
    assert ema == EmaList(data, period).value;
    return Some(ema);
  }

  /** The list starts at the mean of the first `period` data, ends at the EMA of all of
      them (the value `_calculate_ema` of extended_strategies.py returns), and stays
      inside any bounds of the data. */
  lemma EmaListShape(data: seq<real>, period: nat, lo: real, hi: real)
    requires period >= 1 && |data| >= period
    requires forall i :: 0 <= i < |data| ==> lo <= data[i] <= hi
    ensures var e := EmaList(data, period).value;
      e[0] == Sum(data[..period]) / period as real
      && e[|e| - 1] == EmaValue(data, period)
      && forall i :: 0 <= i < |e| ==> lo <= e[i] <= hi
  {
    var e := EmaList(data, period).value;
    assert e[0] == EmaAfter(data, period, period);
    assert e[|e| - 1] == EmaAfter(data, period, |data|);
    forall i | 0 <= i < |e|
      ensures lo <= e[i] <= hi
    {
      EmaAfterWithin(data, period, period + i, lo, hi);
    }
  }

  // ---------------------------------------------------------------- calculate_macd

  datatype MacdValue = MacdValue(line: real, signal: real, histogram: real)

  /** The `macd_values` loop as written: `fast[i] - slow[i]` for every index both lists
      have, pairing the two lists from their first element. */
  function PairedFromStart(fast: seq<real>, slow: seq<real>): (r: seq<real>)
    ensures |r| == if |fast| <= |slow| then |fast| else |slow|
  {
    var m := if |fast| <= |slow| then |fast| else |slow|;
    seq(m, i requires 0 <= i < m => fast[i] - slow[i])
  }

  /** The pairing evidently intended: the two lists aligned at their last element, so
      every MACD value subtracts two EMAs of the same bar. */
  function PairedFromEnd(fast: seq<real>, slow: seq<real>): (r: seq<real>)
    ensures |r| == if |fast| <= |slow| then |fast| else |slow|
  {
    var m := if |fast| <= |slow| then |fast| else |slow|;
    seq(m, i requires 0 <= i < m => fast[i + |fast| - m] - slow[i + |slow| - m])
  }

  /** The tail of `calculate_macd` from the paired values: None with fewer than
      `signal_period` of them, otherwise the last value, the last value of its EMA and
      their difference. */
  ghost function MacdFrom(values: seq<real>, signal: nat): (r: Option<MacdValue>)
    requires signal >= 1
    ensures r.Some? ==> r.value.histogram == r.value.line - r.value.signal
  {
    if |values| < signal then None
    else
      var sl := EmaList(values, signal).value;
      Some(MacdValue(values[|values| - 1], sl[|sl| - 1], values[|values| - 1] - sl[|sl| - 1]))
  }

  /** `calculate_macd` as written. */
  ghost function MacdAsWritten(closes: seq<real>, fast: nat, slow: nat, signal: nat): Option<MacdValue>
    requires fast >= 1 && slow >= 1 && signal >= 1
  {
    var f := EmaList(closes, fast);
    var s := EmaList(closes, slow);
    if f.None? || s.None? then None else MacdFrom(PairedFromStart(f.value, s.value), signal)
  }

  /** `calculate_macd` with the lists aligned at the latest bar. */
  ghost function MacdAligned(closes: seq<real>, fast: nat, slow: nat, signal: nat): Option<MacdValue>
    requires fast >= 1 && slow >= 1 && signal >= 1
  {
    var f := EmaList(closes, fast);
    var s := EmaList(closes, slow);
    if f.None? || s.None? then None else MacdFrom(PairedFromEnd(f.value, s.value), signal)
  }

  /** The tail shared by both versions: the signal line over the paired values. */
  method MacdTail(values: seq<real>, signal: nat) returns (r: Option<MacdValue>)
    requires signal >= 1
    ensures r == MacdFrom(values, signal)
  {
    if |values| < signal {
      return None;
    }
    var signalLine := CalculateEma(values, signal);
    var line := values[|values| - 1];
    var sig := signalLine.value[|signalLine.value| - 1];
    r := Some(MacdValue(line, sig, line - sig));
  }

  /** The `macd_values` loop as written: for each index of the fast list that the slow
      list also has, the difference of the two. */
  method PairFromStart(f: seq<real>, s: seq<real>) returns (values: seq<real>)
    ensures values == PairedFromStart(f, s)
  {
    ghost var paired := PairedFromStart(f, s);
    values := [];
    var i := 0;
    while i < |f|
      invariant 0 <= i <= |f|
      invariant values == paired[..if i <= |s| then i else |s|]
    {
      if i < |s| {
        assert paired[..i + 1] == paired[..i] + [f[i] - s[i]];
        values := values + [f[i] - s[i]];
      }
      i := i + 1;
    }
    assert values == paired;
  }

  /** The pairing loop aligned at the last element of both lists. */
  method PairFromEnd(f: seq<real>, s: seq<real>) returns (values: seq<real>)
    ensures values == PairedFromEnd(f, s)
  {
    ghost var paired := PairedFromEnd(f, s);
    var m := if |f| <= |s| then |f| else |s|;
    values := [];
    var i := 0;
    while i < m
      invariant 0 <= i <= m
      invariant values == paired[..i]
    {
      assert paired[..i + 1] == paired[..i] + [f[i + |f| - m] - s[i + |s| - m]];
      values := values + [f[i + |f| - m] - s[i + |s| - m]];
      i := i + 1;
    }
    assert values == paired;
  }

  /** `calculate_macd` as written: the index loop pairs the lists from the front. */
  method CalculateMacd(closes: seq<real>, fast: nat, slow: nat, signal: nat) returns (r: Option<MacdValue>)
    requires fast >= 1 && slow >= 1 && signal >= 1
    ensures r == MacdAsWritten(closes, fast, slow, signal)
  {
    var fastEma := CalculateEma(closes, fast);
    var slowEma := CalculateEma(closes, slow);
    if fastEma.None? || slowEma.None? {
      return None;
    }
    var values := PairFromStart(fastEma.value, slowEma.value);
    r := MacdTail(values, signal);
  }

  /** `calculate_macd` with the pairing aligned at the latest bar. */
  method CalculateMacdAligned(closes: seq<real>, fast: nat, slow: nat, signal: nat) returns (r: Option<MacdValue>)
    requires fast >= 1 && slow >= 1 && signal >= 1
    ensures r == MacdAligned(closes, fast, slow, signal)
  {
    var fastEma := CalculateEma(closes, fast);
    var slowEma := CalculateEma(closes, slow);
    if fastEma.None? || slowEma.None? {
      return None;
    }
    var values := PairFromEnd(fastEma.value, slowEma.value);
    r := MacdTail(values, signal);
  }

  /** As written, with fast <= slow the latest MACD value subtracts the slow EMA of the
      latest bar from the fast EMA of a bar `slow - fast` bars older. */
  lemma MacdAsWrittenStale(closes: seq<real>, fast: nat, slow: nat, signal: nat)
    requires 1 <= fast <= slow <= |closes| && signal >= 1
    requires |closes| - slow + 1 >= signal
    ensures MacdAsWritten(closes, fast, slow, signal).Some?
    ensures MacdAsWritten(closes, fast, slow, signal).value.line
      == EmaAfter(closes, fast, |closes| - slow + fast) - EmaValue(closes, slow)
  {
    var f := EmaList(closes, fast).value;
    var s := EmaList(closes, slow).value;
    var v := PairedFromStart(f, s);
    assert |v| == |s| == |closes| - slow + 1;
    assert v[|v| - 1] == f[|s| - 1] - s[|s| - 1];
  }

  /** Aligned, the latest MACD value is the fast EMA of all closes minus the slow EMA of
      all closes, whichever period is longer. */
  lemma MacdAlignedLatest(closes: seq<real>, fast: nat, slow: nat, signal: nat)
    requires 1 <= fast && 1 <= slow && fast <= |closes| && slow <= |closes| && signal >= 1
    requires |closes| - (if fast >= slow then fast else slow) + 1 >= signal
    ensures MacdAligned(closes, fast, slow, signal).Some?
    ensures MacdAligned(closes, fast, slow, signal).value.line == EmaValue(closes, fast) - EmaValue(closes, slow)
  {
    var f := EmaList(closes, fast).value;
    var s := EmaList(closes, slow).value;
    var v := PairedFromEnd(f, s);
    assert v[|v| - 1] == f[|f| - 1] - s[|s| - 1];
  }

  /** With fast period 1, slow period 2 and closes 0, 0, 3 the fast EMA list is
      [0, 0, 3] and the slow one [0, 2]: as written the latest MACD is 0 - 2 = -2, a
      bearish reading, where the latest fast and slow EMAs give 3 - 2 = 1. */
  lemma MacdMisalignmentExample()
    ensures MacdAsWritten([0.0, 0.0, 3.0], 1, 2, 1).value.line == -2.0
    ensures MacdAligned([0.0, 0.0, 3.0], 1, 2, 1).value.line == 1.0
  {
    var closes := [0.0, 0.0, 3.0];
    MacdAsWrittenStale(closes, 1, 2, 1);
    MacdAlignedLatest(closes, 1, 2, 1);
    assert closes[..1] == [0.0] && closes[..2] == [0.0, 0.0];
    assert EmaAfter(closes, 1, 1) == 0.0;
    assert EmaAfter(closes, 1, 2) == 0.0;
    assert EmaAfter(closes, 1, 3) == 3.0;
    assert EmaAfter(closes, 2, 2) == 0.0;
    assert EmaAfter(closes, 2, 3) == 2.0;
  }

  // ---------------------------------------------------------------- crossings

  /** The stored previous pair of a crossover strategy. */
  datatype PrevPair = PrevPair(prevFast: Option<real>, prevSlow: Option<real>)

  /** One crossover decision on the new pair, which is stored whatever happens: a buy of
      `(cash * position_size) / price` on a bullish cross without a position, a sell of
      everything on a bearish cross with one. */
  function CrossStep(positionSize: real, s: PrevPair, fast: real, slow: real, price: real, cash: real,
                     position: Option<real>): Step<PrevPair>
    requires price != 0.0
  {
    var next := PrevPair(Some(fast), Some(slow));
    match CrossMove(s.prevFast, s.prevSlow, fast, slow, position.Some?)
    case Enter => Step(next, [Market(Buy, BuyQuantity(cash, positionSize, price))], Some("BUY"))
    case Exit => Step(next, [SellAll], Some("SELL"))
    case Stay => Step(next, [], None)
  }

  /** Both directions of the crossover rule, and the pair is always stored. */
  lemma CrossStepCases(positionSize: real, s: PrevPair, fast: real, slow: real, price: real, cash: real,
                       position: Option<real>)
    requires price != 0.0
    ensures var o := CrossStep(positionSize, s, fast, slow, price, cash, position);
      o.state == PrevPair(Some(fast), Some(slow))
      && (o.signal == Some("BUY") <==>
            s.prevFast.Some? && s.prevSlow.Some? && s.prevFast.value <= s.prevSlow.value && fast > slow && position.None?)
      && (o.signal == Some("BUY") ==> o.orders == [Market(Buy, cash * positionSize / price)])
      && (o.signal == Some("SELL") <==>
            s.prevFast.Some? && s.prevSlow.Some? && s.prevFast.value >= s.prevSlow.value && fast < slow && position.Some?)
      && (o.signal == Some("SELL") ==> o.orders == [SellAll])
      && (o.signal.None? <==> o.orders == [])
  {
    CrossMoveCases(s.prevFast, s.prevSlow, fast, slow, position.Some?);
  }

  class MacdTrendStrategy {
    const fastPeriod: nat
    const slowPeriod: nat
    const signalPeriod: nat
    const positionSize: real

    var prevMacd: Option<real>
    var prevSignal: Option<real>

    constructor (fastPeriod: nat, slowPeriod: nat, signalPeriod: nat, positionSize: real)
      ensures this.fastPeriod == fastPeriod && this.slowPeriod == slowPeriod
      ensures this.signalPeriod == signalPeriod && this.positionSize == positionSize
      ensures prevMacd == None && prevSignal == None
    {
      this.fastPeriod := fastPeriod;
      this.slowPeriod := slowPeriod;
      this.signalPeriod := signalPeriod;
      this.positionSize := positionSize;
      prevMacd := None;
      prevSignal := None;
    }

    /** `on_trading_iteration` on the aligned MACD: nothing with fewer than
        slow + signal + 1 bars or no MACD; otherwise `CrossStep` on the MACD line and its
        signal, which are stored for the next iteration. */
    method OnTradingIteration(bars: History, cash: real, position: Option<real>) returns (orders: seq<Order>, signal: Option<string>)
      requires fastPeriod >= 1 && slowPeriod >= 1 && signalPeriod >= 1
      requires bars.History? ==> Priced(bars.bars)
      modifies this
      ensures var closes := if bars.History? then Closes(bars.bars) else [];
        var m := MacdAligned(closes, fastPeriod, slowPeriod, signalPeriod);
        if bars.NoHistory? || |bars.bars| < slowPeriod + signalPeriod + 1 || m.None? then
          orders == [] && signal.None? && prevMacd == old(prevMacd) && prevSignal == old(prevSignal)
        else
          Step(PrevPair(prevMacd, prevSignal), orders, signal)
          == CrossStep(positionSize, PrevPair(old(prevMacd), old(prevSignal)), m.value.line, m.value.signal,
                       LastClose(bars.bars), cash, position)
    {
      orders, signal := [], None;
      if bars.NoHistory? || |bars.bars| < slowPeriod + signalPeriod + 1 {
        return;
      }
      var closes := Closes(bars.bars);
      var m := CalculateMacdAligned(closes, fastPeriod, slowPeriod, signalPeriod);
      if m.None? {
        return;
      }
      var price := LastClose(bars.bars);
      assert price > 0.0;
      var o := CrossStep(positionSize, PrevPair(prevMacd, prevSignal), m.value.line, m.value.signal, price, cash, position);
      prevMacd, prevSignal := o.state.prevFast, o.state.prevSlow;
      orders, signal := o.orders, o.signal;
    }
  }

  class EmaCrossStrategy {
    const fastPeriod: nat
    const slowPeriod: nat
    const positionSize: real

    var prevFast: Option<real>
    var prevSlow: Option<real>

    constructor (fastPeriod: nat, slowPeriod: nat, positionSize: real)
      ensures this.fastPeriod == fastPeriod && this.slowPeriod == slowPeriod && this.positionSize == positionSize
      ensures prevFast == None && prevSlow == None
    {
      this.fastPeriod := fastPeriod;
      this.slowPeriod := slowPeriod;
      this.positionSize := positionSize;
      prevFast := None;
      prevSlow := None;
    }

    /** `on_trading_iteration`: nothing with fewer than slow_period + 1 bars or fewer
        bars than fast_period; otherwise `CrossStep` on the latest fast and slow EMA. */
    method OnTradingIteration(bars: History, cash: real, position: Option<real>) returns (orders: seq<Order>)
      requires fastPeriod >= 1 && slowPeriod >= 1
      requires bars.History? ==> Priced(bars.bars)
      modifies this
      ensures bars.NoHistory? || |bars.bars| < slowPeriod + 1 || |bars.bars| < fastPeriod ==>
        orders == [] && prevFast == old(prevFast) && prevSlow == old(prevSlow)
      ensures bars.History? && |bars.bars| >= slowPeriod + 1 && |bars.bars| >= fastPeriod ==>
        var closes := Closes(bars.bars);
        var o := CrossStep(positionSize, PrevPair(old(prevFast), old(prevSlow)), EmaValue(closes, fastPeriod),
                           EmaValue(closes, slowPeriod), LastClose(bars.bars), cash, position);
        PrevPair(prevFast, prevSlow) == o.state && orders == o.orders
    {
      orders := [];
      if bars.NoHistory? || |bars.bars| < slowPeriod + 1 {
        return;
      }
      var closes := Closes(bars.bars);
      var fastEma := CalculateEma(closes, fastPeriod);
      var slowEma := CalculateEma(closes, slowPeriod);
      if fastEma.None? || slowEma.None? {
        return;
      }
      var fast := fastEma.value[|fastEma.value| - 1];
      var slow := slowEma.value[|slowEma.value| - 1];
      assert fast == EmaValue(closes, fastPeriod) && slow == EmaValue(closes, slowPeriod);
      var price := closes[|closes| - 1];
      assert price == bars.bars[|bars.bars| - 1].close > 0.0;
      var o := CrossStep(positionSize, PrevPair(prevFast, prevSlow), fast, slow, price, cash, position);
      prevFast, prevSlow := o.state.prevFast, o.state.prevSlow;
      orders := o.orders;
    }
  }

  // ---------------------------------------------------------------- RSI reversal

  /** The dict stored in `last_signal`; its timestamp comes from the framework clock and
      is not modelled. */
  datatype SignalRecord = SignalRecord(kind: string, price: real, rsi: real, reason: Value)

  /** `on_trading_iteration` as written: once bars arrive, the guard reads
      `self.ri_period`, which no code defines, and raises AttributeError. */
  function RsiReversalAsWritten(lastSignal: Option<SignalRecord>, bars: History): Result<Step<Option<SignalRecord>>, string>
  {
    if bars.NoHistory? then Ok(Step(lastSignal, [], None))
    else Err("AttributeError: 'RSIReversalStrategy' object has no attribute 'ri_period'")
  }

  /** As written the strategy never trades: every iteration either returns at the guard
      or raises. */
  lemma RsiReversalCrashes(lastSignal: Option<SignalRecord>, bars: History)
    ensures var r := RsiReversalAsWritten(lastSignal, bars);
      (r.Err? <==> bars.History?) && (r.Ok? ==> r.value.orders == [] && r.value.state == lastSignal)
  {
  }

  /** The iteration with the guard on `rsi_period` as evidently intended: with at least
      rsi_period + 1 bars, a buy of `(cash * position_size) / price` when the RSI is
      under `oversold` and there is no position, a sell of everything when it is over
      `overbought` and there is one; `last_signal` records either. */
  function RsiReversalStep(rsiPeriod: nat, oversold: real, overbought: real, positionSize: real,
                           lastSignal: Option<SignalRecord>, bars: History, cash: real,
                           position: Option<real>): Step<Option<SignalRecord>>
    requires rsiPeriod >= 1
    requires bars.History? ==> Priced(bars.bars)
  {
    if bars.NoHistory? || |bars.bars| < rsiPeriod + 1 then Step(lastSignal, [], None)
    else
      var rsi := FirstPeriodRsi(Closes(bars.bars), rsiPeriod).value;
      var price := LastClose(bars.bars);
      if rsi < oversold && position.None? then
        Step(Some(SignalRecord("BUY", price, rsi, Formatted("RSI oversold at {:.2f}", [rsi]))),
             [Market(Buy, BuyQuantity(cash, positionSize, price))], Some("BUY"))
      else if rsi > overbought && position.Some? then
        Step(Some(SignalRecord("SELL", price, rsi, Formatted("RSI overbought at {:.2f}", [rsi]))), [SellAll], Some("SELL"))
      else Step(lastSignal, [], None)
  }

  /** Both directions of the corrected rule. */
  lemma RsiReversalCases(rsiPeriod: nat, oversold: real, overbought: real, positionSize: real,
                         lastSignal: Option<SignalRecord>, bars: History, cash: real, position: Option<real>)
    requires rsiPeriod >= 1
    requires bars.History? ==> Priced(bars.bars)
    ensures var o := RsiReversalStep(rsiPeriod, oversold, overbought, positionSize, lastSignal, bars, cash, position);
      var ready := bars.History? && |bars.bars| >= rsiPeriod + 1;
      var rsi := if ready then FirstPeriodRsi(Closes(bars.bars), rsiPeriod).value else 50.0;
      (o.signal == Some("BUY") <==> ready && rsi < oversold && position.None?)
      && (o.signal == Some("BUY") ==>
            o.orders == [Market(Buy, cash * positionSize / LastClose(bars.bars))] && o.state.value.kind == "BUY")
      && (o.signal == Some("SELL") <==> ready && rsi > overbought && position.Some?)
      && (o.signal == Some("SELL") ==> o.orders == [SellAll] && o.state.value.kind == "SELL")
      && (o.signal.None? ==> o.orders == [] && o.state == lastSignal)
  {
  }

  class RsiReversalStrategy {
    const rsiPeriod: nat
    const oversold: real
    const overbought: real
    const positionSize: real

    var lastSignal: Option<SignalRecord>

    constructor (rsiPeriod: nat, oversold: real, overbought: real, positionSize: real)
      ensures this.rsiPeriod == rsiPeriod && this.oversold == oversold && this.overbought == overbought
      ensures this.positionSize == positionSize && lastSignal == None
    {
      this.rsiPeriod := rsiPeriod;
      this.oversold := oversold;
      this.overbought := overbought;
      this.positionSize := positionSize;
      lastSignal := None;
    }

    /** `on_trading_iteration` with the corrected guard, as `RsiReversalStep`. */
    method OnTradingIteration(bars: History, cash: real, position: Option<real>) returns (orders: seq<Order>, signal: Option<string>)
      requires rsiPeriod >= 1
      requires bars.History? ==> Priced(bars.bars)
      modifies this
      ensures Step(lastSignal, orders, signal)
        == RsiReversalStep(rsiPeriod, oversold, overbought, positionSize, old(lastSignal), bars, cash, position)
    {
      orders, signal := [], None;
      if bars.NoHistory? || |bars.bars| < rsiPeriod + 1 {
        return;
      }
      var rsi := CalculateRsi(bars.bars, rsiPeriod);
      var price := LastClose(bars.bars);
      if rsi.value < oversold && position.None? {
        orders := [Market(Buy, BuyQuantity(cash, positionSize, price))];
        signal := Some("BUY");
        lastSignal := Some(SignalRecord("BUY", price, rsi.value, Formatted("RSI oversold at {:.2f}", [rsi.value])));
      } else if rsi.value > overbought && position.Some? {
        orders := [SellAll];
        signal := Some("SELL");
        lastSignal := Some(SignalRecord("SELL", price, rsi.value, Formatted("RSI overbought at {:.2f}", [rsi.value])));
      }
    }
  }

  // ---------------------------------------------------------------- grid trading

  /** The grid's lower bound `center * (1 - range)`. */
  function GridLower(center: real, priceRange: real): real
  {
    center * (1.0 - priceRange)
  }

  /** The spacing `(upper - lower) / (levels - 1)` with the upper bound `center * (1 + range)`. */
  function GridSpacing(center: real, priceRange: real, levels: nat): real
    requires levels >= 2
  {
    (center * (1.0 + priceRange) - GridLower(center, priceRange)) / (levels - 1) as real
  }

  /** `lower + i * spacing`. */
  function GridLevel(center: real, priceRange: real, levels: nat, i: nat): real
    requires levels >= 2
  {
    GridLower(center, priceRange) + i as real * GridSpacing(center, priceRange, levels)
  }

  /** The first level is the lower bound and the last one the upper bound. */
  lemma GridLevelEnds(center: real, priceRange: real, levels: nat)
    requires levels >= 2
    ensures GridLevel(center, priceRange, levels, 0) == center * (1.0 - priceRange)
    ensures GridLevel(center, priceRange, levels, levels - 1) == center * (1.0 + priceRange)
  {
    var upper := center * (1.0 + priceRange);
    var lower := center * (1.0 - priceRange);
    var n := (levels - 1) as real;
    assert (upper - lower) / n * n == upper - lower;
  }

  /** `grid_orders` after the levels `ls` were visited: a buy at every level under the
      price, a sell at every level over it, nothing at a level equal to it. */
  function GridLayout(ls: seq<real>, price: real): map<real, Side>
  {
    if |ls| == 0 then map[]
    else
      var m := GridLayout(ls[..|ls| - 1], price);
      var l := ls[|ls| - 1];
      if l < price then m[l := Buy] else if l > price then m[l := Sell] else m
  }

  /** The limit orders submitted while visiting `ls`, in order. */
  function GridOrdersFor(ls: seq<real>, price: real, size: real): seq<Order>
  {
    if |ls| == 0 then []
    else
      var os := GridOrdersFor(ls[..|ls| - 1], price, size);
      var l := ls[|ls| - 1];
      if l < price then os + [Limit(Buy, size, l)] else if l > price then os + [Limit(Sell, size, l)] else os
  }

  /** Every level other than the price is a key, every key is a level, and a key is a
      buy exactly when it lies under the price. */
  lemma {:induction false} GridLayoutSides(ls: seq<real>, price: real)
    ensures forall l :: l in GridLayout(ls, price) <==> l in ls && l != price
    ensures forall l :: l in GridLayout(ls, price) ==> (GridLayout(ls, price)[l] == Buy <==> l < price)
  {
    if |ls| > 0 {
      GridLayoutSides(ls[..|ls| - 1], price);
      assert ls == ls[..|ls| - 1] + [ls[|ls| - 1]];
    }
  }

  /** Every submitted order is a buy strictly under the price or a sell strictly over
      it, for `position_size`. */
  lemma {:induction false} GridOrdersSides(ls: seq<real>, price: real, size: real)
    ensures forall o :: o in GridOrdersFor(ls, price, size) ==>
      o.Limit? && o.quantity == size && (o.side == Buy <==> o.limitPrice < price) && o.limitPrice != price
  {
    if |ls| > 0 {
      GridOrdersSides(ls[..|ls| - 1], price, size);
    }
  }

  /** The `grid_levels` levels from the lower to the upper bound. */
  function GridLevels(center: real, priceRange: real, levels: nat): (ls: seq<real>)
    requires levels >= 2
    ensures |ls| == levels
  {
    seq(levels, i requires 0 <= i < levels => GridLevel(center, priceRange, levels, i))
  }

  /** The `initialize_grid` loop: one limit order per level other than the price, and
      the side recorded by level. */
  method LayLevels(center: real, priceRange: real, levels: nat, price: real, size: real)
    returns (layout: map<real, Side>, orders: seq<Order>)
    requires levels >= 2
    ensures layout == GridLayout(GridLevels(center, priceRange, levels), price)
    ensures orders == GridOrdersFor(GridLevels(center, priceRange, levels), price, size)
  {
    var lower := GridLower(center, priceRange);
    var spacing := GridSpacing(center, priceRange, levels);
    ghost var ls := GridLevels(center, priceRange, levels);
    layout, orders := map[], [];
    var i := 0;
    while i < levels
      invariant 0 <= i <= levels
      invariant layout == GridLayout(ls[..i], price)
      invariant orders == GridOrdersFor(ls[..i], price, size)
    {
      var level := lower + i as real * spacing;
      assert level == GridLevel(center, priceRange, levels, i) == ls[i];
      assert ls[..i + 1][..i] == ls[..i];
      if level < price {
        orders := orders + [Limit(Buy, size, level)];
        layout := layout[level := Buy];
      } else if level > price {
        orders := orders + [Limit(Sell, size, level)];
        layout := layout[level := Sell];
      }
      i := i + 1;
    }
    assert ls[..levels] == ls;
  }

  /** `center_price or current_price`. */
  function GridCenter(centerPrice: Option<real>, price: real): real
  {
    if Truthy(centerPrice) then centerPrice.value else price
  }

  class GridTradingStrategy {
    const gridLevels: nat
    const positionSize: real
    const centerPrice: Option<real>
    const priceRange: real

    var gridInitialized: bool
    var gridOrders: map<real, Side>

    constructor (gridLevels: nat, positionSize: real, centerPrice: Option<real>, priceRange: real)
      ensures this.gridLevels == gridLevels && this.positionSize == positionSize
      ensures this.centerPrice == centerPrice && this.priceRange == priceRange
      ensures !gridInitialized && gridOrders == map[]
    {
      this.gridLevels := gridLevels;
      this.positionSize := positionSize;
      this.centerPrice := centerPrice;
      this.priceRange := priceRange;
      gridInitialized := false;
      gridOrders := map[];
    }

    /** The levels of the grid when the latest close is `price`. */
    function Levels(price: real): seq<real>
      requires gridLevels >= 2
    {
      GridLevels(GridCenter(centerPrice, price), priceRange, gridLevels)
    }

    /** `initialize_grid`: nothing without bars; otherwise one limit order per level
        that differs from the latest close, recorded in `grid_orders` by price. */
    method InitializeGrid(bars: History) returns (orders: seq<Order>)
      requires gridLevels >= 2
      requires bars.History? ==> |bars.bars| > 0
      modifies this
      ensures gridInitialized == old(gridInitialized)
      ensures bars.NoHistory? ==> orders == [] && gridOrders == old(gridOrders)
      ensures bars.History? ==>
        var price := LastClose(bars.bars);
        gridOrders == old(gridOrders) + GridLayout(Levels(price), price)
        && orders == GridOrdersFor(Levels(price), price, positionSize)
    {
      orders := [];
      if bars.NoHistory? {
        return;
      }
      var price := bars.bars[|bars.bars| - 1].close;
      var layout;
      layout, orders := LayLevels(GridCenter(centerPrice, price), priceRange, gridLevels, price, positionSize);
      gridOrders := gridOrders + layout;
    }

    /** `on_trading_iteration`: the first iteration lays out the grid and marks it laid
        out even when no bars came back, so that grid then never appears; every later
        iteration changes nothing (`check_grid_orders` is empty). */
    method OnTradingIteration(bars: History) returns (orders: seq<Order>)
      requires gridLevels >= 2
      requires bars.History? ==> |bars.bars| > 0
      modifies this
      ensures gridInitialized
      ensures old(gridInitialized) ==> orders == [] && gridOrders == old(gridOrders)
      ensures !old(gridInitialized) && bars.NoHistory? ==> orders == [] && gridOrders == old(gridOrders)
      ensures !old(gridInitialized) && bars.History? ==>
        var price := LastClose(bars.bars);
        gridOrders == old(gridOrders) + GridLayout(Levels(price), price)
        && orders == GridOrdersFor(Levels(price), price, positionSize)
    {
      orders := [];
      if !gridInitialized {
        orders := InitializeGrid(bars);
        gridInitialized := true;
      }
    }
  }

  // ---------------------------------------------------------------- registry

  datatype StrategyKind = RsiReversalKind | MacdTrendKind | BollingerReversionKind | GridTradingKind | EmaCrossKind

  /** STRATEGY_REGISTRY. */
  function StrategyRegistry(): Table<StrategyKind>
  {
    [Entry("rsi_reversal", RsiReversalKind), Entry("macd_trend", MacdTrendKind),
     Entry("bollinger_reversion", BollingerReversionKind), Entry("grid_trading", GridTradingKind),
     Entry("ema_cross", EmaCrossKind)]
  }

  /** `get_strategy` is None exactly for ids outside the five registry keys. */
  lemma StrategyRegistryLookup(id: string)
    ensures Keys(StrategyRegistry()) == ["rsi_reversal", "macd_trend", "bollinger_reversion", "grid_trading", "ema_cross"]
    ensures Get(StrategyRegistry(), id).None? <==>
      id !in ["rsi_reversal", "macd_trend", "bollinger_reversion", "grid_trading", "ema_cross"]
    ensures Get(StrategyRegistry(), "ema_cross") == Some(EmaCrossKind)
  {
    assert Keys(StrategyRegistry()) == ["rsi_reversal", "macd_trend", "bollinger_reversion", "grid_trading", "ema_cross"];
  }
}
