// Pieces shared by the five Lumibot strategy files: the bars an iteration reads,
// the orders it submits, the signal dicts it emits, and the indicator helpers that
// several of those files repeat word for word (RSI over the last `period` changes,
// the average true range, the SMA-seeded exponential moving average).
//
// The Lumibot framework calls (get_historical_prices, get_position, create_order,
// submit_order, buy, sell, sell_all, get_cash) are not modelled: an iteration takes
// the bars and the position quantity as inputs and returns the orders it would submit.

module LumibotCommon {
  import opened Common

  /** One bar of `get_historical_prices`. */
  datatype Bar = Bar(high: real, low: real, close: real, volume: real)

  /** A bar whose close lies between its low and its high. */
  predicate WellFormed(b: Bar)
  {
    b.low <= b.close <= b.high
  }

  datatype Side = Buy | Sell

  /** What an iteration hands to the broker. */
  datatype Order =
    | Market(side: Side, quantity: real)
    | Limit(side: Side, quantity: real, limitPrice: real)
    | SellAll

  /** A value inside a signal's `data` dict. */
  datatype Value =
    | Num(real)
    | Count(int)
    | Text(string)
    | Texts(seq<string>)
    | Null
    | Nested(fields: seq<Field>)
    | Formatted(template: string, args: seq<real>)   // an f-string with float arguments

  datatype Field = Field(key: string, value: Value)

  /** The dict `emit_signal` appends to `self.signals`. Its `id` and `timestamp` come
      from the wall clock and are not part of the model. */
  datatype Emitted = Emitted(signalType: string, strategy: string, data: seq<Field>)

  /** What `get_historical_prices` returns: None, or the bars of the window. */
  datatype History = NoHistory | History(bars: seq<Bar>)

  /** What one trading iteration leaves behind: the strategy's new fields, the orders it
      submitted and the signal it emitted, if any. */
  datatype Outcome<S> = Outcome(state: S, orders: seq<Order>, signal: Option<Emitted>)

  /** `position is not None and position.quantity > 0`, where `None` is no position. */
  predicate HasPosition(quantity: Option<real>)
  {
    quantity.Some? && quantity.value > 0.0
  }

  /** The quantity of a position that exists (0 when there is none). */
  function Held(quantity: Option<real>): real
  {
    if quantity.Some? then quantity.value else 0.0
  }

  /** An optional number as a reported value: a `Some` (zero included) becomes that number, `None` becomes null. */
  function OrNum(o: Option<real>): Value
  {
    if o.Some? then Num(o.value) else Null
  }

  /** `(price - entry) / entry * 100 if entry else 0`. */
  function PnlPercent(entry: Option<real>, price: real): (r: real)
    ensures !Truthy(entry) ==> r == 0.0
    ensures Truthy(entry) ==> r * entry.value == (price - entry.value) * 100.0
  {
    if Truthy(entry) then (price - entry.value) / entry.value * 100.0 else 0.0
  }

  /** The decision every entry/exit strategy shares: enter only without a position,
      exit only with one, otherwise stay. */
  datatype Move = Enter | Exit | Stay

  function Decide(entry: bool, exit: bool, has: bool): Move
  {
    if entry && !has then Enter else if exit && has then Exit else Stay
  }

  /** A strategy enters exactly when its entry test holds and it holds nothing, and
      exits exactly when its exit test holds and it holds something. */
  lemma DecideCases(entry: bool, exit: bool, has: bool)
    ensures Decide(entry, exit, has) == Enter <==> entry && !has
    ensures Decide(entry, exit, has) == Exit <==> exit && has
    ensures Decide(entry, exit, has) == Stay <==> !(entry && !has) && !(exit && has)
  {
  }

  // ---------------------------------------------------------------- price columns

  function Closes(bars: seq<Bar>): (r: seq<real>)
    ensures |r| == |bars|
    ensures forall i :: 0 <= i < |bars| ==> r[i] == bars[i].close
  {
    seq(|bars|, i requires 0 <= i < |bars| => bars[i].close)
  }

  function Highs(bars: seq<Bar>): (r: seq<real>)
    ensures |r| == |bars|
    ensures forall i :: 0 <= i < |bars| ==> r[i] == bars[i].high
  {
    seq(|bars|, i requires 0 <= i < |bars| => bars[i].high)
  }

  function Lows(bars: seq<Bar>): (r: seq<real>)
    ensures |r| == |bars|
    ensures forall i :: 0 <= i < |bars| ==> r[i] == bars[i].low
  {
    seq(|bars|, i requires 0 <= i < |bars| => bars[i].low)
  }

  /** `[prices[i] - prices[i-1] for i in range(1, len(prices))]`. */
  function Deltas(prices: seq<real>): (r: seq<real>)
    ensures |r| == if |prices| == 0 then 0 else |prices| - 1
    ensures forall i :: 0 <= i < |r| ==> r[i] == prices[i + 1] - prices[i]
  {
    if |prices| == 0 then [] else seq(|prices| - 1, i requires 0 <= i < |prices| - 1 => prices[i + 1] - prices[i])
  }

  /** `d if d > 0 else 0` (equivalently `max(0, d)`) for every change. */
  function Gains(ds: seq<real>): (r: seq<real>)
    ensures |r| == |ds|
    ensures forall i :: 0 <= i < |ds| ==> r[i] >= 0.0 && (r[i] == ds[i] || r[i] == 0.0)
  {
    seq(|ds|, i requires 0 <= i < |ds| => if ds[i] > 0.0 then ds[i] else 0.0)
  }

  /** `-d if d < 0 else 0` (equivalently `abs(min(0, d))`) for every change. */
  function Losses(ds: seq<real>): (r: seq<real>)
    ensures |r| == |ds|
    ensures forall i :: 0 <= i < |ds| ==> r[i] >= 0.0 && (r[i] == -ds[i] || r[i] == 0.0)
  {
    seq(|ds|, i requires 0 <= i < |ds| => if ds[i] < 0.0 then -ds[i] else 0.0)
  }

  lemma {:induction false} GainsNonNegative(ds: seq<real>)
    ensures Sum(Gains(ds)) >= 0.0 && Sum(Losses(ds)) >= 0.0
  {
    SumNonNegative(Gains(ds));
    SumNonNegative(Losses(ds));
  }

  // ---------------------------------------------------------------- RSI

  /** `100 - 100 / (1 + avg_gain / avg_loss)`, or 100 when there is no loss. */
  function RsiOf(avgGain: real, avgLoss: real): (r: real)
    requires avgGain >= 0.0 && avgLoss >= 0.0
    ensures 0.0 <= r <= 100.0
    ensures r == 100.0 <==> avgLoss == 0.0
    ensures avgLoss > 0.0 ==> (100.0 - r) * (avgGain + avgLoss) == 100.0 * avgLoss
    ensures avgGain == 0.0 && avgLoss > 0.0 ==> r == 0.0
  {
    if avgLoss == 0.0 then 100.0
    else
      var rs := avgGain / avgLoss;
      assert rs >= 0.0;
      assert avgGain == 0.0 ==> rs == 0.0;
      var q := 100.0 / (1.0 + rs);
      assert 0.0 < q <= 100.0 by {
        assert q * (1.0 + rs) == 100.0;
      }
      assert (1.0 + rs) * avgLoss == avgGain + avgLoss;
      assert q * (avgGain + avgLoss) == 100.0 * avgLoss by {
        calc {
          q * (avgGain + avgLoss);
          q * ((1.0 + rs) * avgLoss);
          (q * (1.0 + rs)) * avgLoss;
          100.0 * avgLoss;
        }
      }
      100.0 - q
  }

  /** Dividing both sums by the same positive count does not change the RSI. */
  lemma RsiOfScaled(gains: real, losses: real, p: real)
    requires gains >= 0.0 && losses >= 0.0 && p > 0.0
    ensures gains / p >= 0.0 && losses / p >= 0.0
    ensures RsiOf(gains / p, losses / p) == RsiOf(gains, losses)
  {
    assert gains / p * p == gains && losses / p * p == losses;
    if losses != 0.0 {
      var a := gains / p;
      var b := losses / p;
      assert a * p == gains && b * p == losses;
      var q := a / b;
      assert q * b == a;
      assert q * losses == gains by {
        calc {
          q * losses;
          q * (b * p);
          (q * b) * p;
          gains;
        }
      }
      assert (gains / losses) * losses == gains;
    }
  }

  lemma MulNonNegative(a: real, b: real)
    requires 0.0 <= a && 0.0 <= b
    ensures 0.0 <= a * b
  {
  }

  /** `deltas[-period:]`: the last `period` price changes. */
  function RecentChanges(prices: seq<real>, period: nat): (r: seq<real>)
    requires period >= 1
    ensures |prices| >= period + 1 ==> |r| == period
    ensures r == LastN(Deltas(prices), period)
  {
    LastN(Deltas(prices), period)
  }

  /** `_calculate_rsi` of base.py, citarion_integration.py and ai_strategies.py:
      50 with fewer than period + 1 prices, otherwise the RSI of the average gain and
      loss over the last `period` changes, which is the RSI of their sums. */
  function LastPeriodRsi(prices: seq<real>, period: nat): (r: real)
    requires period >= 1
    ensures |prices| < period + 1 ==> r == 50.0
    ensures 0.0 <= r <= 100.0
    ensures |prices| >= period + 1 ==>
      var w := RecentChanges(prices, period);
      Sum(Gains(w)) >= 0.0 && Sum(Losses(w)) >= 0.0 && r == RsiOf(Sum(Gains(w)), Sum(Losses(w)))
  {
    if |prices| < period + 1 then 50.0
    else
      var w := RecentChanges(prices, period);
      GainsNonNegative(w);
      var p := period as real;
      RsiOfScaled(Sum(Gains(w)), Sum(Losses(w)), p);
      RsiOf(Sum(Gains(w)) / p, Sum(Losses(w)) / p)
  }

  /** The RSI of a price series that never falls is 100. */
  lemma {:induction false} RsiOfRisingSeries(prices: seq<real>, period: nat)
    requires period >= 1 && |prices| >= period + 1
    requires forall k :: 0 <= k < |Deltas(prices)| ==> Deltas(prices)[k] >= 0.0
    ensures LastPeriodRsi(prices, period) == 100.0
  {
    var w := RecentChanges(prices, period);
    assert forall k :: 0 <= k < |w| ==> w[k] >= 0.0 by {
      var ds := Deltas(prices);
      assert forall k :: 0 <= k < |w| ==> w[k] == ds[|ds| - |w| + k];
    }
    NoLosses(w);
  }

  /** The RSI of a price series that only falls is 0. */
  lemma {:induction false} RsiOfFallingSeries(prices: seq<real>, period: nat)
    requires period >= 1 && |prices| >= period + 1
    requires forall k :: 0 <= k < |Deltas(prices)| ==> Deltas(prices)[k] < 0.0
    ensures LastPeriodRsi(prices, period) == 0.0
  {
    var w := RecentChanges(prices, period);
    assert forall k :: 0 <= k < |w| ==> w[k] < 0.0 by {
      var ds := Deltas(prices);
      assert forall k :: 0 <= k < |w| ==> w[k] == ds[|ds| - |w| + k];
    }
    OnlyLosses(w);
  }

  lemma {:induction false} NoLosses(w: seq<real>)
    requires forall k :: 0 <= k < |w| ==> w[k] >= 0.0
    ensures Sum(Losses(w)) == 0.0
  {
    SumBounds(Losses(w), 0.0, 0.0);
  }

  lemma {:induction false} OnlyLosses(w: seq<real>)
    requires |w| > 0
    requires forall k :: 0 <= k < |w| ==> w[k] < 0.0
    ensures Sum(Gains(w)) == 0.0 && Sum(Losses(w)) > 0.0
  {
    SumBounds(Gains(w), 0.0, 0.0);
    SumPositive(Losses(w));
  }

  // ---------------------------------------------------------------- ATR

  /** `max(high - low, abs(high - prev_close), abs(low - prev_close))`. */
  function TrueRange(prevClose: real, b: Bar): real
  {
    Max(Max(b.high - b.low, Abs(b.high - prevClose)), Abs(b.low - prevClose))
  }

  /** The true range is the largest of its three candidates, hence never negative. */
  lemma TrueRangeIsLargest(prevClose: real, b: Bar)
    ensures var r := TrueRange(prevClose, b);
      r >= 0.0
      && r >= b.high - b.low && r >= Abs(b.high - prevClose) && r >= Abs(b.low - prevClose)
      && (r == b.high - b.low || r == Abs(b.high - prevClose) || r == Abs(b.low - prevClose))
  {
  }

  /** The true range of every bar after the first, each against the close before it. */
  function TrueRanges(bars: seq<Bar>): seq<real>
  {
    if |bars| < 2 then [] else TrueRanges(bars[..|bars| - 1]) + [TrueRange(bars[|bars| - 2].close, bars[|bars| - 1])]
  }

  lemma {:induction false} TrueRangesLength(bars: seq<Bar>)
    ensures |TrueRanges(bars)| == if |bars| == 0 then 0 else |bars| - 1
  {
    if |bars| >= 2 {
      TrueRangesLength(bars[..|bars| - 1]);
    }
  }

  lemma {:induction false} TrueRangesIndex(bars: seq<Bar>)
    ensures |TrueRanges(bars)| == if |bars| == 0 then 0 else |bars| - 1
    ensures forall i :: 0 <= i < |TrueRanges(bars)| ==> TrueRanges(bars)[i] == TrueRange(bars[i].close, bars[i + 1])
  {
    if |bars| >= 2 {
      var init := bars[..|bars| - 1];
      TrueRangesIndex(init);
      assert forall i :: 0 <= i < |init| ==> init[i] == bars[i];
    }
  }

  /** `sum(true_ranges[-period:]) / period if true_ranges else 0`: the divisor is
      `period` even when fewer true ranges exist. */
  ghost function AtrOf(bars: seq<Bar>, period: nat): real
    requires period >= 1
  {
    var trs := TrueRanges(bars);
    if |trs| == 0 then 0.0 else Sum(LastN(trs, period)) / period as real
  }

  /** `_calculate_atr` of extended_strategies.py and citarion_integration.py: the loop
      that collects the true ranges, then their average over the last `period`. */
  method CalculateAtr(bars: seq<Bar>, period: nat) returns (atr: real)
    requires period >= 1
    ensures atr == AtrOf(bars, period)
  {
    var trueRanges: seq<real> := [];
    var i := 1;
    while i < |bars|
      invariant 1 <= i <= if |bars| == 0 then 1 else |bars|
      invariant trueRanges == TrueRanges(bars[..if |bars| == 0 then 0 else i])
    {
      var tr := TrueRange(bars[i - 1].close, bars[i]);
      assert bars[..i + 1][..i] == bars[..i];
      trueRanges := trueRanges + [tr];
      i := i + 1;
    }
    assert bars[..if |bars| == 0 then 0 else i] == bars;
    if |trueRanges| > 0 {
      atr := Sum(LastN(trueRanges, period)) / period as real;
    } else {
      atr := 0.0;
    }
  }

  /** The ATR is never negative and never above the largest true range it averages. */
  lemma {:induction false} AtrBounds(bars: seq<Bar>, period: nat, top: real)
    requires period >= 1
    requires forall i :: 0 <= i < |TrueRanges(bars)| ==> TrueRanges(bars)[i] <= top
    ensures 0.0 <= AtrOf(bars, period)
    ensures |bars| >= 2 ==> AtrOf(bars, period) <= top
  {
    var trs := TrueRanges(bars);
    TrueRangesIndex(bars);
    if |trs| > 0 {
      assert forall i :: 0 <= i < |trs| ==> 0.0 <= trs[i] <= top by {
        forall i | 0 <= i < |trs|
          ensures 0.0 <= trs[i]
        {
          TrueRangeIsLargest(bars[i].close, bars[i + 1]);
        }
      }
      assert AtrOf(bars, period) == Sum(LastN(trs, period)) / period as real;
      AverageOfLast(trs, period, top);
    }
  }

  /** With fewer than `period` true ranges the ATR is still their sum over `period`. */
  lemma {:induction false} AtrShortHistory(bars: seq<Bar>, period: nat)
    requires period >= 1
    requires 2 <= |bars| <= period
    ensures AtrOf(bars, period) * period as real == Sum(TrueRanges(bars))
  {
    var trs := TrueRanges(bars);
    TrueRangesLength(bars);
    assert LastN(trs, period) == trs;
    var p, total := period as real, Sum(trs);
    assert AtrOf(bars, period) == total / p;
    MeanTimesCount(total, p);
  }

  /** `sum(xs[-period:]) / period` of terms in [0, top] lies in [0, top]. */
  lemma {:induction false} AverageOfLast(xs: seq<real>, period: nat, top: real)
    requires period >= 1 && |xs| > 0
    requires forall i :: 0 <= i < |xs| ==> 0.0 <= xs[i] <= top
    ensures 0.0 <= Sum(LastN(xs, period)) / period as real <= top
  {
    var w := LastN(xs, period);
    assert forall k :: 0 <= k < |w| ==> 0.0 <= w[k] <= top by {
      assert forall k :: 0 <= k < |w| ==> w[k] == xs[|xs| - |w| + k];
    }
    assert 0.0 <= top by {
      assert 0.0 <= xs[0] <= top;
    }
    SumBounds(w, 0.0, top);
    MeanOfFewer(Sum(w), top, |w| as real, period as real);
  }

  /** A sum of at most `top` per term over `n <= p` terms, divided by `p`, is at most `top`. */
  lemma MeanOfFewer(sum: real, top: real, n: real, p: real)
    requires 0.0 <= top && 0.0 < n <= p
    requires 0.0 <= sum <= top * n
    ensures 0.0 <= sum / p <= top
    ensures sum / p * p == sum
  {
    assert top * n <= top * p;
    assert sum / p * p == sum;
  }

  // ---------------------------------------------------------------- EMA

  /** `2 / (period + 1)`. */
  function Multiplier(period: nat): (m: real)
    ensures period >= 1 ==> 0.0 < m <= 1.0
  {
    2.0 / (period as real + 1.0)
  }

  /** `(price - ema) * multiplier + ema`. */
  function EmaStep(ema: real, price: real, m: real): real
  {
    (price - ema) * m + ema
  }

  /** One EMA step with a multiplier in [0, 1] stays between any bounds that hold both
      the previous value and the new price. */
  lemma EmaStepWithin(ema: real, price: real, m: real, lo: real, hi: real)
    requires 0.0 <= m <= 1.0
    requires lo <= ema <= hi && lo <= price <= hi
    ensures lo <= EmaStep(ema, price, m) <= hi
  {
    var x := price - ema;
    MulUnit(x, m);
    assert EmaStep(ema, price, m) == x * m + ema;
  }

  lemma MulUnit(x: real, m: real)
    requires 0.0 <= m <= 1.0
    ensures x >= 0.0 ==> 0.0 <= x * m <= x
    ensures x < 0.0 ==> x <= x * m <= 0.0
  {
    if x >= 0.0 {
      MulNonNegative(x, m);
      MulNonNegative(x, 1.0 - m);
    } else {
      MulNonNegative(-x, m);
      MulNonNegative(-x, 1.0 - m);
    }
  }

  /** The mean of the first `period` prices, folded with EMA steps over `data[period..k]`. */
  ghost function EmaAfter(data: seq<real>, period: nat, k: nat): real
    requires 1 <= period <= k <= |data|
    decreases k
  {
    if k == period then Sum(data[..period]) / period as real
    else EmaStep(EmaAfter(data, period, k - 1), data[k - 1], Multiplier(period))
  }

  /** The EMA only looks at the prices it has folded. */
  lemma {:induction false} EmaAfterPrefix(data: seq<real>, period: nat, k: nat, n: nat)
    requires 1 <= period <= k <= n <= |data|
    ensures EmaAfter(data[..n], period, k) == EmaAfter(data, period, k)
    decreases k
  {
    if k == period {
      assert data[..n][..period] == data[..period];
    } else {
      EmaAfterPrefix(data, period, k - 1, n);
    }
  }

  /** Every SMA-seeded EMA value lies between any bounds of the prices. */
  lemma {:induction false} EmaAfterWithin(data: seq<real>, period: nat, k: nat, lo: real, hi: real)
    requires 1 <= period <= k <= |data|
    requires forall i :: 0 <= i < |data| ==> lo <= data[i] <= hi
    ensures lo <= EmaAfter(data, period, k) <= hi
    decreases k
  {
    if k == period {
      assert forall i :: 0 <= i < |data[..period]| ==> lo <= data[..period][i] <= hi;
      SumBounds(data[..period], lo, hi);
      QuotientWithin(Sum(data[..period]), period as real, lo, hi);
    } else {
      EmaAfterWithin(data, period, k - 1, lo, hi);
      EmaStepWithin(EmaAfter(data, period, k - 1), data[k - 1], Multiplier(period), lo, hi);
    }
  }

  /** `_calculate_ema` of extended_strategies.py: the last price (0 when there is none)
      with fewer than `period` prices, otherwise the SMA-seeded EMA of all of them. */
  ghost function EmaValue(prices: seq<real>, period: nat): real
    requires period >= 1
  {
    if |prices| < period then (if |prices| == 0 then 0.0 else prices[|prices| - 1])
    else EmaAfter(prices, period, |prices|)
  }

  method CalculateEmaValue(prices: seq<real>, period: nat) returns (ema: real)
    requires period >= 1
    ensures ema == EmaValue(prices, period)
  {
    if |prices| < period {
      if |prices| > 0 {
        return prices[|prices| - 1];
      }
      return 0.0;
    }
    var multiplier := 2.0 / (period as real + 1.0);
    ema := Sum(prices[..period]) / period as real;
    var k := period;
    while k < |prices|
      invariant period <= k <= |prices|
      invariant ema == EmaAfter(prices, period, k)
    {
      ema := (prices[k] - ema) * multiplier + ema;
      k := k + 1;
    }
  }

  /** The EMA value lies between the smallest and the largest price. */
  lemma {:induction false} EmaValueWithin(prices: seq<real>, period: nat, lo: real, hi: real)
    requires period >= 1
    requires forall i :: 0 <= i < |prices| ==> lo <= prices[i] <= hi
    requires |prices| > 0
    ensures lo <= EmaValue(prices, period) <= hi
  {
    if |prices| >= period {
      EmaAfterWithin(prices, period, |prices|, lo, hi);
    }
  }

  // ---------------------------------------------------------------- prices and sizes

  /** Every price of every bar is positive, as a market data feed delivers them; the
      iterations divide by closes and lows. */
  predicate Priced(bars: seq<Bar>)
  {
    forall i :: 0 <= i < |bars| ==> bars[i].high > 0.0 && bars[i].low > 0.0 && bars[i].close > 0.0
  }

  /** `x ** n` for a float base and a non-negative integer exponent. */
  function Pow(x: real, n: nat): real
  {
    if n == 0 then 1.0 else x * Pow(x, n - 1)
  }

  lemma {:induction false} PowPositive(x: real, n: nat)
    requires x > 0.0
    ensures Pow(x, n) > 0.0
  {
    if n > 0 {
      PowPositive(x, n - 1);
      MulNonNegative(x, Pow(x, n - 1));
      assert x * Pow(x, n - 1) > 0.0;
    }
  }

  /** A safety order `base * multiplier ** n` of a positive base and multiplier is positive. */
  lemma SafetyOrderPositive(base: real, multiplier: real, n: nat)
    requires base > 0.0 && multiplier > 0.0
    ensures base * Pow(multiplier, n) > 0.0
  {
    PowPositive(multiplier, n);
    MulNonNegative(base, Pow(multiplier, n));
    assert base * Pow(multiplier, n) > 0.0;
  }

  /** The size of the safety order at level `n`: the base order size scaled by the
      multiplier once per entry already filled. */
  function SafetyOrderSize(base: real, multiplier: real, n: nat): (q: real)
    requires base > 0.0 && multiplier > 0.0
    ensures q > 0.0
  {
    SafetyOrderPositive(base, multiplier, n);
    base * Pow(multiplier, n)
  }

  /** A multiplier of at least one never shrinks the next safety order. */
  lemma {:induction false} PowGrows(x: real, n: nat)
    requires x >= 1.0
    ensures Pow(x, n + 1) >= Pow(x, n) >= 1.0
  {
    if n > 0 {
      PowGrows(x, n - 1);
    }
    assert Pow(x, n + 1) == x * Pow(x, n);
    MulNonNegative(x - 1.0, Pow(x, n));
  }

  // ---------------------------------------------------------------- DCA cost basis

  /** One filled DCA order. The wall-clock `timestamp` of the entry is not kept, and
      the `level` that citarion_integration.py stores is always the entry's position
      plus one. */
  datatype DcaEntry = DcaEntry(price: real, size: real)

  /** `sum(price * size)` over the entries. */
  function Invested(es: seq<DcaEntry>): real
  {
    if |es| == 0 then 0.0 else Invested(es[..|es| - 1]) + es[|es| - 1].price * es[|es| - 1].size
  }

  /** `sum(size)` over the entries. */
  function Sizes(es: seq<DcaEntry>): real
  {
    if |es| == 0 then 0.0 else Sizes(es[..|es| - 1]) + es[|es| - 1].size
  }

  /** The cost-basis fields of a DCA strategy agree with its entries: the running
      totals are the sums over the entries, and the average entry is their
      size-weighted mean, or None exactly when there is no entry. */
  ghost predicate DcaBook(es: seq<DcaEntry>, invested: real, size: real, average: Option<real>)
  {
    (forall i :: 0 <= i < |es| ==> es[i].size > 0.0)
    && invested == Invested(es) && size == Sizes(es) && size >= 0.0
    && (|es| == 0 <==> average.None?)
    && (average.Some? ==> size > 0.0 && average.value == invested / size)
  }

  lemma {:induction false} SizesPositive(es: seq<DcaEntry>)
    requires forall i :: 0 <= i < |es| ==> es[i].size > 0.0
    ensures |es| == 0 ==> Sizes(es) == 0.0
    ensures |es| > 0 ==> Sizes(es) > 0.0
    decreases |es|
  {
    if |es| > 0 {
      SizesPositive(es[..|es| - 1]);
    }
  }

  /** A buy of `s` units at `p` keeps the book: totals grow by p*s and s, and the
      average becomes their ratio. */
  lemma DcaBookAppend(es: seq<DcaEntry>, invested: real, size: real, average: Option<real>, p: real, s: real)
    requires DcaBook(es, invested, size, average) && s > 0.0
    ensures DcaBook(es + [DcaEntry(p, s)], invested + p * s, size + s, Some((invested + p * s) / (size + s)))
  {
    var es' := es + [DcaEntry(p, s)];
    assert es'[..|es'| - 1] == es;
    SizesPositive(es);
  }

  /** The empty book after a take-profit reset. */
  lemma DcaBookEmpty()
    ensures DcaBook([], 0.0, 0.0, None)
  {
  }

  /** `has_position and average_entry and (price - avg) / avg >= take_profit_pct`. */
  predicate TakeProfitDue(has: bool, average: Option<real>, price: real, takeProfitPct: real)
  {
    has && Truthy(average) && (price - average.value) / average.value >= takeProfitPct
  }

  /** The cost-basis fields of both DCA strategies. */
  datatype DcaFields = DcaFields(entries: seq<DcaEntry>, invested: real, size: real, average: Option<real>)

  /** The bound on open entries the strategy keeps. */
  predicate WithinLevels(s: DcaFields, maxLevels: int)
  {
    |s.entries| == 0 || |s.entries| <= maxLevels
  }

  /** The cost basis after a buy of `size` units at `price`: one more entry, both totals
      grown, and the average entry recomputed from them. */
  function DcaBought(s: DcaFields, price: real, size: real): (t: DcaFields)
    requires s.size >= 0.0 && size > 0.0
    ensures t.average.Some?
  {
    var invested := s.invested + price * size;
    var total := s.size + size;
    DcaFields(s.entries + [DcaEntry(price, size)], invested, total, Some(invested / total))
  }

  /** A buy keeps the cost basis consistent with the entries, and stays within
      `max_levels` when a level was free. */
  lemma DcaBoughtKeepsBook(s: DcaFields, price: real, size: real, maxLevels: int)
    requires DcaBook(s.entries, s.invested, s.size, s.average) && size > 0.0 && |s.entries| < maxLevels
    ensures var t := DcaBought(s, price, size);
      DcaBook(t.entries, t.invested, t.size, t.average) && WithinLevels(t, maxLevels)
  {
    DcaBookAppend(s.entries, s.invested, s.size, s.average, price, size);
  }

  lemma Distribute(a: real, b: real, c: real)
    ensures a * (b + c) == a * b + a * c
  {
  }

  /** The bounds of the weighted sum: lo * sizes <= sum(price * size) <= hi * sizes. */
  lemma {:induction false} InvestedBounds(es: seq<DcaEntry>, lo: real, hi: real)
    requires forall i :: 0 <= i < |es| ==> es[i].size > 0.0 && lo <= es[i].price <= hi
    ensures lo * Sizes(es) <= Invested(es) <= hi * Sizes(es)
    decreases |es|
  {
    if |es| > 0 {
      var init, e := es[..|es| - 1], es[|es| - 1];
      assert forall i :: 0 <= i < |init| ==> init[i] == es[i];
      InvestedBounds(init, lo, hi);
      var sz := Sizes(init);
      assert Sizes(es) == sz + e.size;
      assert Invested(es) == Invested(init) + e.price * e.size;
      MulNonNegative(e.price - lo, e.size);
      MulNonNegative(hi - e.price, e.size);
      Distribute(lo, sz, e.size);
      Distribute(hi, sz, e.size);
    }
  }

  /** The average entry lies between the cheapest and the dearest fill. */
  lemma AverageWithinFills(es: seq<DcaEntry>, invested: real, size: real, average: Option<real>, lo: real, hi: real)
    requires DcaBook(es, invested, size, average) && |es| > 0
    requires forall i :: 0 <= i < |es| ==> lo <= es[i].price <= hi
    ensures average.Some? && lo <= average.value <= hi
  {
    InvestedBounds(es, lo, hi);
    QuotientWithin(invested, size, lo, hi);
  }

  // ---------------------------------------------------------------- crossings

  /** The decision of a strategy that remembers the previous pair of lines: nothing on
      the first reading; a bullish cross (now above, before at or below) enters when
      flat; a bearish cross (now below, before at or above) exits when holding. */
  function CrossMove(prevFast: Option<real>, prevSlow: Option<real>, fast: real, slow: real, has: bool): Move
  {
    if prevFast.None? || prevSlow.None? then Stay
    else if fast > slow && prevFast.value <= prevSlow.value then (if !has then Enter else Stay)
    else if fast < slow && prevFast.value >= prevSlow.value then (if has then Exit else Stay)
    else Stay
  }

  /** Both directions of the entry and the exit rule. */
  lemma CrossMoveCases(prevFast: Option<real>, prevSlow: Option<real>, fast: real, slow: real, has: bool)
    ensures CrossMove(prevFast, prevSlow, fast, slow, has) == Enter <==>
      prevFast.Some? && prevSlow.Some? && prevFast.value <= prevSlow.value && fast > slow && !has
    ensures CrossMove(prevFast, prevSlow, fast, slow, has) == Exit <==>
      prevFast.Some? && prevSlow.Some? && prevFast.value >= prevSlow.value && fast < slow && has
  {
  }

  /** Once the new pair is stored, the next reading cannot repeat the same cross: an
      entry needs the stored fast line at or below the slow one, and an entry leaves it
      above. */
  lemma CrossMoveNoRepeat(prevFast: Option<real>, prevSlow: Option<real>, fast: real, slow: real, has: bool,
                          fast': real, slow': real, has': bool)
    ensures CrossMove(prevFast, prevSlow, fast, slow, has) == Enter ==> CrossMove(Some(fast), Some(slow), fast', slow', has') != Enter
    ensures CrossMove(prevFast, prevSlow, fast, slow, has) == Exit ==> CrossMove(Some(fast), Some(slow), fast', slow', has') != Exit
  {
  }

  /** The signal list after an iteration that emitted `signal`, if anything. */
  function Appended(signals: seq<Emitted>, signal: Option<Emitted>): (r: seq<Emitted>)
    ensures signal.None? ==> r == signals
    ensures signal.Some? ==> r == signals + [signal.value]
  {
    if signal.Some? then signals + [signal.value] else signals
  }

  /** The close of the latest bar. */
  function LastClose(bars: seq<Bar>): real
    requires |bars| > 0
  {
    bars[|bars| - 1].close
  }
}
