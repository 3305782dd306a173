// The strategies of lumibot-service/strategies/ai_strategies.py: the AI-assisted
// strategy (whose "AI" is a fixed rule on RSI and trend), the sentiment strategy and
// the multi-asset portfolio strategy.
//
// The sentiment strategy draws its score from `random.gauss`; the draw is an input
// here. Per-symbol data of the multi-asset strategy (its bars and the broker's
// position) is an input too, one `Feed` per symbol.

module LumibotAi {
  import opened Common
  import opened KeyedTable
  import opened LumibotCommon

  /** `last_signal` and `entry_price` of the single-asset strategies. */
  datatype AiFields = AiFields(lastSignal: Option<string>, entryPrice: Option<real>)

  // ---------------------------------------------------------------- indicators

  datatype Trend = Bullish | Bearish | Neutral

  function TrendName(t: Trend): string
  {
    match t
    case Bullish => "bullish"
    case Bearish => "bearish"
    case Neutral => "neutral"
  }

  /** `"bullish" if price > sma_20 > sma_50 else "bearish" if price < sma_20 < sma_50
      else "neutral"`. */
  function TrendOf(price: real, sma20: real, sma50: real): Trend
  {
    if price > sma20 > sma50 then Bullish else if price < sma20 < sma50 then Bearish else Neutral
  }

  /** The integer nearest to y, a tie going to the even one. */
  function RoundHalfEven(y: real): (n: int)
    ensures -0.5 <= n as real - y <= 0.5
  {
    var k := y.Floor;
    var f := y - k as real;
    if f > 0.5 || (f == 0.5 && k % 2 != 0) then k + 1 else k
  }

  /** Python's `round(x, digits)` on an exact value, one decimal digit at a time: the
      nearest multiple of 10^-digits, a tie going to the even one. */
  function RoundTo(x: real, digits: nat): real
    decreases digits
  {
    if digits == 0 then RoundHalfEven(x) as real else RoundTo(x * 10.0, digits - 1) / 10.0
  }

  /** `round(x, 2)`. */
  function Round2(x: real): real
  {
    RoundTo(x, 2)
  }

  /** Rounding to hundredths: the nearest whole number of hundredths, so within half a
      hundredth of x, and in [0, 100] when x is. */
  lemma Round2Bounds(x: real)
    ensures Round2(x) == RoundHalfEven(x * 100.0) as real / 100.0
    ensures -0.005 <= Round2(x) - x <= 0.005
    ensures 0.0 <= x <= 100.0 ==> 0.0 <= Round2(x) <= 100.0
  {
    assert RoundTo(x, 2) == RoundTo(x * 10.0, 1) / 10.0;
    assert RoundTo(x * 10.0, 1) == RoundTo(x * 10.0 * 10.0, 0) / 10.0;
    assert x * 10.0 * 10.0 == x * 100.0;
  }

  /** The dict `_calculate_indicators` returns, without the volatility entry: the RSI and
      the two means rounded to hundredths, the trend and the price position read from the
      unrounded means. */
  datatype Indicators = Indicators(rsi: real, sma20: real, sma50: real, trend: Trend, aboveSma: bool)

  /** `_calculate_indicators`: nothing with fewer than 20 prices; otherwise the RSI of
      the last 14 changes, the mean of the last 20 prices, the mean of the last 50 (or of
      all of them when there are fewer), each rounded to hundredths, the trend and the
      side of the 20-period mean the price is on. */
  function CalculateIndicators(prices: seq<real>): (r: Option<Indicators>)
    ensures r.None? <==> |prices| < 20
    ensures r.Some? ==> 0.0 <= r.value.rsi <= 100.0
    ensures r.Some? ==> -0.005 <= r.value.rsi - LastPeriodRsi(prices, 14) <= 0.005
    ensures r.Some? ==> (r.value.aboveSma <==> prices[|prices| - 1] > Sum(LastN(prices, 20)) / 20.0)
    ensures r.Some? ==> -0.005 <= r.value.sma20 - Sum(LastN(prices, 20)) / 20.0 <= 0.005
  {
    if |prices| < 20 then None
    else
      var price := prices[|prices| - 1];
      var n50 := if |prices| < 50 then |prices| else 50;
      var sma20 := Sum(LastN(prices, 20)) / 20.0;
      var sma50 := Sum(LastN(prices, 50)) / n50 as real;
      Round2Bounds(LastPeriodRsi(prices, 14));
      Round2Bounds(sma20);
      Some(Indicators(Round2(LastPeriodRsi(prices, 14)), Round2(sma20), Round2(sma50),
                      TrendOf(price, sma20, sma50), price > sma20))
  }

  function IndicatorsValue(ind: Option<Indicators>): Value
  {
    match ind
    case None => Nested([])
    case Some(i) =>
      Nested([Field("rsi", Num(i.rsi)), Field("sma_20", Num(i.sma20)), Field("sma_50", Num(i.sma50)),
              Field("trend", Text(TrendName(i.trend))),
              Field("price_position", Text(if i.aboveSma then "above_sma" else "below_sma"))])
  }

  /** The last `k` prices of a flat series sum to the price times their number. */
  lemma {:induction false} FlatWindowSum(prices: seq<real>, c: real, k: nat)
    requires forall i :: 0 <= i < |prices| ==> prices[i] == c
    ensures Sum(LastN(prices, k)) == c * |LastN(prices, k)| as real
  {
    var w := LastN(prices, k);
    assert forall i :: 0 <= i < |w| ==> w[i] == prices[|prices| - |w| + i];
    SumBounds(w, c, c);
  }

  /** On a flat series both means of `_calculate_indicators` equal the price. */
  lemma FlatMeans(prices: seq<real>, c: real)
    requires |prices| >= 20
    requires forall i :: 0 <= i < |prices| ==> prices[i] == c
    ensures Sum(LastN(prices, 20)) / 20.0 == c
    ensures Sum(LastN(prices, 50)) / (if |prices| < 50 then |prices| else 50) as real == c
  {
    FlatWindowSum(prices, c, 20);
    FlatWindowSum(prices, c, 50);
  }

  /** A flat series never falls. */
  lemma FlatNeverFalls(prices: seq<real>, c: real)
    requires forall i :: 0 <= i < |prices| ==> prices[i] == c
    ensures forall k :: 0 <= k < |Deltas(prices)| ==> Deltas(prices)[k] >= 0.0
  {
  }

  /** On a flat market both means are the price rounded to hundredths, the trend is
      neutral and, with no losses at all, the RSI is 100. */
  lemma IndicatorsOfFlat(prices: seq<real>, c: real)
    requires |prices| >= 20
    requires forall i :: 0 <= i < |prices| ==> prices[i] == c
    ensures var ind := CalculateIndicators(prices).value;
      ind.sma20 == Round2(c) && ind.sma50 == Round2(c) && ind.trend == Neutral && ind.rsi == 100.0 && !ind.aboveSma
  {
    FlatMeans(prices, c);
    FlatNeverFalls(prices, c);
    RsiOfRisingSeries(prices, 14);
    var n50 := if |prices| < 50 then |prices| else 50;
    var sma20 := Sum(LastN(prices, 20)) / 20.0;
    var sma50 := Sum(LastN(prices, 50)) / n50 as real;
    assert sma20 == c && sma50 == c && prices[|prices| - 1] == c;
    Round2Bounds(100.0);
    assert CalculateIndicators(prices).value
      == Indicators(Round2(LastPeriodRsi(prices, 14)), Round2(sma20), Round2(sma50), TrendOf(c, sma20, sma50), c > sma20);
  }

  // ---------------------------------------------------------------- simulated AI

  /** The dict `_get_ai_analysis` returns. */
  datatype Analysis = Analysis(action: string, confidence: real, reasoning: Value)

  /** `_get_ai_analysis`: a BUY at confidence 0.8 when the RSI is under 30 and the trend
      is not bearish, a SELL at 0.8 when it is over 70 and the trend is not bullish,
      otherwise a HOLD at 0.5. Missing indicators read as RSI 50 and a neutral trend. */
  function AiAnalysis(ind: Option<Indicators>): Analysis
  {
    var rsi := if ind.Some? then ind.value.rsi else 50.0;
    var trend := if ind.Some? then ind.value.trend else Neutral;
    if rsi < 30.0 && trend in {Neutral, Bullish} then
      Analysis("BUY", 0.8, Formatted("RSI oversold ({:.1f}) with " + TrendName(trend) + " trend", [rsi]))
    else if rsi > 70.0 && trend in {Neutral, Bearish} then
      Analysis("SELL", 0.8, Formatted("RSI overbought ({:.1f}) with " + TrendName(trend) + " trend", [rsi]))
    else Analysis("HOLD", 0.5, Text("No clear signal"))
  }

  /** Both directions of the simulated rule, and its confidence never exceeds 0.8. */
  lemma AiAnalysisCases(ind: Option<Indicators>)
    ensures var a := AiAnalysis(ind);
      var rsi := if ind.Some? then ind.value.rsi else 50.0;
      var trend := if ind.Some? then ind.value.trend else Neutral;
      (a.action == "BUY" <==> rsi < 30.0 && trend != Bearish)
      && (a.action == "SELL" <==> rsi > 70.0 && trend != Bullish)
      && (a.action == "HOLD" <==> !(rsi < 30.0 && trend != Bearish) && !(rsi > 70.0 && trend != Bullish))
      && (a.action == "HOLD" ==> a.confidence == 0.5)
      && (a.action != "HOLD" ==> a.confidence == 0.8)
      && 0.0 < a.confidence <= 0.8
  {
  }

  /** The decision on the indicators, stated on the unrounded RSI: rounding to hundredths
      moves the BUY bound to 29.995 and the SELL bound to 70.005, a tie at 29.995 rounding
      up to 30 and one at 70.005 rounding down to 70. */
  lemma AiDecisionOnRawRsi(prices: seq<real>)
    requires |prices| >= 20
    ensures var a := AiAnalysis(CalculateIndicators(prices));
      var rsi := LastPeriodRsi(prices, 14);
      var trend := CalculateIndicators(prices).value.trend;
      (a.action == "BUY" <==> rsi < 29.995 && trend != Bearish)
      && (a.action == "SELL" <==> rsi > 70.005 && trend != Bullish)
  {
    var rsi := LastPeriodRsi(prices, 14);
    assert CalculateIndicators(prices).value.rsi == Round2(rsi);
    RoundedBounds(rsi);
    AiAnalysisCases(CalculateIndicators(prices));
  }

  /** Where `round(x, 2)` crosses the decision bounds of `_get_ai_analysis`. */
  lemma RoundedBounds(x: real)
    ensures Round2(x) < 30.0 <==> x < 29.995
    ensures Round2(x) > 70.0 <==> x > 70.005
  {
    Round2Bounds(x);
  }

  /** A perfectly flat market reads as overbought: the analysis says SELL. */
  lemma FlatMarketSells(prices: seq<real>, c: real)
    requires |prices| >= 20
    requires forall i :: 0 <= i < |prices| ==> prices[i] == c
    ensures AiAnalysis(CalculateIndicators(prices)).action == "SELL"
  {
    IndicatorsOfFlat(prices, c);
  }

  /** A market whose closes never fall has RSI 100, so the analysis never says BUY. */
  lemma RisingMarketNeverBuys(prices: seq<real>)
    requires |prices| >= 20
    requires forall k :: 0 <= k < |Deltas(prices)| ==> Deltas(prices)[k] >= 0.0
    ensures AiAnalysis(CalculateIndicators(prices)).action != "BUY"
  {
    RsiOfRisingSeries(prices, 14);
  }

  // ---------------------------------------------------------------- AITradingStrategy

  function AiBuyData(symbol: string, price: real, size: real, a: Analysis, ind: Option<Indicators>): seq<Field>
  {
    [Field("symbol", Text(symbol)), Field("price", Num(price)), Field("size", Num(size)),
     Field("ai_confidence", Num(a.confidence)), Field("ai_reasoning", a.reasoning),
     Field("indicators", IndicatorsValue(ind))]
  }

  function AiSellData(symbol: string, price: real, size: real, a: Analysis, pnl: real): seq<Field>
  {
    [Field("symbol", Text(symbol)), Field("price", Num(price)), Field("size", Num(size)),
     Field("ai_confidence", Num(a.confidence)), Field("ai_reasoning", a.reasoning),
     Field("pnl_percent", Num(pnl))]
  }

  /** The decision of `on_trading_iteration` once the analysis is at or above the
      confidence threshold: buy `position_size` on BUY without a position, sell the held
      quantity on SELL with one. */
  function AiTrade(symbol: string, positionSize: real, threshold: real, s: AiFields, price: real,
                   ind: Option<Indicators>, a: Analysis, quantity: Option<real>): Outcome<AiFields>
  {
    var has := HasPosition(quantity);
    if a.confidence >= threshold && a.action == "BUY" && !has then
      Outcome(AiFields(Some("BUY"), Some(price)), [Market(Buy, positionSize)],
              Some(Emitted("BUY", "AI_Trading", AiBuyData(symbol, price, positionSize, a, ind))))
    else if a.confidence >= threshold && a.action == "SELL" && has then
      Outcome(AiFields(Some("SELL"), None), [Market(Sell, quantity.value)],
              Some(Emitted("SELL", "AI_Trading", AiSellData(symbol, price, quantity.value, a, PnlPercent(s.entryPrice, price)))))
    else Outcome(s, [], None)
  }

  /** Both directions of the trading rule. */
  lemma AiTradeCases(symbol: string, positionSize: real, threshold: real, s: AiFields, price: real,
                     ind: Option<Indicators>, a: Analysis, quantity: Option<real>)
    ensures var o := AiTrade(symbol, positionSize, threshold, s, price, ind, a, quantity);
      var has := HasPosition(quantity);
      (o.orders == [Market(Buy, positionSize)] <==> a.confidence >= threshold && a.action == "BUY" && !has)
      && (o.orders == [Market(Buy, positionSize)] ==> o.state == AiFields(Some("BUY"), Some(price)))
      && (o.orders == [Market(Sell, Held(quantity))] <==> a.confidence >= threshold && a.action == "SELL" && has)
      && (o.orders == [Market(Sell, Held(quantity))] ==> o.state == AiFields(Some("SELL"), None))
      && (o.orders == [] <==> o.signal.None?)
      && (o.orders == [] ==> o.state == s)
  {
  }

  /** With a confidence threshold above 0.8 the strategy never trades, whatever the
      market does. */
  lemma AiThresholdAboveCeiling(symbol: string, positionSize: real, threshold: real, s: AiFields, price: real,
                                ind: Option<Indicators>, quantity: Option<real>)
    requires threshold > 0.8
    ensures AiTrade(symbol, positionSize, threshold, s, price, ind, AiAnalysis(ind), quantity) == Outcome(s, [], None)
  {
    AiAnalysisCases(ind);
  }

  class AiTradingStrategy {
    const symbol: string
    const positionSize: real
    const confidenceThreshold: real

    var lastSignal: Option<string>
    var entryPrice: Option<real>
    var signals: seq<Emitted>

    constructor (symbol: string, positionSize: real, confidenceThreshold: real)
      ensures this.symbol == symbol && this.positionSize == positionSize
      ensures this.confidenceThreshold == confidenceThreshold
      ensures lastSignal == None && entryPrice == None && signals == []
    {
      this.symbol := symbol;
      this.positionSize := positionSize;
      this.confidenceThreshold := confidenceThreshold;
      lastSignal := None;
      entryPrice := None;
      signals := [];
    }

    /** `on_trading_iteration`: nothing with fewer than 20 bars; otherwise `AiTrade` on
        the analysis of the indicators of the closes. */
    method OnTradingIteration(bars: History, quantity: Option<real>) returns (orders: seq<Order>, signal: Option<Emitted>)
      modifies this
      ensures bars.NoHistory? || |bars.bars| < 20 ==>
        orders == [] && signal.None? && lastSignal == old(lastSignal) && entryPrice == old(entryPrice)
        && signals == old(signals)
      ensures bars.History? && |bars.bars| >= 20 ==>
        var ind := CalculateIndicators(Closes(bars.bars));
        Outcome(AiFields(lastSignal, entryPrice), orders, signal)
        == AiTrade(symbol, positionSize, confidenceThreshold, AiFields(old(lastSignal), old(entryPrice)),
                   LastClose(bars.bars), ind, AiAnalysis(ind), quantity)
        && signals == Appended(old(signals), signal)
    {
      orders, signal := [], None;
      if bars.NoHistory? || |bars.bars| < 20 {
        return;
      }
      var ind := CalculateIndicators(Closes(bars.bars));
      orders, signal := Trade(LastClose(bars.bars), ind, quantity);
    }

    /** The trading half of `on_trading_iteration`, on the indicators of the closes. */
    method Trade(price: real, ind: Option<Indicators>, quantity: Option<real>) returns (orders: seq<Order>, signal: Option<Emitted>)
      modifies this
      ensures Outcome(AiFields(lastSignal, entryPrice), orders, signal)
        == AiTrade(symbol, positionSize, confidenceThreshold, AiFields(old(lastSignal), old(entryPrice)),
                   price, ind, AiAnalysis(ind), quantity)
      ensures signals == Appended(old(signals), signal)
    {
      var o := AiTrade(symbol, positionSize, confidenceThreshold, AiFields(lastSignal, entryPrice),
                       price, ind, AiAnalysis(ind), quantity);
      lastSignal, entryPrice := o.state.lastSignal, o.state.entryPrice;
      orders, signal := o.orders, o.signal;
      signals := Appended(signals, signal);
    }
  }

  // ---------------------------------------------------------------- SentimentStrategy

  /** `max(-1, min(1, score))` on the Gaussian draw. */
  function ClampScore(draw: real): (r: real)
    ensures -1.0 <= r <= 1.0
    ensures -1.0 <= draw <= 1.0 ==> r == draw
  {
    if draw > 1.0 then 1.0 else if draw < -1.0 then -1.0 else draw
  }

  function SentimentSources(): Value
  {
    Texts(["twitter", "reddit", "news"])
  }

  /** The sentiment decision: buy `position_size` when the score exceeds the threshold
      without a position, sell the held quantity when it is under minus the threshold
      with one. */
  function SentimentTrade(symbol: string, positionSize: real, threshold: real, s: AiFields, price: real,
                          score: real, quantity: Option<real>): Outcome<AiFields>
  {
    var has := HasPosition(quantity);
    if score > threshold && !has then
      Outcome(AiFields(Some("BUY"), Some(price)), [Market(Buy, positionSize)],
              Some(Emitted("BUY", "Sentiment_Trading",
                [Field("symbol", Text(symbol)), Field("price", Num(price)), Field("sentiment_score", Num(score)),
                 Field("sentiment_sources", SentimentSources()), Field("reason", Text("Positive market sentiment"))])))
    else if score < -threshold && has then
      Outcome(AiFields(Some("SELL"), None), [Market(Sell, quantity.value)],
              Some(Emitted("SELL", "Sentiment_Trading",
                [Field("symbol", Text(symbol)), Field("price", Num(price)), Field("sentiment_score", Num(score)),
                 Field("sentiment_sources", SentimentSources()), Field("pnl_percent", Num(PnlPercent(s.entryPrice, price))),
                 Field("reason", Text("Negative market sentiment"))])))
    else Outcome(s, [], None)
  }

  /** Both directions of the sentiment rule. */
  lemma SentimentTradeCases(symbol: string, positionSize: real, threshold: real, s: AiFields, price: real,
                            score: real, quantity: Option<real>)
    ensures var o := SentimentTrade(symbol, positionSize, threshold, s, price, score, quantity);
      var has := HasPosition(quantity);
      (o.orders == [Market(Buy, positionSize)] <==> score > threshold && !has)
      && (o.orders == [Market(Buy, positionSize)] ==> o.state == AiFields(Some("BUY"), Some(price)))
      && (o.orders == [Market(Sell, Held(quantity))] <==> score < -threshold && has)
      && (o.orders == [Market(Sell, Held(quantity))] ==> o.state == AiFields(Some("SELL"), None))
      && (o.orders == [] <==> o.signal.None?)
      && (o.orders == [] ==> o.state == s)
  {
  }

  /** The score is clamped to [-1, 1], so a threshold of 1 or more silences the
      strategy whatever the draw. */
  lemma SentimentThresholdAtOne(symbol: string, positionSize: real, threshold: real, s: AiFields, price: real,
                                draw: real, quantity: Option<real>)
    requires threshold >= 1.0
    ensures SentimentTrade(symbol, positionSize, threshold, s, price, ClampScore(draw), quantity) == Outcome(s, [], None)
  {
  }

  class SentimentStrategy {
    const symbol: string
    const positionSize: real
    const sentimentThreshold: real

    var lastSignal: Option<string>
    var entryPrice: Option<real>
    var signals: seq<Emitted>

    constructor (symbol: string, positionSize: real, sentimentThreshold: real)
      ensures this.symbol == symbol && this.positionSize == positionSize
      ensures this.sentimentThreshold == sentimentThreshold
      ensures lastSignal == None && entryPrice == None && signals == []
    {
      this.symbol := symbol;
      this.positionSize := positionSize;
      this.sentimentThreshold := sentimentThreshold;
      lastSignal := None;
      entryPrice := None;
      signals := [];
    }

    /** `on_trading_iteration`: nothing without bars; otherwise `SentimentTrade` on the
        clamped draw. */
    method OnTradingIteration(bars: History, draw: real, quantity: Option<real>) returns (orders: seq<Order>, signal: Option<Emitted>)
      requires bars.History? ==> |bars.bars| > 0
      modifies this
      ensures bars.NoHistory? ==>
        orders == [] && signal.None? && lastSignal == old(lastSignal) && entryPrice == old(entryPrice)
        && signals == old(signals)
      ensures bars.History? ==>
        Outcome(AiFields(lastSignal, entryPrice), orders, signal)
        == SentimentTrade(symbol, positionSize, sentimentThreshold, AiFields(old(lastSignal), old(entryPrice)),
                          LastClose(bars.bars), ClampScore(draw), quantity)
        && signals == Appended(old(signals), signal)
    {
      orders, signal := [], None;
      if bars.NoHistory? {
        return;
      }
      var price := bars.bars[|bars.bars| - 1].close;
      var o := SentimentTrade(symbol, positionSize, sentimentThreshold, AiFields(lastSignal, entryPrice),
                              price, ClampScore(draw), quantity);
      lastSignal, entryPrice := o.state.lastSignal, o.state.entryPrice;
      orders, signal := o.orders, o.signal;
      signals := Appended(signals, signal);
    }
  }

  // ---------------------------------------------------------------- MultiAssetStrategy

  /** The dict `_analyze_asset` returns. */
  datatype AssetAnalysis = AssetAnalysis(signal: string, confidence: real, rsi: real, sma20: real, price: real)

  /** `_analyze_asset`: BUY at 0.7 when the close is over its 20-bar mean and the RSI
      under 70, SELL at 0.7 when the close is under the mean and the RSI over 30,
      otherwise HOLD at 0.5. */
  function AnalyzeAsset(closes: seq<real>): AssetAnalysis
    requires |closes| >= 20
  {
    var price := closes[|closes| - 1];
    var sma20 := Sum(LastN(closes, 20)) / 20.0;
    var rsi := LastPeriodRsi(closes, 14);
    if price > sma20 && rsi < 70.0 then AssetAnalysis("BUY", 0.7, rsi, sma20, price)
    else if price < sma20 && rsi > 30.0 then AssetAnalysis("SELL", 0.7, rsi, sma20, price)
    else AssetAnalysis("HOLD", 0.5, rsi, sma20, price)
  }

  /** Both directions of the per-asset rule, with its RSI in [0, 100]. */
  lemma AnalyzeAssetCases(closes: seq<real>)
    requires |closes| >= 20
    ensures var a := AnalyzeAsset(closes);
      0.0 <= a.rsi <= 100.0 && a.price == closes[|closes| - 1]
      && (a.signal == "BUY" <==> a.price > a.sma20 && a.rsi < 70.0)
      && (a.signal == "SELL" <==> a.price < a.sma20 && a.rsi > 30.0)
      && (a.signal == "HOLD" <==> a.confidence == 0.5)
  {
  }

  /** A flat market is a HOLD: the close equals its mean. */
  lemma AnalyzeFlatHolds(closes: seq<real>, c: real)
    requires |closes| >= 20
    requires forall i :: 0 <= i < |closes| ==> closes[i] == c
    ensures AnalyzeAsset(closes).signal == "HOLD"
  {
    FlatMeans(closes, c);
    assert closes[|closes| - 1] == c;
  }

  /** A market whose closes never fall has RSI 100 and is never a BUY, however far the
      close is above its mean. */
  lemma AnalyzeRisingNeverBuys(closes: seq<real>)
    requires |closes| >= 20
    requires forall k :: 0 <= k < |Deltas(closes)| ==> Deltas(closes)[k] >= 0.0
    ensures AnalyzeAsset(closes).signal != "BUY"
  {
    RsiOfRisingSeries(closes, 14);
  }

  function AnalysisValue(a: AssetAnalysis): Value
  {
    Nested([Field("signal", Text(a.signal)), Field("confidence", Num(a.confidence)), Field("rsi", Num(a.rsi)),
            Field("sma_20", Num(a.sma20)), Field("current_price", Num(a.price))])
  }

  /** An entry of `portfolio`. */
  datatype Holding = Holding(position: Option<real>, entryPrice: Option<real>)

  /** What one symbol's turn reads: its bars and the position `get_position` reports
      (None when there is none). */
  datatype Feed = Feed(bars: History, position: Option<real>)

  /** The symbols whose portfolio entry records a position. */
  function HeldSymbols(p: map<string, Holding>): set<string>
  {
    set k | k in p.Keys && p[k].position.Some?
  }

  /** The count the iteration starts from: entries whose `position` is not None. */
  function HeldCount(p: map<string, Holding>): nat
  {
    |HeldSymbols(p)|
  }

  /** Which bookkeeping a turn does: the code as written, which records the position
      `get_position` reported before the buy, or the fix, which records the bought
      quantity and caps on the positions the portfolio records. */
  datatype Bookkeeping = AsWritten | Fixed

  /** The loop's state: the portfolio, `current_positions`, the orders submitted and
      the signals emitted so far. */
  datatype MultiState = MultiState(portfolio: map<string, Holding>, held: int, orders: seq<Order>, emitted: seq<Emitted>)

  /** A state and, if the turn raised, the error; the orders submitted before the raise
      stay submitted. */
  datatype Visited = Visited(state: MultiState, error: Option<string>)

  /** A bought turn: the entry is recorded at the latest close (with the position
      `get_position` reported before the buy as written, with the bought quantity with
      the fix) and the count goes up. */
  function BuyTurn(mode: Bookkeeping, positionSize: real, st: MultiState, symbol: string, reported: Option<real>,
                   a: AssetAnalysis): (v: Visited)
    ensures v.state.portfolio.Keys == st.portfolio.Keys + {symbol}
  {
    var stored := if mode == Fixed then Some(positionSize) else reported;
    var p := st.portfolio[symbol := Holding(stored, Some(a.price))];
    var n := if mode == Fixed then HeldCount(p) else st.held + 1;
    var data := [Field("symbol", Text(symbol)), Field("price", Num(a.price)), Field("portfolio_position", Count(n)),
                 Field("analysis", AnalysisValue(a))];
    Visited(MultiState(p, n, st.orders + [Market(Buy, positionSize)], st.emitted + [Emitted("BUY", "Multi_Asset", data)]), None)
  }

  /** The message of the TypeError `current_price - None` raises. */
  const NoEntryError: string := "TypeError: unsupported operand type(s) for -: 'float' and 'NoneType'"

  /** The message of the ZeroDivisionError a zero entry price raises. */
  const ZeroEntryError: string := "ZeroDivisionError: float division by zero"

  /** A sold turn: the sell order is submitted first; then the P&L against the
      recorded entry price raises when there is none (or it is 0), and otherwise the
      entry is cleared and the count goes down. */
  function SellTurn(mode: Bookkeeping, st: MultiState, symbol: string, quantity: real, a: AssetAnalysis): (v: Visited)
    requires symbol in st.portfolio
    ensures v.state.portfolio.Keys == st.portfolio.Keys
  {
    var orders := st.orders + [Market(Sell, quantity)];
    var entry := st.portfolio[symbol].entryPrice;
    if entry.None? then
      Visited(st.(orders := orders), Some(NoEntryError))
    else if entry.value == 0.0 then
      Visited(st.(orders := orders), Some(ZeroEntryError))
    else
      var pnl := (a.price - entry.value) / entry.value * 100.0;
      var p := st.portfolio[symbol := Holding(None, None)];
      var n := if mode == Fixed then HeldCount(p) else st.held - 1;
      var data := [Field("symbol", Text(symbol)), Field("price", Num(a.price)), Field("pnl_percent", Num(pnl)),
                   Field("analysis", AnalysisValue(a))];
      Visited(MultiState(p, n, orders, st.emitted + [Emitted("SELL", "Multi_Asset", data)]), None)
  }

  /** One symbol's turn of `on_trading_iteration`: nothing with fewer than 20 bars; a
      buy on BUY without a position while the count is under `max_positions`; a sell of
      the reported quantity on SELL with a position. */
  function Visit(mode: Bookkeeping, maxPositions: int, positionSize: real, st: MultiState, symbol: string,
                 feed: Feed): (v: Visited)
    requires symbol in st.portfolio
    ensures v.state.portfolio.Keys == st.portfolio.Keys
  {
    if feed.bars.NoHistory? || |feed.bars.bars| < 20 then Visited(st, None)
    else
      var a := AnalyzeAsset(Closes(feed.bars.bars));
      var has := HasPosition(feed.position);
      var held := if mode == Fixed then HeldCount(st.portfolio) else st.held;
      if a.signal == "BUY" && !has && held < maxPositions then BuyTurn(mode, positionSize, st, symbol, feed.position, a)
      else if a.signal == "SELL" && has then SellTurn(mode, st, symbol, feed.position.value, a)
      else Visited(st, None)
  }

  /** The turns of `symbols` in order, stopping at the first that raises. */
  function Run(mode: Bookkeeping, maxPositions: int, positionSize: real, st: MultiState, symbols: seq<string>,
               feeds: seq<Feed>): (v: Visited)
    requires |feeds| == |symbols|
    requires forall s :: s in symbols ==> s in st.portfolio
    ensures v.state.portfolio.Keys == st.portfolio.Keys
    decreases |symbols|
  {
    if |symbols| == 0 then Visited(st, None)
    else
      var v := Visit(mode, maxPositions, positionSize, st, symbols[0], feeds[0]);
      if v.error.Some? then v else Run(mode, maxPositions, positionSize, v.state, symbols[1..], feeds[1..])
  }

  /** The state an iteration starts from. */
  function Start(p: map<string, Holding>): MultiState
  {
    MultiState(p, HeldCount(p), [], [])
  }

  lemma {:induction false} SubsetCard(a: set<string>, b: set<string>)
    requires a <= b
    ensures |a| <= |b|
    decreases |b|
  {
    if a != {} {
      var x :| x in a;
      SubsetCard(a - {x}, b - {x});
    }
  }

  /** Recording one entry adds at most one held symbol; clearing one adds none. */
  lemma HeldCountUpdate(p: map<string, Holding>, k: string, h: Holding)
    ensures HeldCount(p[k := h]) <= HeldCount(p) + 1
    ensures h.position.None? ==> HeldCount(p[k := h]) <= HeldCount(p)
  {
    SubsetCard(HeldSymbols(p[k := h]), HeldSymbols(p) + {k});
    if h.position.None? {
      SubsetCard(HeldSymbols(p[k := h]), HeldSymbols(p));
    }
  }

  /** A sold turn either raises and keeps the portfolio or clears the symbol's entry. */
  lemma SellTurnClears(mode: Bookkeeping, st: MultiState, symbol: string, quantity: real, a: AssetAnalysis)
    requires symbol in st.portfolio
    ensures var v := SellTurn(mode, st, symbol, quantity, a);
      (v.error.Some? ==> v.state.portfolio == st.portfolio)
      && (v.error.None? ==> v.state.portfolio == st.portfolio[symbol := Holding(None, None)])
  {
    var entry := st.portfolio[symbol].entryPrice;
    if entry.None? || entry.value == 0.0 {
      assert SellTurn(mode, st, symbol, quantity, a).state == st.(orders := st.orders + [Market(Sell, quantity)]);
    }
  }

  /** With the fix a turn never takes the recorded positions over `max_positions`. */
  lemma VisitFixedCapped(maxPositions: int, positionSize: real, st: MultiState, symbol: string, feed: Feed)
    requires symbol in st.portfolio
    requires HeldCount(st.portfolio) <= maxPositions
    ensures HeldCount(Visit(Fixed, maxPositions, positionSize, st, symbol, feed).state.portfolio) <= maxPositions
  {
    if feed.bars.History? && |feed.bars.bars| >= 20 {
      var a := AnalyzeAsset(Closes(feed.bars.bars));
      var has := HasPosition(feed.position);
      var v := Visit(Fixed, maxPositions, positionSize, st, symbol, feed);
      if a.signal == "BUY" && !has && HeldCount(st.portfolio) < maxPositions {
        assert v == BuyTurn(Fixed, positionSize, st, symbol, feed.position, a);
        HeldCountUpdate(st.portfolio, symbol, Holding(Some(positionSize), Some(a.price)));
      } else if a.signal == "SELL" && has {
        assert v == SellTurn(Fixed, st, symbol, feed.position.value, a);
        SellTurnClears(Fixed, st, symbol, feed.position.value, a);
        HeldCountUpdate(st.portfolio, symbol, Holding(None, None));
      } else {
        assert v.state == st;
      }
    }
  }

  /** With the fix a whole iteration keeps the recorded positions within
      `max_positions`. */
  lemma {:induction false} RunFixedCapped(maxPositions: int, positionSize: real, st: MultiState,
                                          symbols: seq<string>, feeds: seq<Feed>)
    requires |feeds| == |symbols|
    requires forall s :: s in symbols ==> s in st.portfolio
    requires HeldCount(st.portfolio) <= maxPositions
    ensures HeldCount(Run(Fixed, maxPositions, positionSize, st, symbols, feeds).state.portfolio) <= maxPositions
    decreases |symbols|
  {
    if |symbols| > 0 {
      VisitFixedCapped(maxPositions, positionSize, st, symbols[0], feeds[0]);
      var v := Visit(Fixed, maxPositions, positionSize, st, symbols[0], feeds[0]);
      if v.error.None? {
        RunFixedCapped(maxPositions, positionSize, v.state, symbols[1..], feeds[1..]);
      }
    }
  }

  /** An iteration over two symbols is the second turn after the first, unless the
      first raised. */
  lemma RunTwo(mode: Bookkeeping, maxPositions: int, positionSize: real, st: MultiState, a: string, b: string,
               fa: Feed, fb: Feed)
    requires a in st.portfolio && b in st.portfolio
    ensures var v := Visit(mode, maxPositions, positionSize, st, a, fa);
      Run(mode, maxPositions, positionSize, st, [a, b], [fa, fb])
      == if v.error.Some? then v else Visit(mode, maxPositions, positionSize, v.state, b, fb)
  {
    var v := Visit(mode, maxPositions, positionSize, st, a, fa);
    assert [a, b][1..] == [b] && [fa, fb][1..] == [fb];
    if v.error.None? {
      var w := Visit(mode, maxPositions, positionSize, v.state, b, fb);
      assert [b][1..] == [] && [fb][1..] == [];
      assert Run(mode, maxPositions, positionSize, v.state, [b], [fb])
        == if w.error.Some? then w else Run(mode, maxPositions, positionSize, w.state, [], []);
    }
  }

  function EmptyPortfolio(): map<string, Holding>
  {
    map["A" := Holding(None, None), "B" := Holding(None, None)]
  }

  /** The feeds of the two symbols: the same bars, and `posA` as A's reported position. */
  function TwoFeeds(bars: seq<Bar>, posA: Option<real>): seq<Feed>
  {
    [Feed(History(bars), posA), Feed(History(bars), None)]
  }

  /** The portfolio after the first iteration: A recorded at the latest close, with the
      pre-buy position (None) as written and the bought quantity with the fix. */
  function AfterFirst(mode: Bookkeeping, bars: seq<Bar>, size: real): map<string, Holding>
    requires |bars| > 0
  {
    EmptyPortfolio()["A" := Holding(if mode == Fixed then Some(size) else None, Some(LastClose(bars)))]
  }

  /** A BUY turn changes nothing when the count has reached `max_positions` or the
      broker already reports a position. */
  lemma BuyTurnSkipped(mode: Bookkeeping, maxPositions: int, size: real, st: MultiState, symbol: string, feed: Feed)
    requires symbol in st.portfolio
    requires feed.bars.History? && |feed.bars.bars| >= 20 && AnalyzeAsset(Closes(feed.bars.bars)).signal == "BUY"
    requires HasPosition(feed.position) || (if mode == Fixed then HeldCount(st.portfolio) else st.held) >= maxPositions
    ensures Visit(mode, maxPositions, size, st, symbol, feed) == Visited(st, None)
  {
  }

  /** A BUY turn without a reported position and under the cap buys `position_size`. */
  lemma BuyTurnTaken(mode: Bookkeeping, maxPositions: int, size: real, st: MultiState, symbol: string, feed: Feed)
    requires symbol in st.portfolio
    requires feed.bars.History? && |feed.bars.bars| >= 20 && AnalyzeAsset(Closes(feed.bars.bars)).signal == "BUY"
    requires !HasPosition(feed.position) && (if mode == Fixed then HeldCount(st.portfolio) else st.held) < maxPositions
    ensures var v := Visit(mode, maxPositions, size, st, symbol, feed);
      v.error.None? && v.state.orders == st.orders + [Market(Buy, size)]
      && v.state.portfolio == st.portfolio[symbol := Holding(if mode == Fixed then Some(size) else feed.position,
                                                             Some(LastClose(feed.bars.bars)))]
  {
  }

  /** A's turn in the first iteration: nothing held and a BUY, so A is bought and
      recorded. */
  lemma FirstTurn(mode: Bookkeeping, bars: seq<Bar>, size: real)
    requires |bars| >= 20 && AnalyzeAsset(Closes(bars)).signal == "BUY"
    ensures var v := Visit(mode, 1, size, Start(EmptyPortfolio()), "A", Feed(History(bars), None));
      v.error.None? && v.state.portfolio == AfterFirst(mode, bars, size) && v.state.orders == [Market(Buy, size)]
      && v.state.held == 1 && (mode == Fixed ==> HeldCount(v.state.portfolio) == 1)
  {
    assert HeldSymbols(EmptyPortfolio()) == {};
    BuyTurnTaken(mode, 1, size, Start(EmptyPortfolio()), "A", Feed(History(bars), None));
    if mode == Fixed {
      assert HeldSymbols(AfterFirst(mode, bars, size)) == {"A"};
    }
  }

  /** First iteration, `max_positions` 1, both symbols reading BUY and nothing held:
      either way A is bought and B is refused by the cap. */
  lemma FirstIteration(mode: Bookkeeping, bars: seq<Bar>, size: real)
    requires |bars| >= 20 && AnalyzeAsset(Closes(bars)).signal == "BUY"
    ensures var r := Run(mode, 1, size, Start(EmptyPortfolio()), ["A", "B"], TwoFeeds(bars, None));
      r.error.None? && r.state.orders == [Market(Buy, size)] && r.state.portfolio == AfterFirst(mode, bars, size)
  {
    var feeds := TwoFeeds(bars, None);
    RunTwo(mode, 1, size, Start(EmptyPortfolio()), "A", "B", feeds[0], feeds[1]);
    FirstTurn(mode, bars, size);
    var v := Visit(mode, 1, size, Start(EmptyPortfolio()), "A", feeds[0]);
    BuyTurnSkipped(mode, 1, size, v.state, "B", feeds[1]);
  }

  /** Second iteration as written, the broker now reporting A held: the count restarts
      at 0 because A's entry records no position, and B is bought too, two positions
      against a maximum of 1. */
  lemma SecondIterationAsWritten(bars: seq<Bar>, size: real)
    requires |bars| >= 20 && AnalyzeAsset(Closes(bars)).signal == "BUY"
    requires size > 0.0
    ensures var r := Run(AsWritten, 1, size, Start(AfterFirst(AsWritten, bars, size)), ["A", "B"], TwoFeeds(bars, Some(size)));
      r.error.None? && r.state.orders == [Market(Buy, size)]
  {
    var p1 := AfterFirst(AsWritten, bars, size);
    assert HeldSymbols(p1) == {};
    var feeds := TwoFeeds(bars, Some(size));
    var st := Start(p1);
    assert st.held == 0;
    RunTwo(AsWritten, 1, size, st, "A", "B", feeds[0], feeds[1]);
    BuyTurnSkipped(AsWritten, 1, size, st, "A", feeds[0]);
    BuyTurnTaken(AsWritten, 1, size, st, "B", feeds[1]);
  }

  /** Second iteration with the fix: A's entry counts, the cap is reached and nothing is
      bought. */
  lemma SecondIterationFixed(bars: seq<Bar>, size: real)
    requires |bars| >= 20 && AnalyzeAsset(Closes(bars)).signal == "BUY"
    requires size > 0.0
    ensures var r := Run(Fixed, 1, size, Start(AfterFirst(Fixed, bars, size)), ["A", "B"], TwoFeeds(bars, Some(size)));
      r.error.None? && r.state.orders == []
  {
    var p1 := AfterFirst(Fixed, bars, size);
    assert HeldSymbols(p1) == {"A"};
    var feeds := TwoFeeds(bars, Some(size));
    var st := Start(p1);
    assert HeldCount(st.portfolio) == 1;
    RunTwo(Fixed, 1, size, st, "A", "B", feeds[0], feeds[1]);
    BuyTurnSkipped(Fixed, 1, size, st, "A", feeds[0]);
    BuyTurnSkipped(Fixed, 1, size, st, "B", feeds[1]);
  }

  /** The loop over `symbols`: one turn per symbol, leaving the loop at the first
      error. */
  method RunTurns(mode: Bookkeeping, maxPositions: int, positionSize: real, start: MultiState,
                  symbols: seq<string>, feeds: seq<Feed>) returns (r: Visited)
    requires |feeds| == |symbols|
    requires forall s :: s in symbols ==> s in start.portfolio
    ensures r == Run(mode, maxPositions, positionSize, start, symbols, feeds)
    ensures r.state.portfolio.Keys == start.portfolio.Keys
  {
    var st := start;
    var i := 0;
    while i < |symbols|
      invariant 0 <= i <= |symbols|
      invariant st.portfolio.Keys == start.portfolio.Keys
      invariant Run(mode, maxPositions, positionSize, start, symbols, feeds)
        == Run(mode, maxPositions, positionSize, st, symbols[i..], feeds[i..])
    {
      var v := Visit(mode, maxPositions, positionSize, st, symbols[i], feeds[i]);
      if v.error.Some? {
        return v;
      }
      assert symbols[i..][1..] == symbols[i + 1..] && feeds[i..][1..] == feeds[i + 1..];
      st := v.state;
      i := i + 1;
    }
    return Visited(st, None);
  }

  class MultiAssetStrategy {
    const symbols: seq<string>
    const maxPositions: int
    const positionSize: real

    var portfolio: map<string, Holding>
    var signals: seq<Emitted>

    /** Every traded symbol has a portfolio entry. */
    predicate Valid()
      reads this
    {
      forall s :: s in symbols ==> s in portfolio
    }

    constructor (symbols: seq<string>, maxPositions: int, positionSize: real)
      ensures Valid()
      ensures this.symbols == symbols && this.maxPositions == maxPositions && this.positionSize == positionSize
      ensures portfolio == map s | s in symbols :: Holding(None, None)
      ensures HeldCount(portfolio) == 0 && signals == []
    {
      this.symbols := symbols;
      this.maxPositions := maxPositions;
      this.positionSize := positionSize;
      var empty := map s | s in symbols :: Holding(None, None);
      assert HeldSymbols(empty) == {};
      portfolio := empty;
      signals := [];
    }

    /** `on_trading_iteration` with the fixed bookkeeping: the turns of every symbol in
        order; an error stops the loop with the portfolio and signals of the turns before
        it kept. The recorded positions stay within `max_positions`. */
    method OnTradingIteration(feeds: seq<Feed>) returns (orders: seq<Order>, error: Option<string>)
      requires Valid() && |feeds| == |symbols|
      modifies this
      ensures Valid()
      ensures var r := Run(Fixed, maxPositions, positionSize, Start(old(portfolio)), symbols, feeds);
        portfolio == r.state.portfolio && orders == r.state.orders && error == r.error
        && signals == old(signals) + r.state.emitted
      ensures HeldCount(old(portfolio)) <= maxPositions ==> HeldCount(portfolio) <= maxPositions
    {
      if HeldCount(portfolio) <= maxPositions {
        RunFixedCapped(maxPositions, positionSize, Start(portfolio), symbols, feeds);
      }
      var r := RunTurns(Fixed, maxPositions, positionSize, Start(portfolio), symbols, feeds);
      portfolio := r.state.portfolio;
      orders, error := r.state.orders, r.error;
      signals := signals + r.state.emitted;
    }
  }

  // ---------------------------------------------------------------- registry

  datatype AdvancedKind = AiTradingKind | SentimentKind | MultiAssetKind

  /** ADVANCED_STRATEGIES. */
  function AdvancedStrategies(): Table<AdvancedKind>
  {
    [Entry("ai_trading", AiTradingKind), Entry("sentiment", SentimentKind), Entry("multi_asset", MultiAssetKind)]
  }

  lemma AdvancedStrategiesLookup(id: string)
    ensures Keys(AdvancedStrategies()) == ["ai_trading", "sentiment", "multi_asset"]
    ensures Get(AdvancedStrategies(), id).None? <==> id !in ["ai_trading", "sentiment", "multi_asset"]
    ensures Get(AdvancedStrategies(), "multi_asset") == Some(MultiAssetKind)
  {
    assert Keys(AdvancedStrategies()) == ["ai_trading", "sentiment", "multi_asset"];
  }
}
