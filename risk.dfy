// Declarative risk rules: position sizing, take-profit and stop-loss prices, trailing
// levels and the per-symbol rule lookup (iaf-service/strategies/risk.py).

module Risk {
  import opened Common

  /** Python's `side.lower() == "long"` for ASCII side names. */
  predicate IsLong(side: string)
  {
    AsciiLower(side) == "long"
  }

  lemma LongSpellings()
    ensures IsLong("long") && IsLong("LONG") && IsLong("Long")
    ensures !IsLong("short") && !IsLong("")
  {
    assert AsciiLower("long") == "long";
    assert AsciiLower("LONG") == "long";
    assert AsciiLower("Long") == "long";
    assert |AsciiLower("short")| == 5;
  }

  datatype StopLossType = Fixed | Trailing | AtrBased | SupportBased | TimeBased

  datatype PositionSize = PositionSize(
    symbol: string,
    percentageOfPortfolio: real,
    fixedAmount: Option<real>,
    maxAmount: Option<real>,
    minAmount: Option<real>,
    riskPerTrade: Option<real>)

  /** The size before any cap: fixed_amount / price, or the portfolio share / price. */
  function BaseSize(ps: PositionSize, portfolioValue: real, price: real): real
    requires price != 0.0
  {
    if ps.fixedAmount.Some? then ps.fixedAmount.value / price
    else portfolioValue * (ps.percentageOfPortfolio / 100.0) / price
  }

  /** Whether the risk cap applies: a stop and a risk percentage, and a non-zero distance. */
  predicate RiskApplies(ps: PositionSize, price: real, stop: Option<real>)
  {
    stop.Some? && ps.riskPerTrade.Some? && Abs(price - stop.value) > 0.0
  }

  /** The size whose loss at the stop is exactly risk_per_trade % of the portfolio. */
  function RiskSize(ps: PositionSize, portfolioValue: real, price: real, stop: Option<real>): (r: real)
    requires RiskApplies(ps, price, stop)
    ensures r * Abs(price - stop.value) == portfolioValue * (ps.riskPerTrade.value / 100.0)
  {
    portfolioValue * (ps.riskPerTrade.value / 100.0) / Abs(price - stop.value)
  }

  /** Any size no larger than the risk size loses at most risk_per_trade % of the
      portfolio when the stop is hit. */
  lemma LossWithinRisk(ps: PositionSize, portfolioValue: real, price: real, stop: Option<real>, size: real)
    requires RiskApplies(ps, price, stop) && size <= RiskSize(ps, portfolioValue, price, stop)
    ensures size * Abs(price - stop.value) <= portfolioValue * (ps.riskPerTrade.value / 100.0)
  {
    var cap, dist := RiskSize(ps, portfolioValue, price, stop), Abs(price - stop.value);
    assert (cap - size) * dist >= 0.0;
  }

  /** PositionSize.calculate_size: the base size, lowered to the risk size when the cap
      applies, then raised to min_amount / price, then lowered to max_amount / price. */
  function CalculateSize(ps: PositionSize, portfolioValue: real, price: real, stop: Option<real>): (r: real)
    requires price != 0.0
    ensures ps.maxAmount.Some? ==> r <= ps.maxAmount.value / price
    ensures ps.minAmount.Some? && (ps.maxAmount.None? || ps.minAmount.value / price <= ps.maxAmount.value / price) ==>
      r >= ps.minAmount.value / price
    ensures ps.minAmount.None? && RiskApplies(ps, price, stop) ==>
      r * Abs(price - stop.value) <= portfolioValue * (ps.riskPerTrade.value / 100.0)
    ensures ps.minAmount.None? && ps.maxAmount.None? && !RiskApplies(ps, price, stop) ==>
      r == BaseSize(ps, portfolioValue, price)
    ensures ps.minAmount.None? ==> r <= BaseSize(ps, portfolioValue, price)
  {
    var base := BaseSize(ps, portfolioValue, price);
    var capped := if RiskApplies(ps, price, stop) then Min(base, RiskSize(ps, portfolioValue, price, stop)) else base;
    var raised := if ps.minAmount.Some? then Max(capped, ps.minAmount.value / price) else capped;
    var size := if ps.maxAmount.Some? then Min(raised, ps.maxAmount.value / price) else raised;
    assert ps.minAmount.None? && RiskApplies(ps, price, stop) ==>
      size * Abs(price - stop.value) <= portfolioValue * (ps.riskPerTrade.value / 100.0) by {
      if ps.minAmount.None? && RiskApplies(ps, price, stop) {
        assert size <= capped;
        LossWithinRisk(ps, portfolioValue, price, stop, size);
      }
    }
    size
  }

  /** Passing a stop price can only lower the size: every later step is monotone. */
  lemma RiskSizingNeverIncreases(ps: PositionSize, portfolioValue: real, price: real, stop: real)
    requires price != 0.0
    ensures CalculateSize(ps, portfolioValue, price, Some(stop)) <= CalculateSize(ps, portfolioValue, price, None)
  {
    var base := BaseSize(ps, portfolioValue, price);
    var capped := if RiskApplies(ps, price, Some(stop)) then Min(base, RiskSize(ps, portfolioValue, price, Some(stop))) else base;
    assert capped <= base;
  }

  /** One configured take-profit level; a missing key takes its default. */
  datatype LevelSpec = LevelSpec(percentage: Option<real>, sellPercentage: Option<real>)

  datatype LevelTarget = LevelTarget(targetPrice: real, sellPercentage: real)

  datatype TakeProfitRule = TakeProfitRule(
    symbol: string,
    percentageThreshold: real,
    trailing: bool,
    trailingOffset: real,
    sellPercentage: real,
    multipleLevels: Option<seq<LevelSpec>>)

  /** TakeProfitRule.calculate_target_price: above the entry for a long side, below otherwise. */
  function TargetPrice(rule: TakeProfitRule, entry: real, side: string): (r: real)
    ensures IsLong(side) ==> r - entry == entry * rule.percentageThreshold / 100.0
    ensures !IsLong(side) ==> entry - r == entry * rule.percentageThreshold / 100.0
    ensures entry > 0.0 && rule.percentageThreshold > 0.0 ==> (IsLong(side) <==> r > entry)
  {
    if IsLong(side) then entry * (1.0 + rule.percentageThreshold / 100.0)
    else entry * (1.0 - rule.percentageThreshold / 100.0)
  }

  /** The long and the short target sit symmetrically around the entry. */
  lemma TargetsSymmetric(rule: TakeProfitRule, entry: real, side: string)
    requires IsLong(side)
    ensures TargetPrice(rule, entry, side) + TargetPrice(rule, entry, "short") == 2.0 * entry
  {
    LongSpellings();
  }

  /** A trailing distance below (long) or above (short) a price. */
  function TrailBelow(price: real, offset: real): real
  {
    price * (1.0 - offset / 100.0)
  }

  function TrailAbove(price: real, offset: real): real
  {
    price * (1.0 + offset / 100.0)
  }

  /** TakeProfitRule.update_trailing: nothing without trailing, else the offset level from
      the highest price (below it for a long side, above it otherwise). */
  function TakeProfitTrailing(rule: TakeProfitRule, highest: real, side: string): (r: Option<real>)
    ensures r.None? <==> !rule.trailing
    ensures r.Some? && highest >= 0.0 && rule.trailingOffset >= 0.0 ==>
      (IsLong(side) ==> r.value <= highest) && (!IsLong(side) ==> r.value >= highest)
  {
    if !rule.trailing then None
    else
      assert highest >= 0.0 && rule.trailingOffset >= 0.0 ==>
        TrailBelow(highest, rule.trailingOffset) <= highest <= TrailAbove(highest, rule.trailingOffset) by {
        if highest >= 0.0 && rule.trailingOffset >= 0.0 {
          assert highest * (rule.trailingOffset / 100.0) >= 0.0;
        }
      }
      if IsLong(side) then Some(TrailBelow(highest, rule.trailingOffset))
      else Some(TrailAbove(highest, rule.trailingOffset))
  }

  /** One entry of get_level_targets: defaults 5.0 % and 50.0 %, priced above the entry. */
  function LevelOf(level: LevelSpec, entry: real): (t: LevelTarget)
    ensures entry > 0.0 && level.percentage.GetOr(5.0) > 0.0 ==> t.targetPrice > entry
  {
    var pct := level.percentage.GetOr(5.0);
    LevelTarget(entry * (1.0 + pct / 100.0), level.sellPercentage.GetOr(50.0))
  }

  /** Python truthiness of the optional level list: None and [] are both falsy. */
  predicate HasLevels(rule: TakeProfitRule)
  {
    rule.multipleLevels.Some? && |rule.multipleLevels.value| > 0
  }

  /** TakeProfitRule.get_level_targets: one target per configured level, or the single fixed
      target (for a long side) with the rule's sell percentage. */
  method GetLevelTargets(rule: TakeProfitRule, entry: real) returns (levels: seq<LevelTarget>)
    ensures HasLevels(rule) ==>
      |levels| == |rule.multipleLevels.value|
      && forall k :: 0 <= k < |levels| ==> levels[k] == LevelOf(rule.multipleLevels.value[k], entry)
    ensures !HasLevels(rule) ==>
      levels == [LevelTarget(TargetPrice(rule, entry, "long"), rule.sellPercentage)]
  {
    if !HasLevels(rule) {
      return [LevelTarget(TargetPrice(rule, entry, "long"), rule.sellPercentage)];
    }
    var specs := rule.multipleLevels.value;
    levels := [];
    var i := 0;
    while i < |specs|
      invariant 0 <= i <= |specs| && |levels| == i
      invariant forall k :: 0 <= k < i ==> levels[k] == LevelOf(specs[k], entry)
    {
      levels := levels + [LevelOf(specs[i], entry)];
      i := i + 1;
    }
  }

  /** With a positive entry and positive configured percentages every target is above the entry. */
  lemma LevelTargetsAboveEntry(rule: TakeProfitRule, entry: real, levels: seq<LevelTarget>)
    requires entry > 0.0 && rule.percentageThreshold > 0.0
    requires HasLevels(rule) ==> forall l :: l in rule.multipleLevels.value ==> l.percentage.GetOr(5.0) > 0.0
    requires HasLevels(rule) ==>
      |levels| == |rule.multipleLevels.value|
      && forall k :: 0 <= k < |levels| ==> levels[k] == LevelOf(rule.multipleLevels.value[k], entry)
    requires !HasLevels(rule) ==> levels == [LevelTarget(TargetPrice(rule, entry, "long"), rule.sellPercentage)]
    ensures forall t :: t in levels ==> t.targetPrice > entry
  {
    LongSpellings();
    forall t | t in levels
      ensures t.targetPrice > entry
    {
      var k :| 0 <= k < |levels| && levels[k] == t;
      if HasLevels(rule) {
        assert rule.multipleLevels.value[k] in rule.multipleLevels.value;
      }
    }
  }

  datatype StopLossRule = StopLossRule(
    symbol: string,
    percentageThreshold: real,
    slType: StopLossType,
    trailing: bool,
    trailingOffset: real,
    trailingActivation: real,
    atrMultiplier: Option<real>,
    sellPercentage: real)

  /** `atr_multiplier or 2.0`: None and 0.0 both fall back to 2.0. */
  function AtrMultiplier(rule: StopLossRule): real
  {
    if Truthy(rule.atrMultiplier) then rule.atrMultiplier.value else 2.0
  }

  /** StopLossRule.calculate_stop_price: an ATR distance for ATR_BASED rules given an ATR,
      otherwise the percentage distance; below the entry for a long side, above otherwise. */
  function StopPrice(rule: StopLossRule, entry: real, side: string, atr: Option<real>): (r: real)
    ensures rule.slType == AtrBased && atr.Some? ==>
      (if IsLong(side) then entry - r else r - entry) == atr.value * AtrMultiplier(rule)
    ensures !(rule.slType == AtrBased && atr.Some?) ==>
      (if IsLong(side) then entry - r else r - entry) == entry * rule.percentageThreshold / 100.0
  {
    if rule.slType == AtrBased && atr.Some? then
      var offset := atr.value * AtrMultiplier(rule);
      if IsLong(side) then entry - offset else entry + offset
    else
      if IsLong(side) then entry * (1.0 - rule.percentageThreshold / 100.0)
      else entry * (1.0 + rule.percentageThreshold / 100.0)
  }

  /** A stop and a target from rules with positive thresholds bracket a positive entry. */
  lemma StopAndTargetBracketEntry(sl: StopLossRule, tp: TakeProfitRule, entry: real, side: string)
    requires entry > 0.0 && sl.percentageThreshold > 0.0 && tp.percentageThreshold > 0.0 && sl.slType != AtrBased
    ensures IsLong(side) ==> StopPrice(sl, entry, side, None) < entry < TargetPrice(tp, entry, side)
    ensures !IsLong(side) ==> TargetPrice(tp, entry, side) < entry < StopPrice(sl, entry, side, None)
  {
    assert entry * sl.percentageThreshold / 100.0 > 0.0;
  }

  /** The profit, in percent of the entry, that trailing_activation is compared with. */
  function ActivationProfit(highest: real, entry: real, side: string): real
    requires entry != 0.0
  {
    if IsLong(side) then (highest - entry) / entry * 100.0
    else (entry - highest) / entry * 100.0
  }

  predicate ActivationNeedsEntry(rule: StopLossRule, entry: real)
  {
    rule.trailing && rule.trailingActivation > 0.0 ==> entry != 0.0
  }

  /** StopLossRule.update_trailing: nothing without trailing or below the activation profit;
      otherwise the offset level from the highest price. */
  function StopLossTrailing(rule: StopLossRule, highest: real, entry: real, side: string): (r: Option<real>)
    requires ActivationNeedsEntry(rule, entry)
    ensures r.None? <==>
      !rule.trailing || (rule.trailingActivation > 0.0 && ActivationProfit(highest, entry, side) < rule.trailingActivation)
    ensures r.Some? && highest >= 0.0 && rule.trailingOffset >= 0.0 ==>
      (IsLong(side) ==> r.value <= highest) && (!IsLong(side) ==> r.value >= highest)
  {
    if !rule.trailing then None
    else if rule.trailingActivation > 0.0 && ActivationProfit(highest, entry, side) < rule.trailingActivation then None
    else
      assert highest >= 0.0 && rule.trailingOffset >= 0.0 ==>
        TrailBelow(highest, rule.trailingOffset) <= highest <= TrailAbove(highest, rule.trailingOffset) by {
        if highest >= 0.0 && rule.trailingOffset >= 0.0 {
          assert highest * (rule.trailingOffset / 100.0) >= 0.0;
        }
      }
      if IsLong(side) then Some(TrailBelow(highest, rule.trailingOffset))
      else Some(TrailAbove(highest, rule.trailingOffset))
  }

  /** Once a long trailing stop is active it stays active as the highest price rises, and
      its level rises with it. */
  lemma {:induction false} TrailingStaysActive(rule: StopLossRule, highest: real, higher: real, entry: real, side: string)
    requires entry > 0.0 && IsLong(side) && highest <= higher && rule.trailingOffset <= 100.0
    requires StopLossTrailing(rule, highest, entry, side).Some?
    ensures StopLossTrailing(rule, higher, entry, side).Some?
    ensures StopLossTrailing(rule, highest, entry, side).value <= StopLossTrailing(rule, higher, entry, side).value
  {
    assert (highest - entry) / entry <= (higher - entry) / entry;
    var f := 1.0 - rule.trailingOffset / 100.0;
    assert f >= 0.0;
    assert highest * f <= higher * f;
  }

  datatype RiskConfig = RiskConfig(
    positionSizes: seq<PositionSize>,
    takeProfits: seq<TakeProfitRule>,
    stopLosses: seq<StopLossRule>,
    maxOpenPositions: int,
    maxPortfolioRisk: real,
    maxCorrelatedPositions: int,
    dailyLossLimit: Option<real>)

  /** The dataclass defaults: no rules, at most five open positions. */
  const DefaultRiskConfig := RiskConfig([], [], [], 5, 20.0, 2, None)

  /** The first index whose symbol equals `symbol` exactly ("*" is not a wildcard here). */
  function FirstIndex(symbols: seq<string>, symbol: string): (r: Option<nat>)
    ensures r.None? <==> symbol !in symbols
    ensures r.Some? ==> r.value < |symbols| && symbols[r.value] == symbol && symbol !in symbols[..r.value]
  {
    if |symbols| == 0 then None
    else if symbols[0] == symbol then Some(0)
    else
      var rest := FirstIndex(symbols[1..], symbol);
      assert symbols == [symbols[0]] + symbols[1..];
      if rest.None? then None
      else
        assert symbols[..rest.value + 1] == [symbols[0]] + symbols[1..][..rest.value];
        Some(rest.value + 1)
  }

  /** The symbols of a rule list, in order; `symbolOf` reads a rule's symbol. */
  function RuleSymbols<R>(rules: seq<R>, symbolOf: R -> string): (r: seq<string>)
    ensures |r| == |rules| && forall k :: 0 <= k < |r| ==> r[k] == symbolOf(rules[k])
  {
    seq(|rules|, k requires 0 <= k < |rules| => symbolOf(rules[k]))
  }

  /** The rule the getters find: the first one for exactly this symbol. */
  function FirstRule<R>(rules: seq<R>, symbolOf: R -> string, symbol: string): (r: Option<R>)
    ensures r.None? <==> forall k :: 0 <= k < |rules| ==> symbolOf(rules[k]) != symbol
    ensures r.Some? ==> r.value in rules && symbolOf(r.value) == symbol
  {
    var i := FirstIndex(RuleSymbols(rules, symbolOf), symbol);
    if i.None? then None else Some(rules[i.value])
  }

  function SizeSymbol(rule: PositionSize): string
  {
    rule.symbol
  }

  function TakeProfitSymbol(rule: TakeProfitRule): string
  {
    rule.symbol
  }

  function StopLossSymbol(rule: StopLossRule): string
  {
    rule.symbol
  }

  function PositionSizeFor(rc: RiskConfig, symbol: string): Option<PositionSize>
  {
    FirstRule(rc.positionSizes, SizeSymbol, symbol)
  }

  function TakeProfitFor(rc: RiskConfig, symbol: string): Option<TakeProfitRule>
  {
    FirstRule(rc.takeProfits, TakeProfitSymbol, symbol)
  }

  function StopLossFor(rc: RiskConfig, symbol: string): Option<StopLossRule>
  {
    FirstRule(rc.stopLosses, StopLossSymbol, symbol)
  }

  /** A "*" rule is not found for any other symbol. */
  lemma WildcardNotImplicit(rc: RiskConfig, symbol: string)
    requires symbol != "*"
    requires forall k :: 0 <= k < |rc.positionSizes| ==> rc.positionSizes[k].symbol == "*"
    ensures PositionSizeFor(rc, symbol).None?
  {
  }

  /** The find-first loop of get_position_size, get_take_profit_rule and get_stop_loss_rule. */
  method FindRule<R>(rules: seq<R>, symbolOf: R -> string, symbol: string) returns (r: Option<R>)
    ensures r == FirstRule(rules, symbolOf, symbol)
  {
    ghost var symbols := RuleSymbols(rules, symbolOf);
    var i := 0;
    while i < |rules|
      invariant 0 <= i <= |rules|
      invariant symbol !in symbols[..i]
    {
      if symbolOf(rules[i]) == symbol {
        FirstFound(symbols, symbol, i);
        return Some(rules[i]);
      }
      assert symbols[..i + 1] == symbols[..i] + [symbols[i]];
      i := i + 1;
    }
    assert symbols[..i] == symbols;
    return None;
  }

  /** RiskConfig.get_position_size. */
  method GetPositionSize(rc: RiskConfig, symbol: string) returns (r: Option<PositionSize>)
    ensures r == PositionSizeFor(rc, symbol)
  {
    r := FindRule(rc.positionSizes, SizeSymbol, symbol);
  }

  /** RiskConfig.get_take_profit_rule. */
  method GetTakeProfitRule(rc: RiskConfig, symbol: string) returns (r: Option<TakeProfitRule>)
    ensures r == TakeProfitFor(rc, symbol)
  {
    r := FindRule(rc.takeProfits, TakeProfitSymbol, symbol);
  }

  /** RiskConfig.get_stop_loss_rule. */
  method GetStopLossRule(rc: RiskConfig, symbol: string) returns (r: Option<StopLossRule>)
    ensures r == StopLossFor(rc, symbol)
  {
    r := FindRule(rc.stopLosses, StopLossSymbol, symbol);
  }

  /** The first match of a scan is the index FirstIndex names. */
  lemma FirstFound(symbols: seq<string>, symbol: string, i: nat)
    requires i < |symbols| && symbols[i] == symbol && symbol !in symbols[..i]
    ensures FirstIndex(symbols, symbol) == Some(i)
  {
    assert symbols[i] in symbols;
    var r := FirstIndex(symbols, symbol);
    forall k | 0 <= k < i
      ensures symbols[k] != symbol
    {
      assert symbols[..i][k] == symbols[k];
    }
    forall k | 0 <= k < r.value
      ensures symbols[k] != symbol
    {
      assert symbols[..r.value][k] == symbols[k];
    }
  }
}
