// The strategy base class and the strategy registry (iaf-service/strategies/base.py).
// A concrete strategy's buy and sell generators are abstract in the source; here they
// are functions passed in, from the data map to per-symbol flag series or the message
// of the exception they raise. The clock reading stamped on each signal is a parameter.

module StrategyBase {
  import opened Common
  import opened KeyedTable
  import opened StrategyTypes
  import opened Risk

  /** A strategy class as the registry sees it: its class-level configuration. */
  datatype StrategyClass = StrategyClass(
    algorithmId: string,
    symbols: seq<string>,
    description: string,
    version: string)

  /** The keyword arguments of the strategy constructor. */
  datatype StrategyArgs = StrategyArgs(
    dataSources: Option<seq<DataSource>>,
    riskConfig: Option<RiskConfig>,
    positionSizes: Option<seq<PositionSize>>,
    takeProfits: Option<seq<TakeProfitRule>>,
    stopLosses: Option<seq<StopLossRule>>)

  /** Data source identifier -> candles. */
  type DataMap = Table<seq<OHLCVData>>

  /** One symbol's boolean signal series, as a generator returns it. */
  datatype SymbolFlags = SymbolFlags(symbol: string, flags: seq<bool>)

  /** A buy or sell generator: the series per symbol, or the message of the exception it raises. */
  type Generator = DataMap -> Result<seq<SymbolFlags>, string>

  // ----- The data-source map -----

  /** The map the constructor builds: each source stored under its identifier, in order. */
  function SourcesFrom(list: seq<DataSource>): (t: Table<DataSource>)
  {
    if |list| == 0 then []
    else
      var ds := list[|list| - 1];
      Put(SourcesFrom(list[..|list| - 1]), ds.config.identifier, ds)
  }

  /** A later source with the same identifier replaces an earlier one. */
  lemma {:induction false} LaterSourceWins(list: seq<DataSource>, k: nat)
    requires k < |list|
    requires forall j :: k < j < |list| ==> list[j].config.identifier != list[k].config.identifier
    ensures Get(SourcesFrom(list), list[k].config.identifier) == Some(list[k])
  {
    var last := list[|list| - 1];
    if k == |list| - 1 {
      PutGet(SourcesFrom(list[..|list| - 1]), last.config.identifier, last);
    } else {
      LaterSourceWins(list[..|list| - 1], k);
      PutOther(SourcesFrom(list[..|list| - 1]), last.config.identifier, last, list[k].config.identifier);
    }
  }

  lemma {:induction false} SourcesFromDistinct(list: seq<DataSource>)
    ensures DistinctKeys(SourcesFrom(list))
  {
    if |list| > 0 {
      var ds := list[|list| - 1];
      SourcesFromDistinct(list[..|list| - 1]);
      PutDistinct(SourcesFrom(list[..|list| - 1]), ds.config.identifier, ds);
    }
  }

  /** The index of the first source (in insertion order) configured for `symbol`. */
  function FirstSourceFor(t: Table<DataSource>, symbol: string): (r: Option<nat>)
    ensures r.Some? ==> r.value < |t| && t[r.value].value.config.symbol == symbol
    ensures r.Some? ==> forall j :: 0 <= j < r.value ==> t[j].value.config.symbol != symbol
    ensures r.None? ==> forall j :: 0 <= j < |t| ==> t[j].value.config.symbol != symbol
  {
    if |t| == 0 then None
    else if t[0].value.config.symbol == symbol then Some(0)
    else
      match FirstSourceFor(t[1..], symbol)
      case None => None
      case Some(i) => Some(i + 1)
  }

  /** get_latest_price: the price of the first source for the symbol, even when that
      source has no data and a later one has. */
  function LatestPrice(t: Table<DataSource>, symbol: string): (r: Option<real>)
    ensures r.Some? ==>
      FirstSourceFor(t, symbol).Some?
      && IsLoaded(t[FirstSourceFor(t, symbol).value].value)
    ensures FirstSourceFor(t, symbol).Some? && IsLoaded(t[FirstSourceFor(t, symbol).value].value) ==>
      r.Some?
  {
    match FirstSourceFor(t, symbol)
    case None => None
    case Some(i) => GetPrice(t[i].value)
  }

  /** The data map used when none is given: every source whose data is not None. */
  function LoadedData(t: Table<DataSource>): (r: DataMap)
    ensures |r| <= |t|
    ensures forall k :: k in Keys(r) ==> k in Keys(t)
  {
    if |t| == 0 then []
    else
      var rest := LoadedData(t[1..]);
      if t[0].value.data.Some? then [Entry(t[0].key, t[0].value.data.value)] + rest else rest
  }

  lemma {:induction false} LoadedDataGet(t: Table<DataSource>, k: string)
    requires DistinctKeys(t)
    ensures Get(LoadedData(t), k) == match Get(t, k) case None => None case Some(ds) => ds.data
  {
    if |t| > 0 {
      assert DistinctKeys(t[1..]) by {
        forall i, j | 0 <= i < j < |t[1..]|
          ensures t[1..][i].key != t[1..][j].key
        {
          assert t[1..][i] == t[i + 1] && t[1..][j] == t[j + 1];
        }
      }
      LoadedDataGet(t[1..], k);
      if t[0].key == k {
        assert k !in Keys(t[1..]);
        assert k !in Keys(LoadedData(t[1..]));
      }
    }
  }

  // ----- Signal generation -----

  /** The latest flag of a series is set (reading it from an empty series raises). */
  predicate Fires(s: SymbolFlags)
  {
    |s.flags| > 0 && s.flags[|s.flags| - 1]
  }

  /** pandas' message for `.iloc[-1]` on an empty series. */
  const IndexOutOfBounds := "single positional indexer is out-of-bounds"

  function Reason(kind: SignalType, algorithmId: string): string
  {
    (if kind == Buy then "Buy signal from " else "Sell signal from ") + algorithmId
  }

  /** The result of one generator pass: the signals emitted and the error that ended it, if any. */
  datatype Pass = Pass(signals: seq<Signal>, error: Option<string>)

  /** What a generator pass is run against: the sources priced from, the strategy id named
      in each reason, the signal type emitted and the clock reading stamped. */
  datatype PassContext = PassContext(sources: Table<DataSource>, algorithmId: string, kind: SignalType, now: int)

  /** A signal as generate_signals builds it: default confidence and empty metadata. */
  predicate BuiltFor(s: Signal, c: PassContext)
  {
    s.signalType == c.kind
    && Truthy(LatestPrice(c.sources, s.symbol)) && s.price == LatestPrice(c.sources, s.symbol).value
    && s.timestamp == c.now && s.confidence == 1.0
    && s.reason == Reason(c.kind, c.algorithmId)
    && s.metadata == EmptyMetadata
  }

  /** The signal one non-empty series yields: one when its latest flag is set and the
      symbol's latest price is truthy. */
  function Emitted(c: PassContext, e: SymbolFlags): Option<Signal>
  {
    var price := LatestPrice(c.sources, e.symbol);
    if Fires(e) && Truthy(price) then
      Some(Signal(c.kind, e.symbol, price.value, c.now, 1.0, Reason(c.kind, c.algorithmId), EmptyMetadata))
    else None
  }

  function OptionSeq<T>(o: Option<T>): seq<T>
  {
    if o.Some? then [o.value] else []
  }

  /** A pass that had already emitted `out` before resuming with `p`. */
  function Resume(out: seq<Signal>, p: Pass): Pass
  {
    Pass(out + p.signals, p.error)
  }

  /** The pass from index i on: each series in turn contributes its signal, if any; an
      empty series raises and ends the pass, keeping the signals already emitted. */
  function EmitFrom(c: PassContext, series: seq<SymbolFlags>, i: nat): (p: Pass)
    requires i <= |series|
    decreases |series| - i
    ensures |p.signals| <= |series| - i
    ensures p.error.Some? ==> p.error.value == IndexOutOfBounds
  {
    if i == |series| then Pass([], None)
    else if |series[i].flags| == 0 then Pass([], Some(IndexOutOfBounds))
    else Resume(OptionSeq(Emitted(c, series[i])), EmitFrom(c, series, i + 1))
  }

  /** One pass over a generator's series. */
  function Emit(c: PassContext, series: seq<SymbolFlags>): Pass
  {
    EmitFrom(c, series, 0)
  }

  /** A pass fails exactly when one of the series is empty, and every signal it emits is
      built as generate_signals builds it. */
  lemma {:induction false} EmitBuilt(c: PassContext, series: seq<SymbolFlags>, i: nat)
    requires i <= |series|
    decreases |series| - i
    ensures var p := EmitFrom(c, series, i);
      (p.error.None? <==> forall k :: i <= k < |series| ==> |series[k].flags| > 0)
      && forall s :: s in p.signals ==> BuiltFor(s, c)
  {
    if i < |series| && |series[i].flags| > 0 {
      EmitBuilt(c, series, i + 1);
    }
  }

  /** Every emitted signal comes from a firing series of the same symbol. */
  lemma {:induction false} EmitSound(c: PassContext, series: seq<SymbolFlags>, i: nat, s: Signal)
    requires i <= |series|
    requires s in EmitFrom(c, series, i).signals
    decreases |series| - i
    ensures exists k :: i <= k < |series| && series[k].symbol == s.symbol && Fires(series[k])
  {
    if s !in OptionSeq(Emitted(c, series[i])) {
      EmitSound(c, series, i + 1, s);
    }
  }

  /** A pass that ends without error emits a signal for every firing series with a truthy price. */
  lemma {:induction false} EmitComplete(c: PassContext, series: seq<SymbolFlags>, i: nat, k: nat)
    requires i <= k < |series| && Fires(series[k]) && Truthy(LatestPrice(c.sources, series[k].symbol))
    requires EmitFrom(c, series, i).error.None?
    decreases |series| - i
    ensures exists s :: s in EmitFrom(c, series, i).signals && s.symbol == series[k].symbol
  {
    var p := EmitFrom(c, series, i);
    if k == i {
      assert p.signals[0].symbol == series[k].symbol;
    } else {
      EmitComplete(c, series, i + 1, k);
      var s :| s in EmitFrom(c, series, i + 1).signals && s.symbol == series[k].symbol;
      assert s in p.signals;
    }
  }

  /** A pass over series none of which fires emits nothing. */
  lemma {:induction false} EmitQuiet(c: PassContext, series: seq<SymbolFlags>, i: nat)
    requires i <= |series|
    requires forall k :: i <= k < |series| ==> !Fires(series[k])
    decreases |series| - i
    ensures EmitFrom(c, series, i).signals == []
  {
    if i < |series| && |series[i].flags| > 0 {
      EmitQuiet(c, series, i + 1);
    }
  }

  /** One step of a pass: a non-empty series at index i contributes its signal, if any,
      ahead of the rest of the pass. */
  lemma EmitAdvance(c: PassContext, series: seq<SymbolFlags>, i: nat, out: seq<Signal>)
    requires i < |series| && |series[i].flags| > 0
    ensures Resume(out, EmitFrom(c, series, i)) == Resume(out + OptionSeq(Emitted(c, series[i])), EmitFrom(c, series, i + 1))
  {
    var e := OptionSeq(Emitted(c, series[i]));
    var rest := EmitFrom(c, series, i + 1).signals;
    assert out + (e + rest) == (out + e) + rest;
  }

  /** The state after recording `out` on top of a count and a last signal. */
  ghost predicate Counted(count0: int, last0: Option<Signal>, out: seq<Signal>, count: int, last: Option<Signal>)
  {
    count == count0 + |out| && last == if |out| == 0 then last0 else Some(out[|out| - 1])
  }

  /** One generator pass over its series, recording each emitted signal in the state. */
  method EmitSignals(st: StrategyState, c: PassContext, series: seq<SymbolFlags>)
    returns (out: seq<Signal>, error: Option<string>)
    modifies st
    ensures Pass(out, error) == Emit(c, series)
    ensures st.signalsGenerated == old(st.signalsGenerated) + |out|
    ensures st.lastSignal == if |out| == 0 then old(st.lastSignal) else Some(out[|out| - 1])
    ensures st.errors == old(st.errors) && st.tradesExecuted == old(st.tradesExecuted)
  {
    out := [];
    error := None;
    var i := 0;
    ghost var count0, last0, errors0, trades0 := st.signalsGenerated, st.lastSignal, st.errors, st.tradesExecuted;
    assert [] + EmitFrom(c, series, 0).signals == EmitFrom(c, series, 0).signals;
    while i < |series|
      invariant 0 <= i <= |series|
      invariant Emit(c, series) == Resume(out, EmitFrom(c, series, i))
      invariant Counted(count0, last0, out, st.signalsGenerated, st.lastSignal)
      invariant st.errors == errors0 && st.tradesExecuted == trades0
    {
      var entry := series[i];
      if |entry.flags| == 0 {
        assert out + [] == out;
        error := Some(IndexOutOfBounds);
        return;
      }
      EmitAdvance(c, series, i, out);
      var emitted := Emitted(c, entry);
      if emitted.Some? {
        out := out + [emitted.value];
        st.RecordSignal(emitted.value);
      } else {
        assert out + OptionSeq(emitted) == out;
      }
      i := i + 1;
    }
    assert out + [] == out;
  }

  /** A generator's outcome as a pass: an exception it raises yields no signals. */
  function GeneratorPass(c: PassContext, out: Result<seq<SymbolFlags>, string>): (p: Pass)
    ensures out.Err? ==> p == Pass([], Some(out.error))
    ensures out.Ok? ==> p == Emit(c, out.value)
  {
    match out
    case Err(m) => Pass([], Some(m))
    case Ok(series) => Emit(c, series)
  }

  function ErrorsOf(p: Pass): seq<string>
  {
    if p.error.Some? then [p.error.value] else []
  }

  /** The data generate_signals works on. */
  function SignalData(t: Table<DataSource>, data: Option<DataMap>): DataMap
  {
    if data.None? then LoadedData(t) else data.value
  }

  /** What generate_signals returns and the errors it records, in order. */
  datatype Generation = Generation(signals: seq<Signal>, errors: seq<string>)

  function Generate(t: Table<DataSource>, algorithmId: string, data: Option<DataMap>, buyGen: Generator, sellGen: Generator, now: int): Generation
  {
    var d := SignalData(t, data);
    if |d| == 0 then Generation([], [])
    else
      var b := GeneratorPass(PassContext(t, algorithmId, Buy, now), buyGen(d));
      var s := GeneratorPass(PassContext(t, algorithmId, Sell, now), sellGen(d));
      Generation(b.signals + s.signals, ErrorsOf(b) + ErrorsOf(s))
  }

  /** With no data at all, nothing is generated and nothing is recorded. */
  lemma NoDataNoSignals(t: Table<DataSource>, algorithmId: string, data: Option<DataMap>, buyGen: Generator, sellGen: Generator, now: int)
    requires |SignalData(t, data)| == 0
    ensures Generate(t, algorithmId, data, buyGen, sellGen, now) == Generation([], [])
  {
  }

  /** Every buy precedes every sell, each signal is a BUY or SELL at the symbol's truthy
      latest price with empty metadata, and at most two errors are recorded. */
  lemma {:induction false} GeneratedSignalsShape(t: Table<DataSource>, algorithmId: string, data: Option<DataMap>, buyGen: Generator, sellGen: Generator, now: int)
    ensures var g := Generate(t, algorithmId, data, buyGen, sellGen, now);
      (forall i, j :: 0 <= i < j < |g.signals| && g.signals[i].signalType == Sell ==> g.signals[j].signalType == Sell)
      && (forall s :: s in g.signals ==>
            (BuiltFor(s, PassContext(t, algorithmId, Buy, now)) || BuiltFor(s, PassContext(t, algorithmId, Sell, now))))
      && |g.errors| <= 2
  {
    var d := SignalData(t, data);
    if |d| > 0 {
      var b := GeneratorPass(PassContext(t, algorithmId, Buy, now), buyGen(d));
      var s := GeneratorPass(PassContext(t, algorithmId, Sell, now), sellGen(d));
      if buyGen(d).Ok? {
        EmitBuilt(PassContext(t, algorithmId, Buy, now), buyGen(d).value, 0);
      }
      if sellGen(d).Ok? {
        EmitBuilt(PassContext(t, algorithmId, Sell, now), sellGen(d).value, 0);
      }
      var sig := b.signals + s.signals;
      assert forall k :: 0 <= k < |b.signals| ==> sig[k] == b.signals[k] && sig[k] in b.signals;
      assert forall k :: |b.signals| <= k < |sig| ==> sig[k] == s.signals[k - |b.signals|] && sig[k] in s.signals;
    }
  }

  /** A generator that raises loses only its own signals: the other pass runs as usual,
      and the exception's message is recorded. */
  lemma FailureIsolated(t: Table<DataSource>, algorithmId: string, data: Option<DataMap>, buyGen: Generator, sellGen: Generator, now: int)
    requires |SignalData(t, data)| > 0
    ensures var d := SignalData(t, data);
      var g := Generate(t, algorithmId, data, buyGen, sellGen, now);
      (buyGen(d).Err? ==>
        g.signals == GeneratorPass(PassContext(t, algorithmId, Sell, now), sellGen(d)).signals
        && g.errors[0] == buyGen(d).error)
      && (sellGen(d).Err? ==>
        g.signals == GeneratorPass(PassContext(t, algorithmId, Buy, now), buyGen(d)).signals
        && g.errors[|g.errors| - 1] == sellGen(d).error)
  {
  }

  lemma {:induction false} AfterErrorsConcat(errors: seq<string>, a: seq<string>, b: seq<string>)
    ensures AfterErrors(errors, a + b) == AfterErrors(AfterErrors(errors, a), b)
  {
    if |b| == 0 {
      assert a + b == a;
    } else {
      AfterErrorsConcat(errors, a, b[..|b| - 1]);
      assert (a + b)[..|a + b| - 1] == a + b[..|b| - 1];
    }
  }

  // ----- Validation -----

  /** A position size rule exists for the symbol itself or for "*". */
  predicate SizeConfigured(rc: RiskConfig, symbol: string)
  {
    symbol in RuleSymbols(rc.positionSizes, SizeSymbol) || "*" in RuleSymbols(rc.positionSizes, SizeSymbol)
  }

  /** The messages for the first n symbols that have no position size rule. */
  function MissingSizeErrors(rc: RiskConfig, symbols: seq<string>, n: nat): seq<string>
    requires n <= |symbols|
  {
    if n == 0 then []
    else
      MissingSizeErrors(rc, symbols, n - 1)
      + (if SizeConfigured(rc, symbols[n - 1]) then [] else [MissingSizeMessage(symbols[n - 1])])
  }

  function MissingSizeMessage(symbol: string): string
  {
    "Position size not configured for " + symbol
  }

  lemma {:induction false} MissingSizeErrorsEmpty(rc: RiskConfig, symbols: seq<string>, n: nat)
    requires n <= |symbols|
    ensures MissingSizeErrors(rc, symbols, n) == [] <==> forall k :: 0 <= k < n ==> SizeConfigured(rc, symbols[k])
  {
    if n > 0 {
      MissingSizeErrorsEmpty(rc, symbols, n - 1);
      var prev := MissingSizeErrors(rc, symbols, n - 1);
      var ok := SizeConfigured(rc, symbols[n - 1]);
      assert MissingSizeErrors(rc, symbols, n) == prev + (if ok then [] else [MissingSizeMessage(symbols[n - 1])]);
      if ok {
        assert prev + [] == prev;
      } else {
        assert |MissingSizeErrors(rc, symbols, n)| > 0;
      }
    }
  }

  /** The list validate returns. */
  function ValidationErrors(algorithmId: string, symbols: seq<string>, sourceCount: nat, rc: RiskConfig): seq<string>
  {
    (if algorithmId == "" then ["algorithm_id is required"] else [])
    + (if |symbols| == 0 then ["At least one symbol is required"] else [])
    + (if sourceCount == 0 then ["At least one data source is required"] else [])
    + MissingSizeErrors(rc, symbols, |symbols|)
  }

  lemma ValidIff(algorithmId: string, symbols: seq<string>, sourceCount: nat, rc: RiskConfig)
    ensures ValidationErrors(algorithmId, symbols, sourceCount, rc) == [] <==>
      algorithmId != "" && |symbols| > 0 && sourceCount > 0
      && forall s :: s in symbols ==> SizeConfigured(rc, s)
  {
    MissingSizeErrorsEmpty(rc, symbols, |symbols|);
  }

  /** The risk configuration the constructor settles on. */
  function InitialRiskConfig(args: StrategyArgs): (rc: RiskConfig)
    ensures args.riskConfig.None? ==>
      rc.positionSizes == args.positionSizes.GetOr([])
      && rc.takeProfits == args.takeProfits.GetOr([])
      && rc.stopLosses == args.stopLosses.GetOr([])
      && rc.maxOpenPositions == DefaultRiskConfig.maxOpenPositions
  {
    if args.riskConfig.Some? then args.riskConfig.value
    else DefaultRiskConfig.(positionSizes := args.positionSizes.GetOr([]),
                            takeProfits := args.takeProfits.GetOr([]),
                            stopLosses := args.stopLosses.GetOr([]))
  }

  class TradingStrategy {
    const strategyClass: StrategyClass
    var dataSources: Table<DataSource>
    const riskConfig: RiskConfig
    const state: StrategyState

    ghost predicate Valid()
      reads this
    {
      DistinctKeys(dataSources)
    }

    constructor (c: StrategyClass, args: StrategyArgs)
      ensures strategyClass == c && Valid()
      ensures dataSources == SourcesFrom(args.dataSources.GetOr([]))
      ensures riskConfig == InitialRiskConfig(args)
      ensures fresh(state) && state.signalsGenerated == 0 && state.errors == []
    {
      var list := args.dataSources.GetOr([]);
      var sources: Table<DataSource> := [];
      for i := 0 to |list|
        invariant sources == SourcesFrom(list[..i])
      {
        assert list[..i + 1][..i] == list[..i];
        sources := Put(sources, list[i].config.identifier, list[i]);
      }
      assert list[..|list|] == list;
      SourcesFromDistinct(list);
      strategyClass := c;
      dataSources := sources;
      riskConfig := InitialRiskConfig(args);
      state := new StrategyState();
    }

    method AddDataSource(ds: DataSource)
      requires Valid()
      modifies this
      ensures Valid()
      ensures dataSources == Put(old(dataSources), ds.config.identifier, ds)
    {
      PutDistinct(dataSources, ds.config.identifier, ds);
      dataSources := Put(dataSources, ds.config.identifier, ds);
    }

    function GetData(identifier: string): (r: Option<seq<OHLCVData>>)
      reads this
      requires Valid()
      ensures r == Get(LoadedData(dataSources), identifier)
    {
      LoadedDataGet(dataSources, identifier);
      match Get(dataSources, identifier)
      case None => None
      case Some(ds) => ds.data
    }

    function GetDataSource(symbol: string): (r: Option<DataSource>)
      reads this
      ensures r.None? <==> forall j :: 0 <= j < |dataSources| ==> dataSources[j].value.config.symbol != symbol
      ensures r.Some? ==> r.value.config.symbol == symbol && r.value in Values(dataSources)
    {
      match FirstSourceFor(dataSources, symbol)
      case None => None
      case Some(i) => Some(dataSources[i].value)
    }

    /** One generator's outcome handled as generate_signals does: its series turned into
        signals, and the exception that ends the pass recorded. */
    method RunPass(kind: SignalType, outcome: Result<seq<SymbolFlags>, string>, now: int) returns (p: Pass)
      modifies state
      ensures p == GeneratorPass(PassContext(dataSources, strategyClass.algorithmId, kind, now), outcome)
      ensures state.errors == AfterErrors(old(state.errors), ErrorsOf(p))
      ensures state.signalsGenerated == old(state.signalsGenerated) + |p.signals|
      ensures state.lastSignal == if |p.signals| == 0 then old(state.lastSignal) else Some(p.signals[|p.signals| - 1])
    {
      var out: seq<Signal> := [];
      var error: Option<string>;
      match outcome {
        case Err(m) =>
          error := Some(m);
        case Ok(series) =>
          out, error := EmitSignals(state, PassContext(dataSources, strategyClass.algorithmId, kind, now), series);
      }
      p := Pass(out, error);
      if error.Some? {
        state.RecordError(error.value);
        assert ErrorsOf(p)[..0] == [];
      }
    }

    /** generate_signals: buys, then sells, each generator's failure isolated. */
    method GenerateSignals(data: Option<DataMap>, buyGen: Generator, sellGen: Generator, now: int) returns (signals: seq<Signal>)
      modifies state
      ensures signals == Generate(dataSources, strategyClass.algorithmId, data, buyGen, sellGen, now).signals
      ensures state.errors == AfterErrors(old(state.errors), Generate(dataSources, strategyClass.algorithmId, data, buyGen, sellGen, now).errors)
      ensures state.signalsGenerated == old(state.signalsGenerated) + |signals|
      ensures state.lastSignal == if |signals| == 0 then old(state.lastSignal) else Some(signals[|signals| - 1])
    {
      var d := SignalData(dataSources, data);
      if |d| == 0 {
        return [];
      }
      ghost var e0 := state.errors;
      var b := RunPass(Buy, buyGen(d), now);
      var s := RunPass(Sell, sellGen(d), now);
      AfterErrorsConcat(e0, ErrorsOf(b), ErrorsOf(s));
      signals := b.signals + s.signals;
    }

    /** The default position-closed hook counts the trade. */
    method OnPositionClosed()
      modifies state
      ensures state.tradesExecuted == old(state.tradesExecuted) + 1
      ensures state.signalsGenerated == old(state.signalsGenerated) && state.errors == old(state.errors)
    {
      state.tradesExecuted := state.tradesExecuted + 1;
    }

    method Validate() returns (errors: seq<string>)
      ensures errors == ValidationErrors(strategyClass.algorithmId, strategyClass.symbols, |dataSources|, riskConfig)
    {
      errors := [];
      if strategyClass.algorithmId == "" {
        errors := errors + ["algorithm_id is required"];
      }
      if |strategyClass.symbols| == 0 {
        errors := errors + ["At least one symbol is required"];
      }
      if |dataSources| == 0 {
        errors := errors + ["At least one data source is required"];
      }
      var missing := CollectMissingSizes(riskConfig, strategyClass.symbols);
      errors := errors + missing;
    }
  }

  /** The loop of validate over the configured symbols. */
  method CollectMissingSizes(rc: RiskConfig, symbols: seq<string>) returns (errors: seq<string>)
    ensures errors == MissingSizeErrors(rc, symbols, |symbols|)
  {
    errors := [];
    for i := 0 to |symbols|
      invariant errors == MissingSizeErrors(rc, symbols, i)
    {
      var rule := GetPositionSize(rc, symbols[i]);
      assert rule.None? <==> symbols[i] !in RuleSymbols(rc.positionSizes, SizeSymbol);
      if rule.None? {
        var hasWildcard := "*" in RuleSymbols(rc.positionSizes, SizeSymbol);
        if !hasWildcard {
          errors := errors + [MissingSizeMessage(symbols[i])];
        }
      }
    }
  }

  function Values<V>(t: Table<V>): (r: seq<V>)
    ensures |r| == |t| && forall i :: 0 <= i < |t| ==> r[i] == t[i].value
  {
    if |t| == 0 then [] else [t[0].value] + Values(t[1..])
  }

  // ----- The registry -----

  /** The class-level registry: algorithm id -> strategy class. */
  class StrategyRegistry {
    var strategies: Table<StrategyClass>

    ghost predicate Valid()
      reads this
    {
      DistinctKeys(strategies)
    }

    constructor ()
      ensures strategies == [] && Valid()
    {
      strategies := [];
    }

    /** Stores the class under its id, replacing an earlier one, and hands it back. */
    method Register(c: StrategyClass) returns (r: StrategyClass)
      requires Valid()
      modifies this
      ensures Valid() && r == c
      ensures strategies == Put(old(strategies), c.algorithmId, c)
    {
      PutDistinct(strategies, c.algorithmId, c);
      strategies := Put(strategies, c.algorithmId, c);
      r := c;
    }

    function GetClass(algorithmId: string): (r: Option<StrategyClass>)
      reads this
      ensures r.None? <==> algorithmId !in Keys(strategies)
    {
      Get(strategies, algorithmId)
    }

    function List(): (r: seq<string>)
      reads this
      ensures r == Keys(strategies)
    {
      Keys(strategies)
    }

    /** An instance of the registered class, or None for an unknown id. */
    method Create(algorithmId: string, args: StrategyArgs) returns (r: Option<TradingStrategy>)
      ensures r.None? <==> algorithmId !in Keys(strategies)
      ensures r.Some? ==>
        fresh(r.value) && Some(r.value.strategyClass) == GetClass(algorithmId)
        && r.value.dataSources == SourcesFrom(args.dataSources.GetOr([]))
        && r.value.riskConfig == InitialRiskConfig(args)
    {
      var c := Get(strategies, algorithmId);
      if c.Some? {
        var s := new TradingStrategy(c.value, args);
        r := Some(s);
      } else {
        r := None;
      }
    }

    method Unregister(algorithmId: string) returns (removed: bool)
      requires Valid()
      modifies this
      ensures Valid()
      ensures removed <==> algorithmId in Keys(old(strategies))
      ensures strategies == Remove(old(strategies), algorithmId)
      ensures GetClass(algorithmId) == None
    {
      RemoveKeys(strategies, algorithmId);
      RemoveGet(strategies, algorithmId, algorithmId);
      if algorithmId in Keys(strategies) {
        strategies := Remove(strategies, algorithmId);
        removed := true;
      } else {
        strategies := Remove(strategies, algorithmId);
        removed := false;
      }
    }
  }

  /** Registering then looking up gives the class back; other ids are unaffected. */
  lemma RegisterThenGet(t: Table<StrategyClass>, c: StrategyClass, other: string)
    ensures Get(Put(t, c.algorithmId, c), c.algorithmId) == Some(c)
    ensures other != c.algorithmId ==> Get(Put(t, c.algorithmId, c), other) == Get(t, other)
  {
    PutGet(t, c.algorithmId, c);
    if other != c.algorithmId {
      PutOther(t, c.algorithmId, c, other);
    }
  }

  /** Unregistering an unknown id changes nothing. */
  lemma {:induction false} RemoveAbsent<V>(t: Table<V>, k: string)
    requires k !in Keys(t)
    ensures Remove(t, k) == t
  {
    if |t| > 0 {
      assert Keys(t) == [t[0].key] + Keys(t[1..]);
      RemoveAbsent(t[1..], k);
    }
  }
}
