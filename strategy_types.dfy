// Strategy-side records: signals, candles, data sources, indicator settings and
// the runtime state a strategy keeps (iaf-service/strategies/types.py).

module StrategyTypes {
  import opened Common

  datatype SignalType = Buy | Sell | Hold | CloseLong | CloseShort | NoSignal

  /** The metadata keys the ledgers read; any other key is ignored by them. */
  datatype SignalMetadata = SignalMetadata(
    stopLoss: Option<real>,
    takeProfit: Option<real>,
    positionSizePct: Option<real>)

  const EmptyMetadata := SignalMetadata(None, None, None)

  datatype Signal = Signal(
    signalType: SignalType,
    symbol: string,
    price: real,
    timestamp: int,
    confidence: real,
    reason: string,
    metadata: SignalMetadata)

  /** Only HOLD and NO_SIGNAL ask for no action. */
  predicate IsActionable(s: Signal)
  {
    s.signalType != Hold && s.signalType != NoSignal
  }

  lemma ActionableExactly(s: Signal)
    ensures !IsActionable(s) <==> s.signalType in {Hold, NoSignal}
    ensures IsActionable(s) <==> s.signalType in {Buy, Sell, CloseLong, CloseShort}
  {
  }

  datatype OHLCVData = OHLCVData(timestamp: int, open: real, high: real, low: real, close: real, volume: real)

  /** Builds a candle from [timestamp, open, high, low, close, volume?]; a list of fewer
      than five items raises IndexError, which is None here. */
  function FromList(data: seq<real>): (r: Option<OHLCVData>)
    ensures r.Some? <==> |data| >= 5
    ensures r.Some? ==>
      r.value.timestamp == TruncateToInt(data[0]) && r.value.open == data[1]
      && r.value.high == data[2] && r.value.low == data[3] && r.value.close == data[4]
    ensures r.Some? && |data| > 5 ==> r.value.volume == data[5]
    ensures r.Some? && |data| == 5 ==> r.value.volume == 0.0
  {
    if |data| < 5 then None
    else Some(OHLCVData(TruncateToInt(data[0]), data[1], data[2], data[3], data[4],
                        if |data| > 5 then data[5] else 0.0))
  }

  datatype DataSourceConfig = DataSourceConfig(identifier: string, symbol: string)

  /** A configured source and, once loaded, its candles in time order. */
  datatype DataSource = DataSource(config: DataSourceConfig, data: Option<seq<OHLCVData>>)

  predicate IsLoaded(ds: DataSource)
  {
    ds.data.Some? && |ds.data.value| > 0
  }

  function GetLatestCandle(ds: DataSource): (r: Option<OHLCVData>)
    ensures r.None? <==> !IsLoaded(ds)
    ensures r.Some? ==> r.value == ds.data.value[|ds.data.value| - 1]
  {
    if ds.data.None? || |ds.data.value| == 0 then None
    else Some(ds.data.value[|ds.data.value| - 1])
  }

  function GetPrice(ds: DataSource): (r: Option<real>)
    ensures r.None? <==> !IsLoaded(ds)
    ensures r.Some? ==> r.value == ds.data.value[|ds.data.value| - 1].close
  {
    match GetLatestCandle(ds)
    case None => None
    case Some(c) => Some(c.close)
  }

  datatype IndicatorConfig = IndicatorConfig(name: string, period: int, source: string, resultColumn: string)

  /** The dataclass with __post_init__: a missing result column becomes "<name>_<period>". */
  function NewIndicatorConfig(name: string, period: int, source: string, resultColumn: Option<string>): (c: IndicatorConfig)
    ensures c.name == name && c.period == period && c.source == source
    ensures resultColumn.Some? ==> c.resultColumn == resultColumn.value
    ensures resultColumn.None? ==>
      |c.resultColumn| > |name| + 1 && c.resultColumn[..|name| + 1] == name + "_"
      && c.resultColumn[|name| + 1..] == IntToString(period)
  {
    var column := if resultColumn.Some? then resultColumn.value else name + "_" + IntToString(period);
    IndicatorConfig(name, period, source, column)
  }

  /** The default indicator period. */
  const DefaultIndicatorPeriod: int := 14

  /** The error log after one more message: the message is appended and only the
      last 100 messages are kept. */
  function AfterError(errors: seq<string>, e: string): (r: seq<string>)
    ensures |r| == if |errors| + 1 > 100 then 100 else |errors| + 1
    ensures r[|r| - 1] == e
    ensures r == (errors + [e])[|errors| + 1 - |r|..]
  {
    LastN(errors + [e], 100)
  }

  /** Several messages recorded in order. */
  function AfterErrors(errors: seq<string>, es: seq<string>): (r: seq<string>)
    ensures |es| > 0 ==> 0 < |r| <= 100 && r[|r| - 1] == es[|es| - 1]
    ensures |es| == 0 ==> r == errors
  {
    if |es| == 0 then errors else AfterError(AfterErrors(errors, es[..|es| - 1]), es[|es| - 1])
  }

  /** Runtime state of a strategy; the wall-clock `last_run` stamp is not kept. */
  class StrategyState {
    var isActive: bool
    var lastSignal: Option<Signal>
    var signalsGenerated: int
    var tradesExecuted: int
    var errors: seq<string>

    constructor ()
      ensures !isActive && lastSignal == None && signalsGenerated == 0 && tradesExecuted == 0
      ensures errors == []
    {
      isActive := false;
      lastSignal := None;
      signalsGenerated := 0;
      tradesExecuted := 0;
      errors := [];
    }

    method RecordSignal(s: Signal)
      modifies this
      ensures lastSignal == Some(s)
      ensures signalsGenerated == old(signalsGenerated) + 1
      ensures errors == old(errors) && isActive == old(isActive) && tradesExecuted == old(tradesExecuted)
    {
      lastSignal := Some(s);
      signalsGenerated := signalsGenerated + 1;
    }

    method RecordError(e: string)
      modifies this
      ensures errors == AfterError(old(errors), e)
      ensures lastSignal == old(lastSignal) && signalsGenerated == old(signalsGenerated)
      ensures isActive == old(isActive) && tradesExecuted == old(tradesExecuted)
    {
      errors := errors + [e];
      if |errors| > 100 {
        errors := errors[|errors| - 100..];
      }
    }

    /** The error list as the serialised state exposes it. */
    function ErrorsShown(): (r: seq<string>)
      reads this
      ensures |r| == if |errors| < 10 then |errors| else 10
      ensures forall i :: 0 <= i < |r| ==> r[i] == errors[|errors| - |r| + i]
    {
      LastN(errors, 10)
    }
  }
}
