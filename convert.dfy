/** The encoding resolver of mplaltair/_convert.py: locating each channel's
    data, renaming it to a Matplotlib `scatter()` keyword, and collecting the
    keywords of a whole chart. */
module Convert {
  import opened ChartModel

  const CannotFindData: string := "Cannot find data for the channel"

  /** `_aggregate_channel`: aggregation is not supported. */
  function AggregateChannel(): (r: Result<Data>)
    ensures r.Failure? && r.error.NotImplemented?
  {
    Failure(NotImplemented)
  }

  /** `data[name].values`; pandas raises KeyError for a missing column. */
  function ColumnOf(data: Frame, name: string): (r: Result<Data>)
    ensures r.Success? <==> name in data
    // the column comes back whole and in row order
    ensures r.Success? ==> r == Success(Column(data[name]))
    ensures r.Failure? ==> r.error == KeyError(name)
  {
    if name in data then Success(Column(data[name])) else Failure(KeyError(name))
  }

  /** `_locate_channel_data`: the attributes are tried in the order
      value, aggregate, field, shorthand. A shorthand whose parse has neither
      an aggregate nor a field falls off the end of its branch and yields
      None; only a channel with no attribute at all raises ValueError. */
  function Locate(spec: ChannelSpec, data: Frame, parse: Parser): (r: Result<Data>)
    // what a successful non-literal lookup yields is a dataset column, or None
    ensures r.Success? && spec.value.None? ==>
      r.value == NoneData || (r.value.Column? && r.value.values in data.Values)
    // a literal value never fails
    ensures r.Failure? ==> spec.value.None?
    // NotImplementedError comes only from an aggregate, explicit or parsed
    ensures r == Failure(NotImplemented) ==>
      spec.aggregate.Some? || (spec.shorthand.Some? && "aggregate" in parse(spec.shorthand.value, data))
    // KeyError names a column the dataset lacks
    ensures r.Failure? && r.error.KeyError? ==> r.error.key !in data
    // ValueError exactly when no attribute is set
    ensures r.Failure? && r.error.ValueError? <==>
      spec.value.None? && spec.aggregate.None? && spec.field.None? && spec.shorthand.None?
    ensures r.Failure? && r.error.ValueError? ==> r.error.message == CannotFindData
  {
    if spec.value.Some? then
      Success(spec.value.value)
    else if spec.aggregate.Some? then
      AggregateChannel()
    else if spec.field.Some? then
      ColumnOf(data, spec.field.value)
    else if spec.shorthand.Some? then
      var parsed := parse(spec.shorthand.value, data);
      if "aggregate" in parsed then AggregateChannel()
      else if "field" in parsed then ColumnOf(data, parsed["field"])
      else Success(NoneData)
    else
      Failure(ValueError(CannotFindData))
  }

  /** The `scatter()` keyword each channel is renamed to; shape and channels
      outside the table have none. */
  function RoutedKeyword(ch: Channel): (r: Option<string>)
    ensures r.Some? <==> !ch.Shape? && !ch.Other?
    ensures r.Some? ==> r.value in {"x", "y", "c", "s", "alpha"}
  {
    match ch
    case X => Some("x")
    case Y => Some("y")
    case Color => Some("c")
    case Size => Some("s")
    case Opacity => Some("alpha")
    case Shape => None
    case Other(_) => None
  }

  /** `isinstance(data, (float, int))`. */
  predicate IsNumeric(d: Data)
  {
    d.Int? || d.Bool? || d.Float?
  }

  /** `_mpl_scatter_equivalent[channel](data)`: the table lookup followed by
      the `_process_*` handler it selects. */
  function Process(ch: Channel, d: Data): (r: Result<(string, Data)>)
    ensures r.Success? <==> RoutedKeyword(ch).Some? && (ch == Opacity ==> IsNumeric(d))
    // the data passes through unchanged under the channel's keyword
    ensures r.Success? ==> RoutedKeyword(ch) == Some(r.value.0) && r.value.1 == d
    ensures r.Failure? ==> r.error == if ch.Other? then KeyError(ch.name) else NotImplemented
  {
    match ch
    case X => Success(("x", d))
    case Y => Success(("y", d))
    case Size => Success(("s", d))
    case Color => Success(("c", d))
    case Opacity => if !IsNumeric(d) then Failure(NotImplemented) else Success(("alpha", d))
    case Shape => Failure(NotImplemented)
    case Other(name) => Failure(KeyError(name))
  }

  /** One iteration of the loop in `convert_quantitative`: locate the
      channel's data, then route it. */
  function Resolve(chart: Chart, parse: Parser, ch: Channel): (r: Result<(string, Data)>)
    requires ch in chart.encoding
    // a failure to locate the data is raised before the table is consulted
    ensures Locate(chart.encoding[ch], chart.data, parse).Failure? ==>
      r == Failure(Locate(chart.encoding[ch], chart.data, parse).error)
    ensures r.Success? ==>
      && RoutedKeyword(ch) == Some(r.value.0)
      && Locate(chart.encoding[ch], chart.data, parse) == Success(r.value.1)
  {
    match Locate(chart.encoding[ch], chart.data, parse)
    case Failure(e) => Failure(e)
    case Success(d) => Process(ch, d)
  }

  /** The mapping after the first `n` channels, or the first error among them. */
  function ConvertPrefix(chart: Chart, parse: Parser, n: nat): Result<Mapping>
    requires EncodingComplete(chart) && n <= |chart.channels|
  {
    if n == 0 then Success(map[])
    else
      match ConvertPrefix(chart, parse, n - 1)
      case Failure(e) => Failure(e)
      case Success(m) =>
        match Resolve(chart, parse, chart.channels[n - 1])
        case Failure(e) => Failure(e)
        case Success(kd) => Success(m[kd.0 := kd.1])
  }

  /** What `convert_quantitative` returns or raises for the whole chart. */
  function Converted(chart: Chart, parse: Parser): Result<Mapping>
    requires EncodingComplete(chart)
  {
    ConvertPrefix(chart, parse, |chart.channels|)
  }

  /** Once a channel has failed, the later channels are never examined. */
  lemma {:induction false} FailureSticks(chart: Chart, parse: Parser, m: nat, n: nat)
    requires EncodingComplete(chart) && m <= n <= |chart.channels|
    requires ConvertPrefix(chart, parse, m).Failure?
    ensures ConvertPrefix(chart, parse, n) == ConvertPrefix(chart, parse, m)
  {
    if m < n {
      FailureSticks(chart, parse, m, n - 1);
    }
  }

  /** `convert_quantitative`: fills a dictionary channel by channel and stops
      at the first channel that raises. */
  method ConvertQuantitative(chart: Chart, parse: Parser) returns (r: Result<Mapping>)
    requires EncodingComplete(chart)
    ensures r == Converted(chart, parse)
  {
    var mapping: Mapping := map[];
    var i := 0;
    while i < |chart.channels|
      invariant 0 <= i <= |chart.channels|
      invariant ConvertPrefix(chart, parse, i) == Success(mapping)
    {
      var ch := chart.channels[i];
      var data := Locate(chart.encoding[ch], chart.data, parse);
      if data.Failure? {
        FailureSticks(chart, parse, i + 1, |chart.channels|);
        return Failure(data.error);
      }
      var routed := Process(ch, data.value);
      if routed.Failure? {
        FailureSticks(chart, parse, i + 1, |chart.channels|);
        return Failure(routed.error);
      }
      mapping := mapping[routed.value.0 := routed.value.1];
      i := i + 1;
    }
    return Success(mapping);
  }
}
