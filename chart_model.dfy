/** The values an Altair chart hands to the encoding resolver: channel tags,
    per-channel specifications, the Python values a channel can resolve to,
    the dataset, the outcome of a resolution, and the shorthand parser that
    stands for Altair's own. */
module ChartModel {

  datatype Option<+T> = None | Some(value: T)

  /** The two exceptions the resolver raises itself, plus the KeyError that a
      dictionary or DataFrame lookup raises for a missing key. */
  datatype Error =
    | NotImplemented              // NotImplementedError
    | ValueError(message: string) // ValueError(message)
    | KeyError(key: string)       // KeyError(key)

  datatype Result<+T> = Success(value: T) | Failure(error: Error)

  /** A Python value a channel can resolve to. */
  datatype Data =
    | Int(i: int)               // int
    | Bool(b: bool)             // bool, which Python treats as a subclass of int
    | Float(f: real)            // float, without rounding
    | Str(s: string)            // str, e.g. a colour name
    | Column(values: seq<int>)  // the ndarray `data[name].values`
    | NoneData                  // None

  /** The dataset: column name to that column's values, in row order. */
  type Frame = map<string, seq<int>>

  /** Altair's `parse_shorthand(shorthand, data)`: the dictionary it returns
      holds an "aggregate" key when the shorthand names an aggregate and a
      "field" key when it names a column. */
  type Parser = (string, Frame) -> map<string, string>

  /** The encoding channels of a chart. `Other` stands for a channel name
      that the scatter table has no entry for; a well-formed chart never
      lists `Other` with one of the six table names (see `EncodingComplete`). */
  datatype Channel = X | Y | Color | Size | Opacity | Shape | Other(name: string)

  /** A channel object's four optional attributes. `None` stands both for an
      attribute the channel class does not have and for one holding Altair's
      `Undefined`. */
  datatype ChannelSpec = ChannelSpec(
    value: Option<Data>,
    aggregate: Option<string>,
    field: Option<string>,
    shorthand: Option<string>)

  /** A chart: its dataset, its channel objects, and the channel names of
      `chart.to_dict()['encoding']` in iteration order. */
  datatype Chart = Chart(
    data: Frame,
    encoding: map<Channel, ChannelSpec>,
    channels: seq<Channel>)

  /** The names the scatter table has entries for. */
  const TableNames: set<string> := {"x", "y", "color", "size", "opacity", "shape"}

  /** Every channel the serialized encoding lists has a channel object, and a
      channel outside the table carries a name the table does not have. */
  predicate EncodingComplete(chart: Chart)
  {
    forall i :: 0 <= i < |chart.channels| ==>
      && chart.channels[i] in chart.encoding
      && (chart.channels[i].Other? ==> chart.channels[i].name !in TableNames)
  }

  /** The keyword arguments produced for `scatter()`. */
  type Mapping = map<string, Data>
}
