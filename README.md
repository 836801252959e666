# mpl-altair encoding resolver

A Dafny model of the encoding resolver of mpl-altair, `mplaltair/_convert.py`.
The resolver turns the channels of an Altair chart into keyword arguments for
Matplotlib's `scatter()` call. It works in two steps.

1. `_locate_channel_data` finds a channel's data. It tries the channel's
   attributes in a fixed order: a literal `value`, an `aggregate` (always
   refused with `NotImplementedError`), a column `field`, and a `shorthand`
   string. The shorthand is parsed and then treated as an aggregate or a field.
2. The table `_mpl_scatter_equivalent` and its `_process_*` handlers rename
   the data to a scatter keyword: x to `x`, y to `y`, color to `c`, size to
   `s`, opacity to `alpha`. Opacity is refused when its data is not a number.
   Shape is always refused.

`convert_quantitative` runs both steps for every channel of the encoding and
collects the results in a dictionary.

Files:

- `chart_model.dfy` (module `ChartModel`): the data model. It holds the
  `Channel` tags, the `ChannelSpec` record of four optional attributes, the
  `Data` values a channel resolves to, the `Frame` dataset, the `Chart`, and
  the `Result` type with its `Error` kinds.
- `convert.dfy` (module `Convert`): the operations. `Locate` models
  `_locate_channel_data`. `AggregateChannel` models `_aggregate_channel`.
  `Process` models the table together with its six handlers. `Resolve` is one
  loop iteration. `ConvertQuantitative` is a method with the source's loop. It
  is proved equal to the specification function `Converted`, a fold over the
  channels (`ConvertPrefix`).
- `convert_properties.dfy` (module `ConvertProperties`): lemmas about the
  priority order, the routing table and the whole-chart result.

Foreign code is modelled as input:

- Altair's `parse_shorthand` is a function parameter, the `Parser`. It returns
  a dictionary that may hold an `"aggregate"` key and a `"field"` key.
- Altair's `Undefined` sentinel and a missing attribute (`hasattr` false) are
  both `None` in an `Option`.
- The pandas DataFrame is a `map<string, seq<int>>`. `data[name].values` is the
  column, or a `KeyError` when the column is missing.
- `chart.to_dict()['encoding']` is the sequence `chart.channels`.
  `chart.encoding[...]` is the map `chart.encoding`.
- A channel name outside the table is `Other(name)`. Looking it up raises
  `KeyError`. This happens after the channel's data was located, as at line 38.

Behaviours of the code that its own docstring and comments do not show:

- The docstring of `_locate_channel_data` promises an ndarray (line 55).
  A shorthand whose parse holds neither an aggregate nor a field still yields
  `None` and raises nothing. The `ValueError` is raised only when no attribute
  is set (lines 65-72). For x, y, color and size that `None` reaches the
  scatter keywords (`ShorthandFallThroughReachesScatter`).
- The table's comment marks shape `# NotImplementedError` (line 12). The data
  is located before the handler runs, though. So a shape channel with no
  attribute raises `ValueError`, and one whose field is missing raises
  `KeyError` (`ShapeAlwaysFails`).
- The table's comment marks size `# NotImplementedError` (line 10). Its handler
  accepts any data and renames it to `s` (lines 87-88), and so does the model.
- Python's `bool` is a subclass of `int`, so a boolean opacity is accepted.

## Model

| member | source | states |
|---|---|---|
| `Convert.AggregateChannel` | mplaltair/_convert.py:75-76 | Aggregation always fails with `NotImplementedError`. |
| `Convert.ColumnOf` | mplaltair/_convert.py:63-70 | `data[name].values` succeeds exactly when the dataset has the column, with that whole column. Otherwise it raises `KeyError(name)`. Used at lines 64 and 70. |
| `Convert.Locate` | mplaltair/_convert.py:43-72 | A literal value never fails. Any other success is a dataset column or None. `NotImplementedError` needs an explicit aggregate, or a shorthand whose parse holds one. A `KeyError` names a column the dataset lacks. `ValueError("Cannot find data for the channel")` happens exactly when no attribute is set. |
| `Convert.RoutedKeyword` | mplaltair/_convert.py:6-13 | Every table channel except shape has a keyword, and each keyword is one of "x", "y", "c", "s", "alpha". Shape and names outside the table have none. |
| `Convert.Process` | mplaltair/_convert.py:6-13 | The table and handlers succeed exactly for a channel with a keyword, and for opacity only with numeric data. On success the data is unchanged under the channel's keyword. Otherwise the error is `NotImplementedError`, or `KeyError` for a channel outside the table. |
| `Convert.Resolve` | mplaltair/_convert.py:36-38 | One loop iteration raises the location error when the data cannot be located, before the table is consulted. On success it yields the channel's keyword with the located data. |
| `Convert.FailureSticks` | mplaltair/_convert.py:35-38 | Once a channel has raised, the later channels do not change the outcome. |
| `Convert.ConvertQuantitative` | mplaltair/_convert.py:16-40 | The loop that fills the dictionary returns exactly `Converted(chart, parse)`. That is the fold over the channels that stops at the first error. |
| `ConvertProperties.ValueWins` | mplaltair/_convert.py:59-60 | A set value is returned unchanged, whatever aggregate, field or shorthand hold. |
| `ConvertProperties.AggregateFails` | mplaltair/_convert.py:61-62 | Without a value, a set aggregate raises `NotImplementedError` (through `_aggregate_channel`, lines 75-76). |
| `ConvertProperties.FieldIsColumn` | mplaltair/_convert.py:63-64 | Without value and aggregate, a field yields exactly that dataset column, or `KeyError` when the column is missing. |
| `ConvertProperties.ShorthandAggregateFails` | mplaltair/_convert.py:65-68 | A shorthand-only channel whose parse holds an aggregate raises `NotImplementedError`, even when the parse also holds a field. |
| `ConvertProperties.ShorthandFieldIsFieldReference` | mplaltair/_convert.py:65-70 | A shorthand-only channel whose parse holds only a field locates the same result as an explicit reference to that field. |
| `ConvertProperties.ShorthandWithoutFieldIsNone` | mplaltair/_convert.py:65-70 | A shorthand-only channel whose parse holds neither yields None and raises nothing. |
| `ConvertProperties.NoAttributeFails` | mplaltair/_convert.py:71-72 | A channel with none of the four attributes raises `ValueError("Cannot find data for the channel")`. |
| `ConvertProperties.RoutingTable` | mplaltair/_convert.py:79-99 | x goes to "x", y to "y", color to "c", size to "s", numeric opacity to "alpha", each with the data unchanged. |
| `ConvertProperties.KeywordsDistinct` | mplaltair/_convert.py:6-13 | Two channels routed to the same keyword are the same channel. |
| `ConvertProperties.OpacityOnlyNumeric` | mplaltair/_convert.py:95-99 | Opacity succeeds exactly for an int, bool or float. Any other data raises `NotImplementedError`. |
| `ConvertProperties.ShapeAlwaysFails` | mplaltair/_convert.py:102-103 | The shape handler raises `NotImplementedError` for every input. A shape channel always fails, with `NotImplementedError` whenever its data was located. |
| `ConvertProperties.PrefixSucceeds` | mplaltair/_convert.py:35-38 | The first n channels convert without error exactly when each of them resolves. |
| `ConvertProperties.PrefixValues` | mplaltair/_convert.py:35-38 | After the first n channels, each one's keyword is bound to that channel's data. A later channel never overwrites it with different data. |
| `ConvertProperties.PrefixKeys` | mplaltair/_convert.py:35-38 | After the first n channels, every key is the keyword of one of them. |
| `ConvertProperties.PrefixFailure` | mplaltair/_convert.py:35-38 | A failing prefix raises the error of its first failing channel, and every channel before that one resolves. |
| `ConvertProperties.ResolveMeaning` | mplaltair/_convert.py:36-38 | One channel resolves exactly when its data is located and its handler accepts it. The result is then its keyword paired with the located data. |
| `ConvertProperties.ConvertSucceeds` | mplaltair/_convert.py:33-40 | `convert_quantitative` returns a mapping exactly when every channel converts. |
| `ConvertProperties.ConvertBindsEachChannel` | mplaltair/_convert.py:33-40 | In a returned mapping, each channel's keyword maps to that channel's located data. |
| `ConvertProperties.ConvertKeys` | mplaltair/_convert.py:33-40 | The key set of a returned mapping is exactly the keywords of the encoding's channels. |
| `ConvertProperties.ConvertFailsAtFirstError` | mplaltair/_convert.py:35-38 | A failing conversion raises the error of the first channel that does not convert, and every earlier channel converts. |
| `ConvertProperties.FieldsAndLiteralColor` | mplaltair/_convert.py:33-40 | With x on field "a" = [1,2,3], y on field "b" = [4,5,6] and color the literal "red", the result is {x: [1,2,3], y: [4,5,6], c: "red"}. |
| `ConvertProperties.ShorthandFallThroughReachesScatter` | mplaltair/_convert.py:65-70 | An x, y, color or size channel whose shorthand parse holds neither aggregate nor field converts to {keyword: None}. |

## Left out

- `mplaltair/_scales.py` is not part of this model. Its `PowerTransform` is floating-point `np.power` under numpy error-state suppression, with masked assignment of the -1000 sentinel. `PowerScale` only wires Matplotlib locators and formatters. The module ends with a global `register_scale` call. All of this is floating point and foreign library calls.
- The grammar of Altair's `parse_shorthand` is foreign code. It is the `Parser` parameter, so every property holds for every parser.
- Altair's `Undefined` and attribute probing with `hasattr` are not modelled separately. An attribute is either `None` or set.
- pandas and numpy: a column is a sequence of integers. Column dtypes, float columns and numpy scalar types, such as `np.int64` failing the `isinstance(..., int)` test, are not modelled.
- Float values are Dafny `real`s without rounding. No property depends on their arithmetic.
- The `['encoding']` lookup on `chart.to_dict()` at line 35 is abstracted into `chart.channels`. A chart with no encoding at all, whose dictionary has no "encoding" key, raises `KeyError` in the code but converts to an empty mapping in the model.
- The handler is called twice at line 38. The model calls it once. The handlers have no side effects, so the result is the same.
- ConvertQuantitative: requires that every channel in `to_dict()['encoding']` has a channel object in `chart.encoding`, which Altair guarantees, and that an `Other` channel does not carry one of the six table names. It does not require the channels to be distinct, and the results hold even with repeats.
