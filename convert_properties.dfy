/** Properties of the encoding resolver: the priority order of channel
    attributes, the routing table, and what `convert_quantitative` returns
    for a whole chart. */
module ConvertProperties {
  import opened ChartModel
  import opened Convert

  /** A channel that holds only a field reference. */
  function FieldReference(name: string): ChannelSpec
  {
    ChannelSpec(None, None, Some(name), None)
  }

  /** A channel that holds only a shorthand string. */
  function ShorthandOnly(shorthand: string): ChannelSpec
  {
    ChannelSpec(None, None, None, Some(shorthand))
  }

  // ---------------------------------------------------------------------
  // Locating a channel's data

  /** A literal value wins over every other attribute and is returned as is. */
  lemma ValueWins(spec: ChannelSpec, data: Frame, parse: Parser)
    requires spec.value.Some?
    ensures Locate(spec, data, parse) == Success(spec.value.value)
  {
  }

  /** Without a value, an explicit aggregate is refused. */
  lemma AggregateFails(spec: ChannelSpec, data: Frame, parse: Parser)
    requires spec.value.None? && spec.aggregate.Some?
    ensures Locate(spec, data, parse) == Failure(NotImplemented)
  {
  }

  /** Without value and aggregate, a field yields exactly that column, or the
      KeyError of a missing column. */
  lemma FieldIsColumn(spec: ChannelSpec, data: Frame, parse: Parser)
    requires spec.value.None? && spec.aggregate.None? && spec.field.Some?
    ensures spec.field.value in data ==>
      Locate(spec, data, parse) == Success(Column(data[spec.field.value]))
    ensures spec.field.value !in data ==>
      Locate(spec, data, parse) == Failure(KeyError(spec.field.value))
  {
  }

  /** A shorthand whose parse names an aggregate is refused, even when the
      parse also names a field. */
  lemma ShorthandAggregateFails(s: string, data: Frame, parse: Parser)
    requires "aggregate" in parse(s, data)
    ensures Locate(ShorthandOnly(s), data, parse) == Failure(NotImplemented)
  {
  }

  /** A shorthand whose parse names only a field behaves as an explicit
      reference to that field. */
  lemma ShorthandFieldIsFieldReference(s: string, data: Frame, parse: Parser)
    requires "aggregate" !in parse(s, data) && "field" in parse(s, data)
    ensures Locate(ShorthandOnly(s), data, parse)
         == Locate(FieldReference(parse(s, data)["field"]), data, parse)
  {
  }

  /** A shorthand whose parse names neither yields None and raises nothing. */
  lemma ShorthandWithoutFieldIsNone(s: string, data: Frame, parse: Parser)
    requires "aggregate" !in parse(s, data) && "field" !in parse(s, data)
    ensures Locate(ShorthandOnly(s), data, parse) == Success(NoneData)
  {
  }

  /** A channel with no attribute at all raises ValueError. */
  lemma NoAttributeFails(data: Frame, parse: Parser)
    ensures Locate(ChannelSpec(None, None, None, None), data, parse)
         == Failure(ValueError(CannotFindData))
  {
  }

  // ---------------------------------------------------------------------
  // Routing to scatter() keywords

  /** The fixed table: x to "x", y to "y", color to "c", size to "s", opacity
      to "alpha", with the data unchanged. */
  lemma RoutingTable(d: Data)
    ensures Process(X, d) == Success(("x", d))
    ensures Process(Y, d) == Success(("y", d))
    ensures Process(Color, d) == Success(("c", d))
    ensures Process(Size, d) == Success(("s", d))
    ensures IsNumeric(d) ==> Process(Opacity, d) == Success(("alpha", d))
  {
  }

  /** Distinct channels are routed to distinct keywords. */
  lemma KeywordsDistinct(c1: Channel, c2: Channel)
    requires RoutedKeyword(c1).Some? && RoutedKeyword(c1) == RoutedKeyword(c2)
    ensures c1 == c2
  {
  }

  /** Opacity is accepted exactly for a numeric scalar. */
  lemma OpacityOnlyNumeric(d: Data)
    ensures Process(Opacity, d).Success? <==> (d.Int? || d.Bool? || d.Float?)
    ensures !IsNumeric(d) ==> Process(Opacity, d) == Failure(NotImplemented)
  {
  }

  /** Shape is refused whatever its data. Because the data is located before
      the handler runs, a shape channel whose data cannot be located raises
      that location error instead. */
  lemma ShapeAlwaysFails(chart: Chart, parse: Parser, d: Data)
    requires Shape in chart.encoding
    ensures Process(Shape, d) == Failure(NotImplemented)
    ensures Resolve(chart, parse, Shape).Failure?
    ensures Locate(chart.encoding[Shape], chart.data, parse).Success? ==>
      Resolve(chart, parse, Shape) == Failure(NotImplemented)
  {
  }

  // ---------------------------------------------------------------------
  // Converting a whole chart

  /** The first `n` channels convert without error exactly when each of them
      resolves. */
  lemma {:induction false} PrefixSucceeds(chart: Chart, parse: Parser, n: nat)
    requires EncodingComplete(chart) && n <= |chart.channels|
    ensures ConvertPrefix(chart, parse, n).Success? <==>
      forall i :: 0 <= i < n ==> Resolve(chart, parse, chart.channels[i]).Success?
  {
    if n > 0 {
      PrefixSucceeds(chart, parse, n - 1);
    }
  }

  /** After the first `n` channels, each of them has its keyword bound to its
      data: a later channel never overwrites an earlier one with other data. */
  lemma {:induction false} PrefixValues(chart: Chart, parse: Parser, n: nat)
    requires EncodingComplete(chart) && n <= |chart.channels|
    requires ConvertPrefix(chart, parse, n).Success?
    ensures forall i :: 0 <= i < n ==>
      && Resolve(chart, parse, chart.channels[i]).Success?
      && var kd := Resolve(chart, parse, chart.channels[i]).value;
         kd.0 in ConvertPrefix(chart, parse, n).value
         && ConvertPrefix(chart, parse, n).value[kd.0] == kd.1
  {
    if n > 0 {
      PrefixValues(chart, parse, n - 1);
      PrefixSucceeds(chart, parse, n);
      var prev := ConvertPrefix(chart, parse, n - 1).value;
      var last := Resolve(chart, parse, chart.channels[n - 1]).value;
      var m := ConvertPrefix(chart, parse, n).value;
      assert m == prev[last.0 := last.1];
      forall i | 0 <= i < n
        ensures var kd := Resolve(chart, parse, chart.channels[i]).value;
                kd.0 in m && m[kd.0] == kd.1
      {
        var kd := Resolve(chart, parse, chart.channels[i]).value;
        if kd.0 == last.0 {
          // routing is injective, so the same keyword means the same channel
          KeywordsDistinct(chart.channels[i], chart.channels[n - 1]);
        }
      }
    }
  }

  /** After the first `n` channels, every key is the keyword of one of them. */
  lemma {:induction false} PrefixKeys(chart: Chart, parse: Parser, n: nat)
    requires EncodingComplete(chart) && n <= |chart.channels|
    requires ConvertPrefix(chart, parse, n).Success?
    ensures forall k :: k in ConvertPrefix(chart, parse, n).value ==>
      exists i :: 0 <= i < n && Resolve(chart, parse, chart.channels[i]).Success?
               && Resolve(chart, parse, chart.channels[i]).value.0 == k
  {
    if n > 0 {
      PrefixKeys(chart, parse, n - 1);
      var prev := ConvertPrefix(chart, parse, n - 1).value;
      var last := Resolve(chart, parse, chart.channels[n - 1]).value;
      var m := ConvertPrefix(chart, parse, n).value;
      assert m == prev[last.0 := last.1];
      forall k | k in m
        ensures exists i :: 0 <= i < n && Resolve(chart, parse, chart.channels[i]).Success?
                         && Resolve(chart, parse, chart.channels[i]).value.0 == k
      {
        if k == last.0 {
          assert Resolve(chart, parse, chart.channels[n - 1]).value.0 == k;
        } else {
          assert k in prev;
        }
      }
    }
  }

  /** When the first `n` channels do not all convert, the error is that of the
      first channel that fails; every channel before it resolves. */
  lemma {:induction false} PrefixFailure(chart: Chart, parse: Parser, n: nat)
    requires EncodingComplete(chart) && n <= |chart.channels|
    requires ConvertPrefix(chart, parse, n).Failure?
    ensures exists i ::
      && 0 <= i < n
      && Resolve(chart, parse, chart.channels[i]).Failure?
      && ConvertPrefix(chart, parse, n).error == Resolve(chart, parse, chart.channels[i]).error
      && (forall j :: 0 <= j < i ==> Resolve(chart, parse, chart.channels[j]).Success?)
  {
    var prev := ConvertPrefix(chart, parse, n - 1);
    if prev.Failure? {
      PrefixFailure(chart, parse, n - 1);
    } else {
      PrefixSucceeds(chart, parse, n - 1);
      assert Resolve(chart, parse, chart.channels[n - 1]).Failure?;
    }
  }

  /** A channel of the chart converts when its data is located and its
      handler accepts that data. */
  predicate ChannelConverts(chart: Chart, parse: Parser, ch: Channel)
    requires ch in chart.encoding
  {
    var located := Locate(chart.encoding[ch], chart.data, parse);
    located.Success? && Process(ch, located.value).Success?
  }

  /** The keywords the given channels are routed to. */
  function RoutedKeywords(channels: seq<Channel>): set<string>
  {
    set i | 0 <= i < |channels| && RoutedKeyword(channels[i]).Some? :: RoutedKeyword(channels[i]).value
  }

  /** One channel resolves exactly when it converts, and then to its keyword
      paired with its located data. */
  lemma ResolveMeaning(chart: Chart, parse: Parser, ch: Channel)
    requires ch in chart.encoding
    ensures Resolve(chart, parse, ch).Success? <==> ChannelConverts(chart, parse, ch)
    ensures Resolve(chart, parse, ch).Success? ==>
      && RoutedKeyword(ch) == Some(Resolve(chart, parse, ch).value.0)
      && Locate(chart.encoding[ch], chart.data, parse) == Success(Resolve(chart, parse, ch).value.1)
  {
  }

  /** `convert_quantitative` succeeds exactly when every channel converts. */
  lemma ConvertSucceeds(chart: Chart, parse: Parser)
    requires EncodingComplete(chart)
    ensures Converted(chart, parse).Success? <==>
      forall i :: 0 <= i < |chart.channels| ==> ChannelConverts(chart, parse, chart.channels[i])
  {
    PrefixSucceeds(chart, parse, |chart.channels|);
    forall i | 0 <= i < |chart.channels| {
      ResolveMeaning(chart, parse, chart.channels[i]);
    }
  }

  /** A successful `convert_quantitative` binds each channel's keyword to that
      channel's located data. */
  lemma ConvertBindsEachChannel(chart: Chart, parse: Parser)
    requires EncodingComplete(chart)
    requires Converted(chart, parse).Success?
    ensures forall i :: 0 <= i < |chart.channels| ==>
      var ch := chart.channels[i];
      && RoutedKeyword(ch).Some?
      && RoutedKeyword(ch).value in Converted(chart, parse).value
      && Locate(chart.encoding[ch], chart.data, parse)
         == Success(Converted(chart, parse).value[RoutedKeyword(ch).value])
  {
    PrefixSucceeds(chart, parse, |chart.channels|);
    PrefixValues(chart, parse, |chart.channels|);
    forall i | 0 <= i < |chart.channels| {
      ResolveMeaning(chart, parse, chart.channels[i]);
    }
  }

  /** The keys of a successful `convert_quantitative` are exactly the keywords
      of the chart's channels. */
  lemma ConvertKeys(chart: Chart, parse: Parser)
    requires EncodingComplete(chart)
    requires Converted(chart, parse).Success?
    ensures Converted(chart, parse).value.Keys == RoutedKeywords(chart.channels)
  {
    PrefixSucceeds(chart, parse, |chart.channels|);
    PrefixValues(chart, parse, |chart.channels|);
    PrefixKeys(chart, parse, |chart.channels|);
    var m := Converted(chart, parse).value;
    forall k | k in m ensures k in RoutedKeywords(chart.channels) {
      var i :| 0 <= i < |chart.channels| && Resolve(chart, parse, chart.channels[i]).Success?
             && Resolve(chart, parse, chart.channels[i]).value.0 == k;
      ResolveMeaning(chart, parse, chart.channels[i]);
    }
    forall k | k in RoutedKeywords(chart.channels) ensures k in m {
      var i :| 0 <= i < |chart.channels| && RoutedKeyword(chart.channels[i]).Some?
             && RoutedKeyword(chart.channels[i]).value == k;
      ResolveMeaning(chart, parse, chart.channels[i]);
    }
  }

  /** `convert_quantitative` raises the error of the first channel that does
      not convert. */
  lemma ConvertFailsAtFirstError(chart: Chart, parse: Parser)
    requires EncodingComplete(chart)
    requires Converted(chart, parse).Failure?
    ensures exists i ::
      && 0 <= i < |chart.channels|
      && !ChannelConverts(chart, parse, chart.channels[i])
      && Converted(chart, parse).error == Resolve(chart, parse, chart.channels[i]).error
      && (forall j :: 0 <= j < i ==> ChannelConverts(chart, parse, chart.channels[j]))
  {
    PrefixFailure(chart, parse, |chart.channels|);
  }

  // ---------------------------------------------------------------------
  // Two charts

  /** x and y bound to fields "a" and "b", color a literal "red". */
  lemma FieldsAndLiteralColor(parse: Parser)
    ensures
      var chart := Chart(
        map["a" := [1, 2, 3], "b" := [4, 5, 6]],
        map[X := FieldReference("a"), Y := FieldReference("b"),
            Color := ChannelSpec(Some(Str("red")), None, None, None)],
        [X, Y, Color]);
      EncodingComplete(chart) &&
      Converted(chart, parse)
        == Success(map["x" := Column([1, 2, 3]), "y" := Column([4, 5, 6]), "c" := Str("red")])
  {
  }

  /** A shorthand-only x, y, color or size channel whose parse names no
      field still produces that channel's keyword, bound to None. */
  lemma ShorthandFallThroughReachesScatter(data: Frame, parse: Parser, s: string, ch: Channel)
    requires ch == X || ch == Y || ch == Color || ch == Size
    requires "aggregate" !in parse(s, data) && "field" !in parse(s, data)
    ensures
      var chart := Chart(data, map[ch := ShorthandOnly(s)], [ch]);
      && EncodingComplete(chart)
      && RoutedKeyword(ch).Some?
      && Converted(chart, parse) == Success(map[RoutedKeyword(ch).value := NoneData])
  {
    var chart := Chart(data, map[ch := ShorthandOnly(s)], [ch]);
    ShorthandWithoutFieldIsNone(s, data, parse);
    assert Resolve(chart, parse, ch) == Success((RoutedKeyword(ch).value, NoneData));
    assert ConvertPrefix(chart, parse, 0) == Success(map[]);
  }
}
