/**
 * The accumulator expression builders of the aggregation framework: factories
 * that fix an operator name and an argument list, and the encoders of
 * `$top`, `$bottom`, `$topN` and `$bottomN`, which write their operator
 * document call by call into the driver's streaming writer.
 *
 * The shape of what those encoders write is given as a document tree
 * (`RankedField`); the encoder method is proved to write exactly the calls
 * for that tree, and the lemmas state the shape of the tree and that the
 * written calls read back as exactly one field.
 */
module AccumulatorExpressions {
  import opened Wrappers
  import opened Bson

  /** Java's `int`. */
  newtype int32 = x: int | -0x8000_0000 <= x < 0x8000_0000

  /** A sort key: a field name and its order (1 ascending, -1 descending, or another server-defined value). */
  datatype Sort = Sort(field: string, order: int32)

  /** An aggregation expression, as far as these builders construct it. */
  datatype Expression =
      /** An expression built elsewhere (a field reference, a literal, ...); its encoding is its own. */
    | Operand(text: string)
      /** An operator applied to one value. */
    | Unary(operation: string, value: Expression)
      /** An operator applied to a list of values. */
    | Accumulator(operation: string, arguments: seq<Expression>)
      /** `$top`, `$bottom`, `$topN`, `$bottomN`: `n` is present for the last two only. */
    | Ranked(operation: string, output: Expression, sortBy: seq<Sort>, n: Option<Expression>)

  /** The operator name an expression is written under (empty for an operand). */
  function Operation(e: Expression): string
  {
    match e
    case Operand(_) => ""
    case Unary(op, _) => op
    case Accumulator(op, _) => op
    case Ranked(op, _, _, _) => op
  }

  /** The values an operator applies to. */
  function Arguments(e: Expression): seq<Expression>
  {
    match e
    case Unary(_, v) => [v]
    case Accumulator(_, args) => args
    case _ => []
  }

  // ---------------------------------------------------------------------------
  // Factories

  function AddToSet(value: Expression): (r: Expression)
    ensures Operation(r) == "$addToSet" && Arguments(r) == [value]
  {
    Unary("$addToSet", value)
  }

  /** `avg(value, additional...)`: the first value, then the others in order. */
  function Avg(value: Expression, additional: seq<Expression>): (r: Expression)
    ensures Operation(r) == "$avg"
    ensures |Arguments(r)| == 1 + |additional|
    ensures Arguments(r)[0] == value && Arguments(r)[1..] == additional
  {
    Accumulator("$avg", [value] + additional)
  }

  function Bottom(output: Expression, sortBy: seq<Sort>): (r: Expression)
    ensures Operation(r) == "$bottom"
    ensures r.Ranked? && r.output == output && r.sortBy == sortBy && r.n == None
  {
    Ranked("$bottom", output, sortBy, None)
  }

  function BottomN(n: Expression, output: Expression, sortBy: seq<Sort>): (r: Expression)
    ensures Operation(r) == "$bottomN"
    ensures r.Ranked? && r.output == output && r.sortBy == sortBy && r.n == Some(n)
  {
    Ranked("$bottomN", output, sortBy, Some(n))
  }

  function First(value: Expression): (r: Expression)
    ensures Operation(r) == "$first" && Arguments(r) == [value]
  {
    Unary("$first", value)
  }

  function Last(value: Expression): (r: Expression)
    ensures Operation(r) == "$last" && Arguments(r) == [value]
  {
    Unary("$last", value)
  }

  function Max(value: Expression): (r: Expression)
    ensures Operation(r) == "$max" && Arguments(r) == [value]
  {
    Unary("$max", value)
  }

  function Min(value: Expression): (r: Expression)
    ensures Operation(r) == "$min" && Arguments(r) == [value]
  {
    Unary("$min", value)
  }

  function Push(value: Expression): (r: Expression)
    ensures Operation(r) == "$push" && Arguments(r) == [value]
  {
    Unary("$push", value)
  }

  /** `sum(first, additional...)`: the first value, then the others in order. */
  function Sum(first: Expression, additional: seq<Expression>): (r: Expression)
    ensures Operation(r) == "$sum"
    ensures |Arguments(r)| == 1 + |additional|
    ensures Arguments(r)[0] == first && Arguments(r)[1..] == additional
  {
    Accumulator("$sum", [first] + additional)
  }

  function Top(output: Expression, sortBy: seq<Sort>): (r: Expression)
    ensures Operation(r) == "$top"
    ensures r.Ranked? && r.output == output && r.sortBy == sortBy && r.n == None
  {
    Ranked("$top", output, sortBy, None)
  }

  function TopN(n: Expression, output: Expression, sortBy: seq<Sort>): (r: Expression)
    ensures Operation(r) == "$topN"
    ensures r.Ranked? && r.output == output && r.sortBy == sortBy && r.n == Some(n)
  {
    Ranked("$topN", output, sortBy, Some(n))
  }

  // ---------------------------------------------------------------------------
  // The document the ranked accumulators are written as

  /** `{field: order}`, the order widened to a 64-bit integer. */
  function SortDocument(sort: Sort): Value<Expression>
  {
    Document([Field(sort.field, Int64Value(sort.order as int64))])
  }

  /** One sort document per sort key, in the order of the keys. */
  function SortDocuments(sorts: seq<Sort>): (docs: seq<Value<Expression>>)
    ensures |docs| == |sorts|
    ensures forall i :: 0 <= i < |sorts| ==> docs[i] == SortDocument(sorts[i])
  {
    if sorts == [] then [] else [SortDocument(sorts[0])] + SortDocuments(sorts[1..])
  }

  /** The value of `sortBy`: a lone document for one key, an array for any other count. */
  function SortByValue(sorts: seq<Sort>): Value<Expression>
  {
    if |sorts| == 1 then SortDocument(sorts[0]) else Array(SortDocuments(sorts))
  }

  /** The fields of the operator document: `output`, `sortBy` and, for the N variants, `n`. */
  function RankedBody(e: Expression): seq<Field<Expression>>
    requires e.Ranked?
  {
    [Field("output", Nested(e.output)), Field("sortBy", SortByValue(e.sortBy))]
      + (match e.n
         case Some(n) => [Field("n", Nested(n))]
         case None => [])
  }

  /** The one field a ranked accumulator writes: its operator name over its body. */
  function RankedField(e: Expression): Field<Expression>
    requires e.Ranked?
  {
    Field(e.operation, Document(RankedBody(e)))
  }

  lemma SortKeyShape(sort: Sort)
    ensures SortDocument(sort).Document?
    ensures Keys(SortDocument(sort).fields) == [sort.field]
    ensures SortDocument(sort).fields[0].value.Int64Value?
    ensures SortDocument(sort).fields[0].value.long as int == sort.order as int
  {
  }

  lemma SortByShape(sorts: seq<Sort>)
    ensures SortByValue(sorts).Document? <==> |sorts| == 1
    ensures |sorts| == 1 ==> SortByValue(sorts) == SortDocument(sorts[0])
    ensures |sorts| != 1 ==>
      SortByValue(sorts).Array? && |SortByValue(sorts).items| == |sorts| &&
      forall i :: 0 <= i < |sorts| ==> SortByValue(sorts).items[i] == SortDocument(sorts[i])
  {
  }

  lemma RankedBodyShape(e: Expression)
    requires e.Ranked?
    ensures Keys(RankedBody(e)) == ["output", "sortBy"] + (if e.n.Some? then ["n"] else [])
    ensures RankedBody(e)[0].value == Nested(e.output)
    ensures RankedBody(e)[1].value == SortByValue(e.sortBy)
    ensures e.n.Some? ==> RankedBody(e)[2].value == Nested(e.n.value)
  {
  }

  /**
   * What a ranked accumulator writes is exactly one field of the enclosing
   * document: read back up to the enclosing document's end, the calls give
   * that one field and nothing else.
   */
  lemma RankedEncodingIsOneField(e: Expression)
    requires e.Ranked?
    ensures ReadFields(WriteFields([RankedField(e)]) + [EndDocument]) == Some(([RankedField(e)], []))
  {
    ReadWriteFields([RankedField(e)], []);
    assert WriteFields([RankedField(e)]) + [EndDocument] + [] == WriteFields([RankedField(e)]) + [EndDocument];
  }

  // ---------------------------------------------------------------------------
  // The encoders

  /** Writes one sort key as the document `{field: order}`. */
  method EncodeSort(w: Writer<Expression>, sort: Sort)
    modifies w
    ensures w.events == old(w.events) + Write(SortDocument(sort))
  {
    w.WriteStartDocument();
    w.WriteNamedInt64(sort.field, sort.order as int64);
    w.WriteEndDocument();
    var key: Field<Expression> := Field(sort.field, Int64Value(sort.order as int64));
    assert WriteFields([key]) == [Name(sort.field), Int64(sort.order as int64)] by {
      assert [key][1..] == [];
    }
  }

  lemma SortItemsStep(sorts: seq<Sort>, i: nat)
    requires i < |sorts|
    ensures WriteItems(SortDocuments(sorts[..i + 1]))
         == WriteItems(SortDocuments(sorts[..i])) + Write(SortDocument(sorts[i]))
  {
    assert SortDocuments(sorts[..i + 1]) == SortDocuments(sorts[..i]) + [SortDocument(sorts[i])];
    WriteItemsAppend(SortDocuments(sorts[..i]), [SortDocument(sorts[i])]);
    assert WriteItems([SortDocument(sorts[i])]) == Write(SortDocument(sorts[i]));
  }

  /** The calls that write the `n` field, when there is one. */
  function CountCalls(n: Option<Expression>): seq<Event<Expression>>
  {
    match n
    case Some(n) => [Name("n"), Encoded(n)]
    case None => []
  }

  /** The writer calls for a ranked accumulator's field, one after the other. */
  lemma RankedFieldCalls(e: Expression)
    requires e.Ranked?
    ensures WriteFields([RankedField(e)])
         == [Name(e.operation), StartDocument, Name("output"), Encoded(e.output), Name("sortBy")]
            + Write(SortByValue(e.sortBy))
            + CountCalls(e.n)
            + [EndDocument]
  {
    var output := Field("output", Nested(e.output));
    var sortBy := Field("sortBy", SortByValue(e.sortBy));
    WriteOneField(RankedField(e));
    WriteOneField(output);
    WriteOneField(sortBy);
    assert [output] + [sortBy] == [output, sortBy];
    WriteFieldsAppend([output], [sortBy]);
    match e.n
    case Some(n) =>
      var count := Field("n", Nested(n));
      WriteOneField(count);
      WriteFieldsAppend([output, sortBy], [count]);
      assert RankedBody(e) == [output, sortBy] + [count];
    case None =>
      assert RankedBody(e) == [output, sortBy];
  }

  /** Writes the value of `sortBy`: a lone sort document for one key, an array of them otherwise. */
  method EncodeSortBy(w: Writer<Expression>, sortBy: seq<Sort>)
    modifies w
    ensures w.events == old(w.events) + Write(SortByValue(sortBy))
  {
    if |sortBy| == 1 {
      EncodeSort(w, sortBy[0]);
    } else {
      w.WriteStartArray();
      ghost var itemsStart := w.events;
      for i := 0 to |sortBy|
        invariant w.events == itemsStart + WriteItems(SortDocuments(sortBy[..i]))
      {
        EncodeSort(w, sortBy[i]);
        SortItemsStep(sortBy, i);
      }
      assert sortBy[..|sortBy|] == sortBy;
      w.WriteEndArray();
    }
  }

  /**
   * The encoder shared by `top`, `bottom`, `topN` and `bottomN`: the operator
   * name, then a document holding `output`, `sortBy` and, when present, `n`.
   */
  method EncodeRanked(w: Writer<Expression>, e: Expression)
    requires e.Ranked?
    modifies w
    ensures w.events == old(w.events) + WriteFields([RankedField(e)])
  {
    ghost var start := w.events;
    w.WriteName(e.operation);
    w.WriteStartDocument();
    w.WriteName("output");
    w.WriteEncoded(e.output);
    w.WriteName("sortBy");
    ghost var header := [Name(e.operation), StartDocument, Name("output"), Encoded(e.output), Name("sortBy")];
    assert w.events == start + header;
    EncodeSortBy(w, e.sortBy);
    ghost var sorted := w.events;
    if e.n.Some? {
      w.WriteName("n");
      w.WriteEncoded(e.n.value);
    }
    assert w.events == sorted + CountCalls(e.n);
    w.WriteEndDocument();
    RankedFieldCalls(e);
  }

  // ---------------------------------------------------------------------------
  // The ranked accumulators side by side

  /**
   * `top` writes `$top` over the keys `output` and `sortBy`; `topN` writes
   * `$topN` over the same body followed by `n`.
   */
  lemma TopNExtendsTop(n: Expression, output: Expression, sortBy: seq<Sort>)
    ensures RankedField(Top(output, sortBy)).name == "$top"
    ensures Keys(RankedBody(Top(output, sortBy))) == ["output", "sortBy"]
    ensures RankedField(TopN(n, output, sortBy)).name == "$topN"
    ensures RankedBody(TopN(n, output, sortBy)) == RankedBody(Top(output, sortBy)) + [Field("n", Nested(n))]
  {
    RankedBodyShape(Top(output, sortBy));
  }

  /**
   * `bottom` writes `$bottom` over the keys `output` and `sortBy`; `bottomN`
   * writes `$bottomN` over the same body followed by `n`.
   */
  lemma BottomNExtendsBottom(n: Expression, output: Expression, sortBy: seq<Sort>)
    ensures RankedField(Bottom(output, sortBy)).name == "$bottom"
    ensures Keys(RankedBody(Bottom(output, sortBy))) == ["output", "sortBy"]
    ensures RankedField(BottomN(n, output, sortBy)).name == "$bottomN"
    ensures RankedBody(BottomN(n, output, sortBy)) == RankedBody(Bottom(output, sortBy)) + [Field("n", Nested(n))]
  {
    RankedBodyShape(Bottom(output, sortBy));
  }
}
