/**
 * The document-writing side of the database driver, as far as the accumulator
 * encoders use it. The driver's streaming writer is an append-only list of
 * writer calls (`Event`); the document those calls describe is a `Value` tree.
 * `Write` says which calls write a given tree, and the reader (`ReadValue`,
 * `ReadFields`, `ReadItems`) turns a list of calls back into the tree; the
 * round-trip lemmas show that the calls determine the tree.
 *
 * The type parameter `E` is the type of nested values that are written by
 * their own encoder; such a value appears as one opaque `Encoded` call.
 */
module Bson {
  import opened Wrappers

  /** Java's `long`. */
  newtype int64 = x: int | -0x8000_0000_0000_0000 <= x < 0x8000_0000_0000_0000

  /** One call on the streaming writer. */
  datatype Event<E> =
    | StartDocument
    | EndDocument
    | StartArray
    | EndArray
    | Name(name: string)
    | Int64(number: int64)
    | Encoded(nested: E)    // everything the nested value's own encoder writes

  /** A document tree. */
  datatype Value<E> =
    | Document(fields: seq<Field<E>>)
    | Array(items: seq<Value<E>>)
    | Int64Value(long: int64)
    | Nested(encoded: E)

  datatype Field<E> = Field(name: string, value: Value<E>)

  /** The names of a document's fields, in order. */
  function Keys<E>(fields: seq<Field<E>>): (keys: seq<string>)
    ensures |keys| == |fields|
    ensures forall i :: 0 <= i < |fields| ==> keys[i] == fields[i].name
  {
    if fields == [] then [] else [fields[0].name] + Keys(fields[1..])
  }

  // ---------------------------------------------------------------------------
  // Writing a tree as a sequence of writer calls

  function Write<E>(v: Value<E>): seq<Event<E>>
    decreases v
  {
    match v
    case Document(fields) => [StartDocument] + WriteFields(fields) + [EndDocument]
    case Array(items) => [StartArray] + WriteItems(items) + [EndArray]
    case Int64Value(x) => [Int64(x)]
    case Nested(e) => [Encoded(e)]
  }

  /** The calls that write `fields` into a document that is already open. */
  function WriteFields<E>(fields: seq<Field<E>>): seq<Event<E>>
    decreases fields
  {
    if fields == [] then []
    else [Name(fields[0].name)] + Write(fields[0].value) + WriteFields(fields[1..])
  }

  /** The calls that write `items` into an array that is already open. */
  function WriteItems<E>(items: seq<Value<E>>): seq<Event<E>>
    decreases items
  {
    if items == [] then [] else Write(items[0]) + WriteItems(items[1..])
  }

  lemma {:induction false} WriteFieldsAppend<E>(a: seq<Field<E>>, b: seq<Field<E>>)
    ensures WriteFields(a + b) == WriteFields(a) + WriteFields(b)
    decreases a
  {
    if a == [] {
      assert a + b == b;
    } else {
      assert (a + b)[1..] == a[1..] + b;
      WriteFieldsAppend(a[1..], b);
    }
  }

  lemma WriteOneField<E>(f: Field<E>)
    ensures WriteFields([f]) == [Name(f.name)] + Write(f.value)
  {
  }

  lemma {:induction false} WriteItemsAppend<E>(a: seq<Value<E>>, b: seq<Value<E>>)
    ensures WriteItems(a + b) == WriteItems(a) + WriteItems(b)
    decreases a
  {
    if a == [] {
      assert a + b == b;
    } else {
      assert (a + b)[1..] == a[1..] + b;
      WriteItemsAppend(a[1..], b);
    }
  }

  // ---------------------------------------------------------------------------
  // Reading a sequence of writer calls back as a tree

  /** Reads one value from the front of `events`; gives the value and the calls after it. */
  function ReadValue<E>(events: seq<Event<E>>): (r: Option<(Value<E>, seq<Event<E>>)>)
    ensures r.Some? ==> |r.value.1| < |events|
    decreases |events|, 0
  {
    if events == [] then None
    else match events[0]
      case StartDocument =>
        (match ReadFields(events[1..])
         case None => None
         case Some((fields, rest)) => Some((Document(fields), rest)))
      case StartArray =>
        (match ReadItems(events[1..])
         case None => None
         case Some((items, rest)) => Some((Array(items), rest)))
      case Int64(x) => Some((Int64Value(x), events[1..]))
      case Encoded(e) => Some((Nested(e), events[1..]))
      case _ => None
  }

  /** Reads named fields up to and including the `EndDocument` that closes them. */
  function ReadFields<E>(events: seq<Event<E>>): (r: Option<(seq<Field<E>>, seq<Event<E>>)>)
    ensures r.Some? ==> |r.value.1| < |events|
    decreases |events|, 0
  {
    if events == [] then None
    else match events[0]
      case EndDocument => Some(([], events[1..]))
      case Name(name) =>
        (match ReadValue(events[1..])
         case None => None
         case Some((v, rest)) =>
           (match ReadFields(rest)
            case None => None
            case Some((fields, rest')) => Some(([Field(name, v)] + fields, rest'))))
      case _ => None
  }

  /** Reads array items up to and including the `EndArray` that closes them. */
  function ReadItems<E>(events: seq<Event<E>>): (r: Option<(seq<Value<E>>, seq<Event<E>>)>)
    ensures r.Some? ==> |r.value.1| < |events|
    decreases |events|, 1
  {
    if events == [] then None
    else if events[0].EndArray? then Some(([], events[1..]))
    else match ReadValue(events)
      case None => None
      case Some((v, rest)) =>
        (match ReadItems(rest)
         case None => None
         case Some((items, rest')) => Some(([v] + items, rest')))
  }

  // ---------------------------------------------------------------------------
  // Round trip: the calls that write a tree read back as that tree

  lemma {:induction false} ReadWrite<E>(v: Value<E>, rest: seq<Event<E>>)
    ensures ReadValue(Write(v) + rest) == Some((v, rest))
    decreases v
  {
    match v
    case Document(fields) =>
      assert Write(v) + rest == [StartDocument] + (WriteFields(fields) + [EndDocument] + rest);
      ReadWriteFields(fields, rest);
    case Array(items) =>
      assert Write(v) + rest == [StartArray] + (WriteItems(items) + [EndArray] + rest);
      ReadWriteItems(items, rest);
    case Int64Value(x) =>
      assert (Write(v) + rest)[1..] == rest;
    case Nested(e) =>
      assert (Write(v) + rest)[1..] == rest;
  }

  lemma {:induction false} ReadWriteFields<E>(fields: seq<Field<E>>, rest: seq<Event<E>>)
    ensures ReadFields(WriteFields(fields) + [EndDocument] + rest) == Some((fields, rest))
    decreases fields
  {
    if fields == [] {
      assert WriteFields(fields) + [EndDocument] + rest == [EndDocument] + rest;
    } else {
      var f := fields[0];
      var tail := WriteFields(fields[1..]) + [EndDocument] + rest;
      assert WriteFields(fields) + [EndDocument] + rest == [Name(f.name)] + (Write(f.value) + tail);
      ReadWrite(f.value, tail);
      ReadWriteFields(fields[1..], rest);
      assert [f] + fields[1..] == fields;
    }
  }

  lemma {:induction false} ReadWriteItems<E>(items: seq<Value<E>>, rest: seq<Event<E>>)
    ensures ReadItems(WriteItems(items) + [EndArray] + rest) == Some((items, rest))
    decreases items
  {
    if items == [] {
      assert WriteItems(items) + [EndArray] + rest == [EndArray] + rest;
    } else {
      var tail := WriteItems(items[1..]) + [EndArray] + rest;
      assert WriteItems(items) + [EndArray] + rest == Write(items[0]) + tail;
      ReadWrite(items[0], tail);
      assert (Write(items[0]) + tail)[0] == Write(items[0])[0];
      ReadWriteItems(items[1..], rest);
      assert [items[0]] + items[1..] == items;
    }
  }

  // ---------------------------------------------------------------------------
  // The streaming writer

  /** The driver's streaming document writer: each call appends to `events`. */
  class Writer<E> {
    var events: seq<Event<E>>

    constructor ()
      ensures events == []
    {
      events := [];
    }

    method WriteName(name: string)
      modifies this
      ensures events == old(events) + [Name(name)]
    {
      events := events + [Name(name)];
    }

    method WriteStartDocument()
      modifies this
      ensures events == old(events) + [StartDocument]
    {
      events := events + [StartDocument];
    }

    method WriteEndDocument()
      modifies this
      ensures events == old(events) + [EndDocument]
    {
      events := events + [EndDocument];
    }

    method WriteStartArray()
      modifies this
      ensures events == old(events) + [StartArray]
    {
      events := events + [StartArray];
    }

    method WriteEndArray()
      modifies this
      ensures events == old(events) + [EndArray]
    {
      events := events + [EndArray];
    }

    /** The driver's `writeInt64(name, value)`: a field name followed by a 64-bit integer. */
    method WriteNamedInt64(name: string, x: int64)
      modifies this
      ensures events == old(events) + [Name(name), Int64(x)]
    {
      events := events + [Name(name), Int64(x)];
    }

    /** Hands the writer to the encoder of a nested value. */
    method WriteEncoded(e: E)
      modifies this
      ensures events == old(events) + [Encoded(e)]
    {
      events := events + [Encoded(e)];
    }
  }
}
