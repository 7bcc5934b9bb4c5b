# Morphia accumulator expressions and the Morphia types codec provider

This project models two pieces of the Morphia object-document mapper for MongoDB and proves properties of them.

- **Accumulator expression builders** (`AccumulatorExpressions`).
  - The factories `addToSet`, `avg`, `first`, `last`, `max`, `min`, `push` and `sum` fix an operator name and an argument list.
  - The factories `top`, `bottom`, `topN` and `bottomN` build expressions whose `encode` writes one operator document call by call into the driver's `BsonWriter`. That document holds `output`, then `sortBy`, then `n` for the N variants.
  - `sortBy` is a single `{field: order}` document when exactly one sort key is given. For any other count it is an array of such documents.
  - The writer is a class with an append-only list of writer calls (`Bson.Writer`).
  - The document is a tree (`Bson.Value`). `Bson.Write` gives the calls that write a tree, and a reader turns calls back into a tree.
  - The encoder methods are proved to append exactly the calls for the expected tree. Those calls read back as exactly that one field.
- **The types codec provider** (`TypesCodecProvider`).
  - A registry maps each class to the codec that encodes it.
  - The constructor registers fifteen named codecs and fourteen typed-array codecs with `addCodec`, which is a map `put` keyed by the codec's encoder class.
  - `get` looks a class up in a fixed order:
    1. the exact match;
    2. else, for an `AbstractMap` subclass, whatever `get(Map.class)` gives;
    3. else, for an array whose component is not `byte`, a fresh `ArrayCodec`;
    4. else null (`None`).
  - The registry is specified as the fold of the registrations so far (`TypesCodecProvider.Registered`). The class keeps that list as a ghost field.

Java `int` and `long` are the newtypes `int32` and `int64`. A sort order is widened from the first to the second, as `writeInt64` does. Java classes are values of the `Class` datatype: a primitive, an array of a component class, or a reference type with its supertypes. `isAssignableFrom`, `isArray` and `getComponentType` become predicates on that datatype.

## Model

| member | source | states |
|---|---|---|
| AccumulatorExpressions.AddToSet | core/src/main/java/dev/morphia/aggregation/expressions/AccumulatorExpressions.java:57-59 | operator `$addToSet`, and the argument list is exactly the given value |
| AccumulatorExpressions.Avg | core/src/main/java/dev/morphia/aggregation/expressions/AccumulatorExpressions.java:69-74 | operator `$avg`; arguments are the first value followed by the additional ones in order, length 1 + the number of additional values |
| AccumulatorExpressions.Bottom | core/src/main/java/dev/morphia/aggregation/expressions/AccumulatorExpressions.java:86-87 | operator `$bottom`, keeps `output` and every sort key in order, has no `n` |
| AccumulatorExpressions.BottomN | core/src/main/java/dev/morphia/aggregation/expressions/AccumulatorExpressions.java:128-129 | operator `$bottomN`, keeps `output`, the sort keys in order, and `n` |
| AccumulatorExpressions.First | core/src/main/java/dev/morphia/aggregation/expressions/AccumulatorExpressions.java:158-160 | operator `$first`, and the argument list is exactly the given value |
| AccumulatorExpressions.Last | core/src/main/java/dev/morphia/aggregation/expressions/AccumulatorExpressions.java:182-184 | operator `$last`, and the argument list is exactly the given value |
| AccumulatorExpressions.Max | core/src/main/java/dev/morphia/aggregation/expressions/AccumulatorExpressions.java:193-195 | operator `$max`, and the argument list is exactly the given value |
| AccumulatorExpressions.Min | core/src/main/java/dev/morphia/aggregation/expressions/AccumulatorExpressions.java:204-206 | operator `$min`, and the argument list is exactly the given value |
| AccumulatorExpressions.Push | core/src/main/java/dev/morphia/aggregation/expressions/AccumulatorExpressions.java:215-217 | operator `$push`, and the argument list is exactly the given value |
| AccumulatorExpressions.Sum | core/src/main/java/dev/morphia/aggregation/expressions/AccumulatorExpressions.java:240-245 | operator `$sum`; arguments are the first value followed by the additional ones in order, length 1 + the number of additional values |
| AccumulatorExpressions.Top | core/src/main/java/dev/morphia/aggregation/expressions/AccumulatorExpressions.java:257-258 | operator `$top`, keeps `output` and every sort key in order, has no `n` |
| AccumulatorExpressions.TopN | core/src/main/java/dev/morphia/aggregation/expressions/AccumulatorExpressions.java:293-294 | operator `$topN`, keeps `output`, the sort keys in order, and `n` |
| AccumulatorExpressions.SortDocuments | core/src/main/java/dev/morphia/aggregation/expressions/AccumulatorExpressions.java:97-101 | one sort document per sort key, in argument order |
| AccumulatorExpressions.SortKeyShape | core/src/main/java/dev/morphia/aggregation/expressions/AccumulatorExpressions.java:108-112 | a sort key is a one-field document named by the sort field, whose value is the order as a 64-bit integer |
| AccumulatorExpressions.SortByShape | core/src/main/java/dev/morphia/aggregation/expressions/AccumulatorExpressions.java:92-102 | `sortBy` is a document if and only if there is exactly one sort key; otherwise, zero keys included, it is an array of one sort document per key in order |
| AccumulatorExpressions.RankedBodyShape | core/src/main/java/dev/morphia/aggregation/expressions/AccumulatorExpressions.java:132-146 | the operator document's keys are `output`, `sortBy` and, only when `n` is present, `n` last, each holding the corresponding value |
| AccumulatorExpressions.EncodeSort | core/src/main/java/dev/morphia/aggregation/expressions/AccumulatorExpressions.java:108-112 | the calls appended are exactly those that write the document `{field: order}` |
| AccumulatorExpressions.EncodeSortBy | core/src/main/java/dev/morphia/aggregation/expressions/AccumulatorExpressions.java:92-102 | the calls appended are exactly those that write the `sortBy` value: one sort document, or an array with each key written in turn by the loop |
| AccumulatorExpressions.RankedFieldCalls | core/src/main/java/dev/morphia/aggregation/expressions/AccumulatorExpressions.java:132-146 | the field for a ranked accumulator is written as: operator name, start of document, `output`, `sortBy` and its value, `n` when present, end of document |
| AccumulatorExpressions.EncodeRanked | core/src/main/java/dev/morphia/aggregation/expressions/AccumulatorExpressions.java:89-104 | the shared `encode` of the four ranked accumulators appends exactly the calls for the single field operator-name → body document, and nothing else |
| AccumulatorExpressions.RankedEncodingIsOneField | core/src/main/java/dev/morphia/aggregation/expressions/AccumulatorExpressions.java:90 | for any of `top`, `bottom`, `topN`, `bottomN`, the calls written read back as exactly one field of the enclosing document, with nothing left over |
| AccumulatorExpressions.TopNExtendsTop | core/src/main/java/dev/morphia/aggregation/expressions/AccumulatorExpressions.java:257-314 | `top` is written under `$top` with exactly the keys `output`, `sortBy`; `topN` is written under `$topN` with the same body followed by the field `n` holding the given count |
| AccumulatorExpressions.BottomNExtendsBottom | core/src/main/java/dev/morphia/aggregation/expressions/AccumulatorExpressions.java:86-149 | `bottom` is written under `$bottom` with exactly the keys `output`, `sortBy`; `bottomN` is written under `$bottomN` with the same body followed by the field `n` holding the given count |
| Bson.ReadWrite | core/src/main/java/dev/morphia/aggregation/expressions/AccumulatorExpressions.java:89-104 | the writer calls that write a document tree read back as that tree, whatever follows them, so the calls an encoder writes determine the document |
| TypesCodecProvider.EncoderClass | core/src/main/java/dev/morphia/mapping/codec/MorphiaTypesCodecProvider.java:68-73 | `getEncoderClass()`: among the codecs only `HashMapCodec` (and an array codec built for such a class) encodes an `AbstractMap` subtype; a typed-array codec encodes the array class of its element; `ByteWrapperArrayCodec` encodes an array whose component is not `byte` |
| TypesCodecProvider.IsAbstractMapSubtype | core/src/main/java/dev/morphia/mapping/codec/MorphiaTypesCodecProvider.java:59 | `AbstractMap.class.isAssignableFrom(c)` holds only for reference classes; it holds for `AbstractMap` and `HashMap` and not for `Map`, so the fallback to `Map` cannot loop |
| TypesCodecProvider.AbstractMapSubtypeInherited | core/src/main/java/dev/morphia/mapping/codec/MorphiaTypesCodecProvider.java:59 | on well-formed classes the test is transitive: a class extending an `AbstractMap` subtype is one |
| TypesCodecProvider.IsArray | core/src/main/java/dev/morphia/mapping/codec/MorphiaTypesCodecProvider.java:61 | `c.isArray()`: primitives and reference types are not arrays, every array class is |
| TypesCodecProvider.ComponentIsByte | core/src/main/java/dev/morphia/mapping/codec/MorphiaTypesCodecProvider.java:61 | for an array class, its component is `byte` exactly when the class is `byte[]` |
| TypesCodecProvider.Registered | core/src/main/java/dev/morphia/mapping/codec/MorphiaTypesCodecProvider.java:50-52 | after any sequence of registrations, every entry is a codec that was registered and is keyed by its own encoder class |
| TypesCodecProvider.LastRegistrationWins | core/src/main/java/dev/morphia/mapping/codec/MorphiaTypesCodecProvider.java:50-52 | a codec not followed by a registration for the same encoder class is the one the registry holds for that class |
| TypesCodecProvider.LaterRegistrationWins | core/src/main/java/dev/morphia/mapping/codec/MorphiaTypesCodecProvider.java:50-52 | a later registration under the same encoder class leaves the registry as if the earlier one had never happened |
| TypesCodecProvider.NeverRegistered | core/src/main/java/dev/morphia/mapping/codec/MorphiaTypesCodecProvider.java:50-52 | a class that no registered codec encodes is not a key of the registry |
| TypesCodecProvider.MorphiaTypesCodecProvider.AddCodec | core/src/main/java/dev/morphia/mapping/codec/MorphiaTypesCodecProvider.java:50-52 | stores the codec under its encoder class, replacing what was there and leaving every other entry unchanged |
| TypesCodecProvider.MorphiaTypesCodecProvider.constructor | core/src/main/java/dev/morphia/mapping/codec/MorphiaTypesCodecProvider.java:24-48 | the registry is what the fifteen named registrations followed by the fourteen typed-array registrations, in source order, produce |
| TypesCodecProvider.MorphiaTypesCodecProvider.Get | core/src/main/java/dev/morphia/mapping/codec/MorphiaTypesCodecProvider.java:55-66 | `get` finds a codec if and only if the class is registered, or is an `AbstractMap` subclass while `Map` is registered, or is a non-`byte` array; an exact match is returned unchanged, ahead of every fallback |
| TypesCodecProvider.MorphiaTypesCodecProvider.AbstractMapFallsBackToMap | core/src/main/java/dev/morphia/mapping/codec/MorphiaTypesCodecProvider.java:59-60 | an unregistered `AbstractMap` subclass gets what `Map` gets: its registered codec, or nothing |
| TypesCodecProvider.MorphiaTypesCodecProvider.ArrayFallsBackToArrayCodec | core/src/main/java/dev/morphia/mapping/codec/MorphiaTypesCodecProvider.java:61-62 | an unregistered array class whose component is not `byte` gets a new array codec for that very class |
| TypesCodecProvider.MorphiaTypesCodecProvider.UnresolvedIsNull | core/src/main/java/dev/morphia/mapping/codec/MorphiaTypesCodecProvider.java:61-65 | an unregistered class that is neither an `AbstractMap` subclass nor a non-`byte` array gets nothing |
| TypesCodecProvider.MorphiaTypesCodecProvider.GetHandlesClass | core/src/main/java/dev/morphia/mapping/codec/MorphiaTypesCodecProvider.java:55-66 | whatever `get` returns encodes the class asked for, or `Map` when that class is an `AbstractMap` subclass |
| TypesCodecProvider.MorphiaTypesCodecProvider.HashMapRegisteredExplicitly | core/src/main/java/dev/morphia/mapping/codec/MorphiaTypesCodecProvider.java:31 | after construction `get(HashMap)` is the `HashMapCodec` and not the `Map` fallback, and `get(Map)` is the `MorphiaMapCodec` |
| TypesCodecProvider.MorphiaTypesCodecProvider.MapSubclassGetsMapCodec | core/src/main/java/dev/morphia/mapping/codec/MorphiaTypesCodecProvider.java:59-60 | after construction an unregistered well-formed class extending an `AbstractMap` subtype (a user's `HashMap` subclass, say) gets the `MorphiaMapCodec` |
| TypesCodecProvider.MorphiaTypesCodecProvider.TypedArraysRegistered | core/src/main/java/dev/morphia/mapping/codec/MorphiaTypesCodecProvider.java:41-47 | after construction each of the fourteen primitive and wrapper classes from `boolean` to `Short` has its typed-array codec for its array class |
| TypesCodecProvider.MorphiaTypesCodecProvider.ByteArrayUnresolved | core/src/main/java/dev/morphia/mapping/codec/MorphiaTypesCodecProvider.java:61-65 | after construction `get(byte[])` is null: no registration encodes `byte[]` and the array fallback excludes it |

## Left out

- `accumulator(...)`, `function(...)` and `push()`: the `AccumulatorExpression`, `FunctionExpression` and `Push` classes they return are not part of this model.
- AccumulatorExpressions.Top, AccumulatorExpressions.Bottom, AccumulatorExpressions.TopN, AccumulatorExpressions.BottomN: the Java expressions keep a reference to the caller's `Sort...` array and read its length and elements when `encode` runs. A caller who changes an explicitly passed array afterwards gets the changed keys written. The model copies the keys into a sequence when the expression is built, so it does not capture that aliasing.
- A null `sortBy` array or a null sort key makes `encode` throw a `NullPointerException`. The model has no null sort keys, so that error path is not modelled.
- The base `Expression` and `Accumulator` encoders are not part of this model. The factories are modelled up to the operator name and argument list they fix.
- Null `output` or `n` are not modelled. `ExpressionHelper.document`, `array` and `expression` are not part of this model. They are taken to write a name, the start of a document or array, the body, and its end. A nested expression is one opaque writer call (`Encoded`).
- The four anonymous `encode` overrides of `top`, `bottom`, `topN` and `bottomN` are identical up to the optional `n`. One method, `EncodeRanked`, models all of them.
- `BsonWriter` state checks are not modelled. For example, the driver throws when a name is written where a value is expected.
- `EncoderContext` and `Datastore` are only passed through, so they are left out.
- EncoderClass: the codec classes other than `HashMapCodec` are not part of this model. Each is taken to encode the class it is named after, `TypedArrayCodec(c)` to encode `c[]`, and `ByteWrapperArrayCodec` to encode `Byte[]`.
- `Class`: reflection is replaced by a datatype. A reference type carries its supertypes, and an `OtherType` lists all of them explicitly. `isAssignableFrom` is transitive only for classes meeting `WellFormedClass`: the supertypes an `OtherType` lists must include the supertypes of those supertypes. The lookup lemmas do not require this, but only for well-formed classes do they agree with Java. For example, `OtherType("MyMap", {HashMapType})` without `AbstractMapType` and `MapType` is not an `AbstractMap` subtype in the model.
- `get`'s `CodecRegistry` argument is only passed to the recursive call, so it is dropped. `get` is a function reading the provider, so by construction it does not modify the registry.
- TypesCodecProvider.MorphiaTypesCodecProvider.constructor: the fifteen explicit `addCodec` calls are made by a loop over the same codecs in the same order.
- `ArrayCodec` is a value. The model does not capture that each fallback lookup allocates a new codec object.
