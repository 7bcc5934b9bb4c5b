/**
 * The provider of the mapper's own codecs: a registry of codecs keyed by the
 * class each one encodes, filled once by the constructor, and a lookup that
 * falls back from an exact match to the `Map` codec for `AbstractMap`
 * subclasses and to a fresh array codec for arrays whose component is not
 * `byte`.
 *
 * Java classes are values of `Class`: a primitive, an array of a component
 * class, or a reference class named together with the names of all its
 * supertypes, which is what `isAssignableFrom` consults.
 */
module TypesCodecProvider {
  import opened Wrappers

  datatype Primitive = Boolean | Byte | Char | Double | Float | Int | Long | Short

  /**
   * The reference types this model names. Any other class or interface is an
   * `OtherType`, given with the names of all the types it extends or implements.
   */
  datatype TypeName =
    | AbstractMapType | MapType | HashMapType | ObjectType | NumberType
    | DateType | LocalDateTimeType | LocalTimeType | ClassType | CenterType | ShapeType
    | KeyType | LocaleType | UriType | LegacyQueryType | BitSetType
    | BooleanType | ByteType | CharacterType | DoubleType | FloatType | IntegerType | LongType | ShortType
    | OtherType(qualifiedName: string, supertypes: set<TypeName>)

  /** The types a reference type extends or implements, directly or not (`Object` left implicit). */
  function Supertypes(t: TypeName): set<TypeName>
  {
    match t
    case HashMapType => {AbstractMapType, MapType}
    case AbstractMapType => {MapType}
    case CenterType => {ShapeType}
    case ByteType => {NumberType}
    case DoubleType => {NumberType}
    case FloatType => {NumberType}
    case IntegerType => {NumberType}
    case LongType => {NumberType}
    case ShortType => {NumberType}
    case OtherType(_, supertypes) => supertypes
    case _ => {}
  }

  datatype Class =
    | PrimitiveClass(primitive: Primitive)
    | ArrayClass(component: Class)
    | ReferenceClass(name: TypeName)

  const MapClass := ReferenceClass(MapType)
  const HashMapClass := ReferenceClass(HashMapType)
  const ByteArrayClass := ArrayClass(PrimitiveClass(Byte))

  /**
   * A type whose listed supertypes are closed under `Supertypes`, as the
   * transitive extends/implements relation of Java is. The named types are
   * closed by construction; an `OtherType` must list the supertypes of its
   * supertypes too.
   */
  predicate WellFormedType(t: TypeName)
  {
    t.OtherType? ==> forall s | s in t.supertypes :: Supertypes(s) <= t.supertypes
  }

  /** Every class reachable in `c` names only well-formed reference types. */
  predicate WellFormedClass(c: Class)
  {
    match c
    case PrimitiveClass(_) => true
    case ArrayClass(component) => WellFormedClass(component)
    case ReferenceClass(t) => WellFormedType(t)
  }

  /** `AbstractMap.class.isAssignableFrom(c)`. */
  function IsAbstractMapSubtype(c: Class): (b: bool)
    ensures b ==> c.ReferenceClass?
    ensures c == ReferenceClass(AbstractMapType) ==> b
    ensures c == HashMapClass ==> b
    ensures c == MapClass ==> !b
  {
    c.ReferenceClass? && (c.name == AbstractMapType || AbstractMapType in Supertypes(c.name))
  }

  /**
   * Subtyping is transitive on well-formed classes: a reference class that
   * extends some `AbstractMap` subtype is itself one.
   */
  lemma AbstractMapSubtypeInherited(c: Class, s: TypeName)
    requires WellFormedClass(c) && c.ReferenceClass? && s in Supertypes(c.name)
    requires IsAbstractMapSubtype(ReferenceClass(s))
    ensures IsAbstractMapSubtype(c)
  {
  }

  /** `c.isArray()`: primitives and reference types are not arrays; every other class is. */
  function IsArray(c: Class): (b: bool)
    ensures b <==> !(c.PrimitiveClass? || c.ReferenceClass?)
  {
    c.ArrayClass?
  }

  /** `c.getComponentType().equals(byte.class)`, asked of array classes only. */
  function ComponentIsByte(c: Class): (b: bool)
    requires IsArray(c)
    ensures b <==> c == ByteArrayClass
  {
    c.component == PrimitiveClass(Byte)
  }

  /** The codecs the provider knows of; each is identified by its class. */
  datatype Codec =
    | MorphiaDateCodec
    | MorphiaMapCodec
    | MorphiaLocalDateTimeCodec
    | MorphiaLocalTimeCodec
    | ClassCodec
    | CenterCodec
    | HashMapCodec
    | KeyCodec
    | LocaleCodec
    | ObjectCodec
    | ShapeCodec
    | URICodec
    | ByteWrapperArrayCodec
    | LegacyQueryCodec
    | BitSetCodec
    | TypedArrayCodec(element: Class)
    | ArrayCodec(arrayClass: Class)

  /**
   * `codec.getEncoderClass()`. Only `HashMapCodec`'s is part of this model;
   * each other codec is taken to encode the class it is named after, and an
   * array codec the array class of its element.
   */
  function EncoderClass(codec: Codec): (c: Class)
    ensures IsAbstractMapSubtype(c) <==>
      codec == HashMapCodec || (codec.ArrayCodec? && IsAbstractMapSubtype(codec.arrayClass))
    ensures codec.TypedArrayCodec? ==> IsArray(c) && c.component == codec.element
    ensures codec == ByteWrapperArrayCodec ==> IsArray(c) && !ComponentIsByte(c)
  {
    match codec
    case MorphiaDateCodec => ReferenceClass(DateType)
    case MorphiaMapCodec => MapClass
    case MorphiaLocalDateTimeCodec => ReferenceClass(LocalDateTimeType)
    case MorphiaLocalTimeCodec => ReferenceClass(LocalTimeType)
    case ClassCodec => ReferenceClass(ClassType)
    case CenterCodec => ReferenceClass(CenterType)
    case HashMapCodec => HashMapClass
    case KeyCodec => ReferenceClass(KeyType)
    case LocaleCodec => ReferenceClass(LocaleType)
    case ObjectCodec => ReferenceClass(ObjectType)
    case ShapeCodec => ReferenceClass(ShapeType)
    case URICodec => ReferenceClass(UriType)
    case ByteWrapperArrayCodec => ArrayClass(ReferenceClass(ByteType))
    case LegacyQueryCodec => ReferenceClass(LegacyQueryType)
    case BitSetCodec => ReferenceClass(BitSetType)
    case TypedArrayCodec(element) => ArrayClass(element)
    case ArrayCodec(arrayClass) => arrayClass
  }

  /** The codecs the constructor registers one by one, in order. */
  const NamedCodecs: seq<Codec> := [
    MorphiaDateCodec, MorphiaMapCodec, MorphiaLocalDateTimeCodec, MorphiaLocalTimeCodec,
    ClassCodec, CenterCodec, HashMapCodec, KeyCodec, LocaleCodec, ObjectCodec, ShapeCodec,
    URICodec, ByteWrapperArrayCodec, LegacyQueryCodec, BitSetCodec]

  /** The element classes the constructor registers a typed-array codec for, in order. */
  const TypedArrayElements: seq<Class> := [
    PrimitiveClass(Boolean), ReferenceClass(BooleanType),
    PrimitiveClass(Char), ReferenceClass(CharacterType),
    PrimitiveClass(Double), ReferenceClass(DoubleType),
    PrimitiveClass(Float), ReferenceClass(FloatType),
    PrimitiveClass(Int), ReferenceClass(IntegerType),
    PrimitiveClass(Long), ReferenceClass(LongType),
    PrimitiveClass(Short), ReferenceClass(ShortType)]

  /** The typed-array codecs the constructor registers, one per element class, in order. */
  const TypedArrayCodecs: seq<Codec> :=
    seq(|TypedArrayElements|, i requires 0 <= i < |TypedArrayElements| => TypedArrayCodec(TypedArrayElements[i]))

  /** Every codec the constructor registers, in the order it registers them. */
  const DefaultCodecs: seq<Codec> := NamedCodecs + TypedArrayCodecs

  /** The default registrations after the first fifteen encode the array classes of the fourteen elements. */
  lemma TypedArrayCodecAt(l: nat)
    requires |NamedCodecs| <= l < |DefaultCodecs|
    ensures EncoderClass(DefaultCodecs[l]) == ArrayClass(TypedArrayElements[l - |NamedCodecs|])
  {
  }

  /**
   * The registry that `addCodec` builds from empty when called with `cs` in
   * order: each codec goes under its encoder class, replacing what was there.
   */
  function Registered(cs: seq<Codec>): (m: map<Class, Codec>)
    ensures forall c | c in m :: EncoderClass(m[c]) == c && m[c] in cs
  {
    if cs == [] then map[]
    else Registered(cs[..|cs| - 1])[EncoderClass(cs[|cs| - 1]) := cs[|cs| - 1]]
  }

  /** No element class is listed twice. */
  lemma TypedArrayElementsDistinct()
    ensures forall a, b | 0 <= a < b < |TypedArrayElements| :: TypedArrayElements[a] != TypedArrayElements[b]
  {
  }

  /**
   * Registering `second` under the encoder class of an earlier `first` leaves
   * the registry as if `first` had never been registered.
   */
  lemma LaterRegistrationWins(cs: seq<Codec>, first: Codec, second: Codec)
    requires EncoderClass(first) == EncoderClass(second)
    ensures Registered(cs + [first] + [second]) == Registered(cs + [second])
  {
  }

  /** A class no registration encodes stays out of the registry. */
  lemma NeverRegistered(cs: seq<Codec>, c: Class)
    requires forall l | 0 <= l < |cs| :: EncoderClass(cs[l]) != c
    ensures c !in Registered(cs)
  {
  }

  /** The last registration for an encoder class is the one the registry keeps. */
  lemma {:induction false} LastRegistrationWins(cs: seq<Codec>, j: nat)
    requires j < |cs|
    requires forall l | j < l < |cs| :: EncoderClass(cs[l]) != EncoderClass(cs[j])
    ensures EncoderClass(cs[j]) in Registered(cs)
    ensures Registered(cs)[EncoderClass(cs[j])] == cs[j]
    decreases |cs|
  {
    if j < |cs| - 1 {
      var init := cs[..|cs| - 1];
      assert forall l | j < l < |init| :: init[l] == cs[l];
      LastRegistrationWins(init, j);
    }
  }

  /** `codec` can serve `c`: it encodes `c` itself, or `c` is an `AbstractMap` subclass and it encodes `Map`. */
  predicate Handles(codec: Codec, c: Class)
  {
    EncoderClass(codec) == c || (IsAbstractMapSubtype(c) && EncoderClass(codec) == MapClass)
  }

  class MorphiaTypesCodecProvider {
    var codecs: map<Class, Codec>
    /** The codecs passed to `addCodec` so far, in order. */
    ghost var registered: seq<Codec>

    /** The registry holds what `addCodec` made of the registrations so far. */
    ghost predicate Valid()
      reads this
    {
      codecs == Registered(registered)
    }

    /** The provider as the constructor leaves it. */
    ghost predicate IsDefault()
      reads this
    {
      Valid() && registered == DefaultCodecs
    }

    constructor ()
      ensures IsDefault()
    {
      codecs, registered := map[], [];
      new;
      for i := 0 to |NamedCodecs|
        invariant Valid()
        invariant registered == NamedCodecs[..i]
      {
        AddCodec(NamedCodecs[i]);
        assert NamedCodecs[..i + 1] == NamedCodecs[..i] + [NamedCodecs[i]];
      }
      for i := 0 to |TypedArrayElements|
        invariant Valid()
        invariant registered == NamedCodecs + TypedArrayCodecs[..i]
      {
        AddCodec(TypedArrayCodec(TypedArrayElements[i]));
        assert TypedArrayCodecs[..i + 1] == TypedArrayCodecs[..i] + [TypedArrayCodecs[i]];
      }
      assert TypedArrayCodecs[..|TypedArrayElements|] == TypedArrayCodecs;
    }

    /** `addCodec`: registers `codec` under its encoder class, replacing any codec already there. */
    method AddCodec(codec: Codec)
      requires Valid()
      modifies this
      ensures Valid()
      ensures registered == old(registered) + [codec]
      ensures codecs == old(codecs)[EncoderClass(codec) := codec]
    {
      codecs := codecs[EncoderClass(codec) := codec];
      registered := registered + [codec];
      assert registered[..|registered| - 1] == old(registered);
    }

    /**
     * `get`: the registered codec; else, for an `AbstractMap` subclass, what
     * `get` gives for `Map`; else, for an array whose component is not `byte`,
     * a fresh array codec for that class; else nothing.
     */
    function Get(clazz: Class): (r: Option<Codec>)
      reads this
      ensures r.Some? <==>
        || clazz in codecs
        || (IsAbstractMapSubtype(clazz) && MapClass in codecs)
        || (IsArray(clazz) && !ComponentIsByte(clazz))
      ensures clazz in codecs ==> r == Some(codecs[clazz])
      decreases if IsAbstractMapSubtype(clazz) then 1 else 0
    {
      if clazz in codecs then Some(codecs[clazz])
      else if IsAbstractMapSubtype(clazz) then Get(MapClass)
      else if IsArray(clazz) && !ComponentIsByte(clazz) then Some(ArrayCodec(clazz))
      else None
    }

    lemma AbstractMapFallsBackToMap(clazz: Class)
      requires clazz !in codecs && IsAbstractMapSubtype(clazz)
      ensures Get(clazz) == Get(MapClass)
      ensures Get(clazz) == if MapClass in codecs then Some(codecs[MapClass]) else None
    {
    }

    lemma ArrayFallsBackToArrayCodec(clazz: Class)
      requires clazz !in codecs && IsArray(clazz) && !ComponentIsByte(clazz)
      ensures Get(clazz) == Some(ArrayCodec(clazz))
    {
    }

    lemma UnresolvedIsNull(clazz: Class)
      requires clazz !in codecs && !IsAbstractMapSubtype(clazz)
      requires !IsArray(clazz) || ComponentIsByte(clazz)
      ensures Get(clazz) == None
    {
    }

    /** Whatever `get` hands out can encode the class asked for. */
    lemma GetHandlesClass(clazz: Class)
      requires Valid()
      ensures Get(clazz).Some? ==> Handles(Get(clazz).value, clazz)
    {
    }

    /** After construction `HashMap` finds its own codec, not the `Map` codec of the fallback. */
    lemma HashMapRegisteredExplicitly()
      requires IsDefault()
      ensures Get(HashMapClass) == Some(HashMapCodec)
      ensures Get(MapClass) == Some(MorphiaMapCodec)
    {
      forall l | |NamedCodecs| <= l < |DefaultCodecs|
        ensures EncoderClass(DefaultCodecs[l]).ArrayClass?
      {
        TypedArrayCodecAt(l);
      }
      assert forall l | 1 < l < |NamedCodecs| :: EncoderClass(NamedCodecs[l]) != MapClass;
      assert forall l | 6 < l < |NamedCodecs| :: EncoderClass(NamedCodecs[l]) != HashMapClass;
      LastRegistrationWins(DefaultCodecs, 6);
      LastRegistrationWins(DefaultCodecs, 1);
    }

    /**
     * After construction an unregistered class that extends an `AbstractMap`
     * subtype, such as a user's own `HashMap` subclass, gets the `Map` codec.
     */
    lemma MapSubclassGetsMapCodec(clazz: Class, s: TypeName)
      requires IsDefault() && clazz !in codecs
      requires WellFormedClass(clazz) && clazz.ReferenceClass? && s in Supertypes(clazz.name)
      requires IsAbstractMapSubtype(ReferenceClass(s))
      ensures Get(clazz) == Some(MorphiaMapCodec)
    {
      AbstractMapSubtypeInherited(clazz, s);
      HashMapRegisteredExplicitly();
    }

    /** After construction each of the fourteen element classes has its typed-array codec. */
    lemma TypedArraysRegistered(i: nat)
      requires IsDefault() && i < |TypedArrayElements|
      ensures Get(ArrayClass(TypedArrayElements[i])) == Some(TypedArrayCodec(TypedArrayElements[i]))
    {
      TypedArrayElementsDistinct();
      forall l | |NamedCodecs| + i < l < |DefaultCodecs|
        ensures EncoderClass(DefaultCodecs[l]) != ArrayClass(TypedArrayElements[i])
      {
        TypedArrayCodecAt(l);
      }
      TypedArrayCodecAt(|NamedCodecs| + i);
      LastRegistrationWins(DefaultCodecs, |NamedCodecs| + i);
    }

    /** After construction `byte[]` is not handled: it is neither registered nor a fallback case. */
    lemma ByteArrayUnresolved()
      requires IsDefault()
      ensures Get(ByteArrayClass) == None
    {
      forall l | |NamedCodecs| <= l < |DefaultCodecs|
        ensures EncoderClass(DefaultCodecs[l]) != ByteArrayClass
      {
        TypedArrayCodecAt(l);
      }
      assert forall l | 0 <= l < |NamedCodecs| :: EncoderClass(NamedCodecs[l]) != ByteArrayClass;
      NeverRegistered(DefaultCodecs, ByteArrayClass);
    }
  }
}
