/** The decoding primitives the entities' synthesized `Decodable`
    conformances are built from, with the platform JSON decoder's rules:
    a required key that is missing is `KeyNotFound`; `null` where a value is
    needed is `ValueNotFound`; a JSON value of the wrong kind is
    `TypeMismatch`; a value of the right kind the target type cannot hold
    (an enum literal outside its set, a number that is not a 64-bit `Int`)
    is `DataCorrupted`. Every error carries the coding path to the
    offending value. */
module Decoding {
  import opened Common
  import opened Json

  datatype ErrorKind = KeyNotFound | ValueNotFound | TypeMismatch | DataCorrupted

  /** One step of a coding path: an object key or an array position. */
  datatype PathItem = Key(name: string) | Index(position: nat)

  datatype DecodeError = DecodeError(kind: ErrorKind, path: seq<PathItem>)

  type Decoder<T> = Json -> Result<T, DecodeError>

  /** The error for a value of the wrong kind: `null` is reported as a
      missing value, anything else as a type mismatch. */
  function Mismatch<T>(j: Json): (r: Result<T, DecodeError>)
    ensures r.Failure? && r.error.path == []
    ensures r.error.kind == (if j.JNull? then ValueNotFound else TypeMismatch)
  {
    Failure(DecodeError(if j.JNull? then ValueNotFound else TypeMismatch, []))
  }

  /** Re-reports a nested decode under one more coding-path step. */
  function Within<T>(item: PathItem, r: Result<T, DecodeError>): (r': Result<T, DecodeError>)
    ensures r'.Success? <==> r.Success?
    ensures r.Success? ==> r'.value == r.value
    ensures r.Failure? ==> r'.error.kind == r.error.kind && r'.error.path == [item] + r.error.path
  {
    match r
    case Success(v) => Success(v)
    case Failure(e) => Failure(DecodeError(e.kind, [item] + e.path))
  }

  // Leaf values

  function DecodeString(j: Json): (r: Result<string, DecodeError>)
    ensures r.Success? <==> j.JString?
    ensures r.Success? ==> j == JString(r.value)
    ensures r.Failure? ==> r.error.kind in {ValueNotFound, TypeMismatch}
  {
    if j.JString? then Success(j.s) else Mismatch(j)
  }

  function DecodeBool(j: Json): (r: Result<bool, DecodeError>)
    ensures r.Success? <==> j.JBool?
    ensures r.Success? ==> j == JBool(r.value)
  {
    if j.JBool? then Success(j.b) else Mismatch(j)
  }

  /** A 64-bit `Int`: only a number with an integral value that fits; any
      other number is `DataCorrupted` ("does not fit in Int"). */
  function DecodeInt(j: Json): (r: Result<Int64, DecodeError>)
    ensures r.Success? <==> j.JNum? && j.n.Integral? && Int64Min <= j.n.i <= Int64Max
    ensures r.Success? ==> j == JNum(Integral(r.value))
    ensures j.JNum? && r.Failure? ==> r.error.kind == DataCorrupted
  {
    if !j.JNum? then Mismatch(j)
    else if j.n.Integral? && Int64Min <= j.n.i <= Int64Max then Success(j.n.i)
    else Failure(DecodeError(DataCorrupted, []))
  }

  /** A floating-point field (`Float`, `TimeInterval`): any JSON number,
      kept opaque. */
  function DecodeNumber(j: Json): (r: Result<Number, DecodeError>)
    ensures r.Success? <==> j.JNum?
    ensures r.Success? ==> j == JNum(r.value)
  {
    if j.JNum? then Success(j.n) else Mismatch(j)
  }

  // Containers

  /** Opens a keyed container: only an object has one. */
  function KeyedContainer(j: Json): (r: Result<map<string, Json>, DecodeError>)
    ensures r.Success? <==> j.JObject?
    ensures r.Success? ==> j == JObject(r.value)
  {
    if j.JObject? then Success(j.fields) else Mismatch(j)
  }

  /** Decodes `items` in order, all or nothing; `offset` is the position of
      `items[0]` in the enclosing array, for the coding path. The first
      element that fails is the one reported (`DecodeItemsFirstFailure`). */
  function DecodeItems<T>(items: seq<Json>, elem: Decoder<T>, offset: nat): (r: Result<seq<T>, DecodeError>)
    ensures r.Success? <==> forall i :: 0 <= i < |items| ==> elem(items[i]).Success?
    ensures r.Success? ==> |r.value| == |items|
    ensures r.Success? ==> forall i :: 0 <= i < |items| ==> elem(items[i]) == Success(r.value[i])
    decreases |items|
  {
    if items == [] then Success([])
    else
      var head :- Within(Index(offset), elem(items[0]));
      var tail :- DecodeItems(items[1..], elem, offset + 1);
      assert forall i :: 1 <= i < |items| ==> items[i] == items[1..][i - 1];
      Success([head] + tail)
  }

  /** Element `i` is the first of `items` that fails to decode. */
  ghost predicate FirstFailure<T>(items: seq<Json>, elem: Decoder<T>, i: nat)
    requires i < |items|
  {
    && elem(items[i]).Failure?
    && forall k :: 0 <= k < i ==> elem(items[k]).Success?
  }

  /** The element an array decode reports is the first one that fails. */
  lemma {:induction false} DecodeItemsFirstFailure<T>(items: seq<Json>, elem: Decoder<T>, offset: nat, i: nat)
    requires i < |items| && FirstFailure(items, elem, i)
    ensures DecodeItems(items, elem, offset)
         == Failure(DecodeError(elem(items[i]).error.kind, [Index(offset + i)] + elem(items[i]).error.path))
    decreases i
  {
    if i > 0 {
      var rest := items[1..];
      assert rest[i - 1] == items[i];
      forall k | 0 <= k < i - 1
        ensures elem(rest[k]).Success?
      {
        assert rest[k] == items[k + 1];
      }
      assert FirstFailure(rest, elem, i - 1);
      DecodeItemsFirstFailure(rest, elem, offset + 1, i - 1);
      assert elem(items[0]).Success?;
    }
  }

  /** An array of `T` (unkeyed container). */
  function DecodeArray<T>(j: Json, elem: Decoder<T>): (r: Result<seq<T>, DecodeError>)
    ensures r.Success? <==> j.JArray? && forall i :: 0 <= i < |j.items| ==> elem(j.items[i]).Success?
    ensures r.Success? ==> |r.value| == |j.items|
    ensures r.Success? ==> forall i :: 0 <= i < |j.items| ==> elem(j.items[i]) == Success(r.value[i])
  {
    if j.JArray? then DecodeItems(j.items, elem, 0) else Mismatch(j)
  }

  function DecodeStringArray(j: Json): (r: Result<seq<string>, DecodeError>)
    ensures r.Success? <==> j.JArray? && forall i :: 0 <= i < |j.items| ==> j.items[i].JString?
    ensures r.Success? ==> |r.value| == |j.items| && forall i :: 0 <= i < |j.items| ==> j.items[i] == JString(r.value[i])
  {
    DecodeArray(j, DecodeString)
  }

  /** A `[String: String]` dictionary: an object whose every value is a
      string. Each entry is decoded as a required `String`, so a `null`
      entry is `ValueNotFound` and any other non-string is `TypeMismatch`;
      when both kinds of bad entry occur, the `null` one is reported. A
      bad entry is reported at the dictionary itself. */
  function DecodeStringMap(j: Json): (r: Result<map<string, string>, DecodeError>)
    ensures r.Success? <==> j.JObject? && forall k :: k in j.fields ==> j.fields[k].JString?
    ensures r.Success? ==> r.value.Keys == j.fields.Keys
    ensures r.Success? ==> forall k :: k in r.value ==> j.fields[k] == JString(r.value[k])
    ensures j.JObject? && r.Failure? ==>
      (r.error.kind == ValueNotFound <==> exists k :: k in j.fields && j.fields[k] == JNull)
    ensures r.Failure? ==> r.error.kind in {ValueNotFound, TypeMismatch}
  {
    if !j.JObject? then Mismatch(j)
    else if forall k :: k in j.fields ==> j.fields[k].JString? then
      Success(map k | k in j.fields :: j.fields[k].s)
    else if exists k :: k in j.fields && j.fields[k] == JNull then Failure(DecodeError(ValueNotFound, []))
    else Failure(DecodeError(TypeMismatch, []))
  }

  // Fields of a keyed container

  /** `decode(_:forKey:)`: the key must be present and its value decode. */
  function Required<T>(o: map<string, Json>, key: string, dec: Decoder<T>): (r: Result<T, DecodeError>)
    ensures r.Success? <==> key in o && dec(o[key]).Success?
    ensures r.Success? ==> r.value == dec(o[key]).value
    ensures key !in o ==> r == Failure(DecodeError(KeyNotFound, [Key(key)]))
    ensures key in o && r.Failure? ==>
      r.error == DecodeError(dec(o[key]).error.kind, [Key(key)] + dec(o[key]).error.path)
  {
    if key !in o then Failure(DecodeError(KeyNotFound, [Key(key)]))
    else Within(Key(key), dec(o[key]))
  }

  /** `decodeIfPresent(_:forKey:)`: a missing key or `null` gives `None`;
      any other value must decode. */
  function Optional<T>(o: map<string, Json>, key: string, dec: Decoder<T>): (r: Result<Option<T>, DecodeError>)
    ensures key !in o || o[key] == JNull ==> r == Success(None)
    ensures key in o && o[key] != JNull ==>
      && (r.Success? <==> dec(o[key]).Success?)
      && (r.Success? ==> r.value == Some(dec(o[key]).value))
  {
    if key !in o || o[key] == JNull then Success(None)
    else
      var v :- Within(Key(key), dec(o[key]));
      Success(Some(v))
  }
}
