/**
 * A JSON value and the keyed-container operations of Swift's `Decodable`
 * protocol that the hand-written decoders use: a nested keyed container,
 * `decodeIfPresent`, and the single-value conversions to `String`,
 * `Double`, `Int`, `Bool` and `[String]`.
 *
 * Conversions are strict: a JSON string never decodes as a number, a
 * number never as a Bool. An `Int` must be an integral number inside the
 * 64-bit range.
 */
module Json {
  import opened Wrappers

  /** A JSON value; a number is an exact real, an object maps each key to its value. */
  datatype Json =
    | Null
    | Bool(b: bool)
    | Num(n: real)
    | Str(s: string)
    | Arr(items: seq<Json>)
    | Obj(fields: map<string, Json>)

  /** Why a decode failed, and at which key (`""` for the value itself). */
  datatype DecodingError =
    | KeyNotFound(key: string)
    | TypeMismatch(key: string)

  const IntMin: int := -0x8000_0000_0000_0000
  const IntMax: int := 0x7FFF_FFFF_FFFF_FFFF

  function AsString(j: Json): (r: Option<string>)
    ensures r.Some? <==> j.Str?
    ensures r.Some? ==> j == Str(r.value)
  {
    if j.Str? then Some(j.s) else None
  }

  function AsBool(j: Json): (r: Option<bool>)
    ensures r.Some? <==> j.Bool?
    ensures r.Some? ==> j == Bool(r.value)
  {
    if j.Bool? then Some(j.b) else None
  }

  function AsDouble(j: Json): (r: Option<real>)
    ensures r.Some? <==> j.Num?
    ensures r.Some? ==> j == Num(r.value)
  {
    if j.Num? then Some(j.n) else None
  }

  /** A 64-bit `Int`: the number must be integral and in range. */
  function AsInt(j: Json): (r: Option<int>)
    ensures r.Some? <==> j.Num? && j.n == j.n.Floor as real && IntMin <= j.n.Floor <= IntMax
    ensures r.Some? ==> j == Num(r.value as real) && IntMin <= r.value <= IntMax
  {
    if j.Num? && j.n == j.n.Floor as real && IntMin <= j.n.Floor <= IntMax then Some(j.n.Floor) else None
  }

  /** The strings of a list of JSON values, if every one of them is a string. */
  function Strings(items: seq<Json>): (r: Option<seq<string>>)
    ensures r.Some? <==> forall i :: 0 <= i < |items| ==> items[i].Str?
    ensures r.Some? ==> |r.value| == |items| && forall i :: 0 <= i < |items| ==> items[i] == Str(r.value[i])
  {
    if items == [] then Some([])
    else if !items[0].Str? then None
    else
      match Strings(items[1..])
      case None => None
      case Some(rest) => Some([items[0].s] + rest)
  }

  /** A `[String]`: an array whose every element is a string. */
  function AsStringArray(j: Json): (r: Option<seq<string>>)
    ensures r.Some? <==> j.Arr? && forall i :: 0 <= i < |j.items| ==> j.items[i].Str?
    ensures r.Some? ==> |r.value| == |j.items| && forall i :: 0 <= i < |j.items| ==> j.items[i] == Str(r.value[i])
  {
    if j.Arr? then Strings(j.items) else None
  }

  /** `nestedContainer(forKey:)`: the key must be present and hold an object. */
  function NestedObject(obj: map<string, Json>, key: string): (r: Result<map<string, Json>, DecodingError>)
    ensures r.Success? <==> key in obj && obj[key].Obj?
    ensures r.Success? ==> obj[key] == Obj(r.value)
    ensures key !in obj ==> r == Failure(KeyNotFound(key))
  {
    if key !in obj then Failure(KeyNotFound(key))
    else if obj[key].Obj? then Success(obj[key].fields)
    else Failure(TypeMismatch(key))
  }

  /** Whether `decodeIfPresent` succeeds on `key`: absent, null, or of the expected type. */
  predicate Fits<T>(obj: map<string, Json>, key: string, cast: Json -> Option<T>) {
    key !in obj || obj[key].Null? || cast(obj[key]).Some?
  }

  /** What `decodeIfPresent` yields when it succeeds. */
  function Present<T>(obj: map<string, Json>, key: string, cast: Json -> Option<T>): (r: Option<T>)
    ensures r.Some? <==> key in obj && !obj[key].Null? && cast(obj[key]).Some?
    ensures r.Some? ==> r == cast(obj[key])
  {
    if key in obj && !obj[key].Null? then cast(obj[key]) else None
  }

  /**
   * `decodeIfPresent`: an absent key or a null value gives `None`, a value
   * of the expected type gives it, any other value fails with a type
   * mismatch at that key.
   */
  function DecodeIfPresent<T>(obj: map<string, Json>, key: string, cast: Json -> Option<T>)
    : (r: Result<Option<T>, DecodingError>)
    ensures r.Success? <==> Fits(obj, key, cast)
    ensures r.Success? ==> r.value == Present(obj, key, cast)
    ensures r.Failure? ==> r.error == TypeMismatch(key)
    ensures key !in obj ==> r == Success(None)
  {
    if key !in obj || obj[key].Null? then Success(None)
    else
      match cast(obj[key])
      case Some(v) => Success(Some(v))
      case None => Failure(TypeMismatch(key))
  }
}
