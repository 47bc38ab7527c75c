/**
 * JSON as an abstract value tree, with the two halves of Go's encoding/json that the
 * client relies on: struct fields tagged `omitempty` are left out of an object when they
 * hold their zero value, and decoding an object into a struct walks its members left to
 * right, ignoring unknown keys, letting `null` keep the field's current value and letting
 * a later duplicate key overwrite an earlier one.
 */
module Json {
  import opened Wrappers

  /** Go's int64 (and Go's int on the 64-bit platforms the client targets). */
  type Int64 = x: int | -0x8000_0000_0000_0000 <= x < 0x8000_0000_0000_0000

  /** A byte of raw JSON text (json.RawMessage). */
  type Byte = b: int | 0 <= b < 256

  datatype Value =
    | Null
    | Bool(b: bool)
    | Number(n: int)
    | String(s: string)
    | Array(items: seq<Value>)
    | Object(members: seq<Member>)

  datatype Member = Member(key: string, value: Value)

  /** The JSON images of the Go zero values that `omitempty` drops. */
  predicate IsEmptyValue(v: Value) {
    match v
    case Null => true
    case Bool(b) => !b
    case Number(n) => n == 0
    case String(s) => s == ""
    case Array(items) => items == []
    case Object(_) => false
  }

  /** Every member holds a non-empty value. */
  predicate NoEmptyMembers(ms: seq<Member>) {
    forall m | m in ms :: !IsEmptyValue(m.value)
  }

  /** Puts a member in front of `rest` when `present`, as encoding/json does for one struct field. */
  function PutIf(present: bool, key: string, v: Value, rest: seq<Member>): seq<Member> {
    if present then [Member(key, v)] + rest else rest
  }

  /** One `omitempty` field: the member is left out when its value is the zero value. */
  function Put(key: string, v: Value, rest: seq<Member>): seq<Member> {
    PutIf(!IsEmptyValue(v), key, v, rest)
  }

  /** The value stored under the first member named `key`, if any. */
  function Lookup(ms: seq<Member>, key: string): Option<Value> {
    if ms == [] then None
    else if ms[0].key == key then Some(ms[0].value)
    else Lookup(ms[1..], key)
  }

  // Decoders for one struct field: `prior` is the field's value before this member.

  function DecodeString(field: string, v: Value, prior: string): Result<string> {
    match v
    case Null => Success(prior)
    case String(s) => Success(s)
    case _ => Failure(UnmarshalTypeError(field))
  }

  function DecodeBool(field: string, v: Value, prior: bool): Result<bool> {
    match v
    case Null => Success(prior)
    case Bool(b) => Success(b)
    case _ => Failure(UnmarshalTypeError(field))
  }

  function DecodeInt64(field: string, v: Value, prior: Int64): Result<Int64> {
    match v
    case Null => Success(prior)
    case Number(n) =>
      if -0x8000_0000_0000_0000 <= n < 0x8000_0000_0000_0000 then Success(n)
      else Failure(UnmarshalTypeError(field))
    case _ => Failure(UnmarshalTypeError(field))
  }

  /** Decodes the members of an object into a struct, one member at a time. */
  function DecodeMembers<T>(acc: T, ms: seq<Member>, step: (T, Member) -> Result<T>): Result<T>
    decreases |ms|
  {
    if ms == [] then Success(acc)
    else
      match step(acc, ms[0])
      case Failure(e) => Failure(e)
      case Success(next) => DecodeMembers(next, ms[1..], step)
  }

  /** Decoding past one put member: it either was left out or its step produced `next`. */
  lemma DecodePutIf<T>(acc: T, present: bool, key: string, v: Value, rest: seq<Member>, step: (T, Member) -> Result<T>, next: T)
    requires !present ==> next == acc
    requires present ==> step(acc, Member(key, v)) == Success(next)
    ensures DecodeMembers(acc, PutIf(present, key, v, rest), step) == DecodeMembers(next, rest, step)
  {
  }

  /** Looking past one put member. */
  lemma LookupPutIf(present: bool, key: string, v: Value, rest: seq<Member>, k: string)
    ensures Lookup(PutIf(present, key, v, rest), k) == if present && k == key then Some(v) else Lookup(rest, k)
  {
  }
}
