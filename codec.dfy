/**
 * The cache payload codec (`serialize` / `deserialize`): values are written to
 * the store as MessagePack and read back with `decode`. The byte layout is not
 * modelled; a payload records the value MessagePack can reproduce. MessagePack
 * has no `undefined`: it is written as `nil` and read back as `null`, at any
 * depth. The only bytes in the store that did not come from `serialize` are the
 * lock wrapper's marker string "locked", which neither MessagePack nor JSON
 * accepts.
 */
module Codec {
  import opened Js

  datatype Payload =
    | Packed(v: Value)  // bytes written by `serialize`
    | LockToken         // the raw string "locked" written by the lock wrapper

  /** What MessagePack can represent: `undefined` becomes `null` everywhere. */
  function Normalize(v: Value): (r: Value)
    ensures Truthy(r) == Truthy(v)
    decreases v
  {
    match v
    case Undefined => Null
    case Arr(items) => Arr(seq(|items|, k requires 0 <= k < |items| => Normalize(items[k])))
    case Obj(fields) =>
      Obj(seq(|fields|, k requires 0 <= k < |fields| => (fields[k].0, Normalize(fields[k].1))))
    case _ => v
  }

  /** `v` holds no `undefined` at any depth. */
  predicate Defined(v: Value)
    decreases v
  {
    match v
    case Undefined => false
    case Arr(items) => forall k :: 0 <= k < |items| ==> Defined(items[k])
    case Obj(fields) => forall k :: 0 <= k < |fields| ==> Defined(fields[k].1)
    case _ => true
  }

  /**
   * `serialize`. A `Value` holds no function, so MessagePack accepts every value
   * of this type and the JSON fallback is not modelled.
   */
  function Serialize(v: Value): (p: Payload)
    ensures Deserialize(p) == Ok(Normalize(v))
  {
    Packed(Normalize(v))
  }

  /** `deserialize`: MessagePack, then JSON, and otherwise the decoder's exception. */
  function Deserialize(p: Payload): (r: Result<Value>)
    ensures r.Ok? <==> p.Packed?
  {
    match p
    case Packed(v) => Ok(v)
    case LockToken => Err(DecodeError)
  }

  /** Whatever comes back from the codec has no `undefined` in it. */
  lemma {:induction false} NormalizeDefined(v: Value)
    ensures Defined(Normalize(v))
    decreases v
  {
    match v
    case Arr(items) =>
      forall k | 0 <= k < |items| {
        NormalizeDefined(items[k]);
      }
    case Obj(fields) =>
      forall k | 0 <= k < |fields| {
        NormalizeDefined(fields[k].1);
      }
    case _ =>
  }

  /** A value without `undefined` survives the round trip unchanged. */
  lemma {:induction false} NormalizeKeeps(v: Value)
    requires Defined(v)
    ensures Normalize(v) == v
    decreases v
  {
    match v
    case Arr(items) =>
      forall k | 0 <= k < |items| {
        NormalizeKeeps(items[k]);
      }
      assert Normalize(v).items == items;
    case Obj(fields) =>
      forall k | 0 <= k < |fields| {
        NormalizeKeeps(fields[k].1);
      }
      assert Normalize(v).fields == fields;
    case _ =>
  }

  /** Writing back a value read from the cache stores the same payload. */
  lemma NormalizeIdempotent(v: Value)
    ensures Normalize(Normalize(v)) == Normalize(v)
  {
    NormalizeDefined(v);
    NormalizeKeeps(Normalize(v));
  }
}
