/**
 * The JavaScript values the server code handles (filter objects, bound query
 * parameters, cached payloads, table rows), with the conversions it relies on:
 * truthiness, property access, `String(v)` and `Array.prototype.join`.
 * Numbers are integers; floating point and NaN are not modelled.
 */
module Js {

  datatype Value =
    | Undefined
    | Null
    | Bool(b: bool)
    | Num(n: int)
    | Str(s: string)
    | Arr(items: seq<Value>)
    /** A plain object; its fields in JavaScript's own-property order. */
    | Obj(fields: seq<(string, Value)>)

  /** The exceptions (and rejected promises) the modelled code can raise. */
  datatype Error =
    | TypeError           // e.g. `x.map is not a function`, `Object.entries(null)`
    | DatabaseQueryError  // the "Database Query Error" thrown by QueryBuilder.query
    | ConnectionError     // a Redis command sent while the server is unreachable
    | WrongType           // the Redis WRONGTYPE reply
    | InvalidExpireTime   // the Redis reply to `SET ... EX n` / `PX n` with n <= 0
    | WrongArity          // the Redis reply "wrong number of arguments", e.g. to an MGET of no keys
    | DecodeError         // a payload that is neither MessagePack nor JSON
    | LockStillHeld       // the lock wrapper is still waiting when the modelled pauses end

  datatype Result<T> = Ok(value: T) | Err(error: Error)

  datatype Option<T> = None | Some(value: T)

  /** JavaScript truthiness: what `if (v)` tests. */
  predicate Truthy(v: Value) {
    match v
    case Undefined => false
    case Null => false
    case Bool(b) => b
    case Num(n) => n != 0
    case Str(s) => s != ""
    case Arr(_) => true
    case Obj(_) => true
  }

  /** `typeof v === "object" && v !== null` */
  predicate IsObject(v: Value) {
    v.Arr? || v.Obj?
  }

  /** The value of the first field called `name`, or `undefined`. */
  function Lookup(fields: seq<(string, Value)>, name: string): Value {
    if fields == [] then Undefined
    else if fields[0].0 == name then fields[0].1
    else Lookup(fields[1..], name)
  }

  /** `v[name]` for a non-index property name (arrays and primitives have none of those used here). */
  function Prop(v: Value, name: string): Value {
    if v.Obj? then Lookup(v.fields, name) else Undefined
  }

  /** `v[k]` */
  function At(v: Value, k: nat): Value {
    match v
    case Arr(items) => if k < |items| then items[k] else Undefined
    case Str(s) => if k < |s| then Str([s[k]]) else Undefined
    case Obj(fields) => Lookup(fields, NatToString(k))
    case _ => Undefined
  }

  predicate IsDigit(c: char) {
    '0' <= c <= '9'
  }

  function DigitChar(d: nat): (c: char)
    requires d < 10
    ensures IsDigit(c)
  {
    "0123456789"[d]
  }

  /** Decimal notation of a natural number, as `String(n)` writes it. */
  function NatToString(n: nat): (s: string)
    ensures s != []
    ensures forall k :: 0 <= k < |s| ==> IsDigit(s[k])
  {
    if n < 10 then [DigitChar(n)] else NatToString(n / 10) + [DigitChar(n % 10)]
  }

  function IntToString(i: int): (s: string)
    ensures forall k :: 0 <= k < |s| ==> IsDigit(s[k]) || s[k] == '-'
  {
    if i < 0 then "-" + NatToString(-i) else NatToString(i)
  }

  /** The decimal text of the first few numbers, which the worked examples use. */
  lemma SmallNumerals()
    ensures IntToString(1) == "1" && IntToString(2) == "2" && IntToString(3) == "3"
  {
  }

  /** `parts.join(sep)` */
  function JoinStr(parts: seq<string>, sep: string): string {
    if |parts| == 0 then ""
    else if |parts| == 1 then parts[0]
    else parts[0] + sep + JoinStr(parts[1..], sep)
  }

  /** `String(v)`, which is also what a template literal `${v}` inserts. */
  function ToStr(v: Value): string
    decreases v
  {
    match v
    case Undefined => "undefined"
    case Null => "null"
    case Bool(b) => if b then "true" else "false"
    case Num(n) => IntToString(n)
    case Str(s) => s
    // Array.prototype.join writes null and undefined elements as ""
    case Arr(items) =>
      JoinStr(seq(|items|, k requires 0 <= k < |items| =>
                    if items[k].Undefined? || items[k].Null? then "" else ToStr(items[k])), ",")
    case Obj(_) => "[object Object]"
  }

  /** How `Array.prototype.join` writes one element. */
  function JoinElement(v: Value): string {
    if v.Undefined? || v.Null? then "" else ToStr(v)
  }

  /** The number of occurrences of `c` in `s`; `s.split(c).length - 1` for a one-character `c`. */
  function CountChar(s: string, c: char): nat {
    if s == [] then 0 else (if s[0] == c then 1 else 0) + CountChar(s[1..], c)
  }

  lemma {:induction false} CountCharAppend(a: string, b: string, c: char)
    ensures CountChar(a + b, c) == CountChar(a, c) + CountChar(b, c)
  {
    if a == [] {
      assert a + b == b;
    } else {
      assert (a + b)[1..] == a[1..] + b;
      CountCharAppend(a[1..], b, c);
    }
  }

  lemma {:induction false} CountCharAbsent(s: string, c: char)
    requires forall k :: 0 <= k < |s| ==> s[k] != c
    ensures CountChar(s, c) == 0
  {
    if s != [] {
      CountCharAbsent(s[1..], c);
    }
  }

  /** Splitting a string at every occurrence of `c`: `s.split(c)`. */
  function SplitOn(s: string, c: char): (parts: seq<string>)
    ensures |parts| >= 1
  {
    if s == [] then [""]
    else
      var rest := SplitOn(s[1..], c);
      if s[0] == c then [""] + rest else [[s[0]] + rest[0]] + rest[1..]
  }

  /** `s.split(c).length - 1` counts the occurrences of `c` in `s`. */
  lemma {:induction false} SplitCount(s: string, c: char)
    ensures |SplitOn(s, c)| - 1 == CountChar(s, c)
  {
    if s != [] {
      SplitCount(s[1..], c);
    }
  }

  lemma {:induction false} SplitOnNoSeparator(s: string, c: char)
    requires forall k :: 0 <= k < |s| ==> s[k] != c
    ensures SplitOn(s, c) == [s]
  {
    if s != [] {
      SplitOnNoSeparator(s[1..], c);
      assert [s[0]] + s[1..] == s;
    }
  }

  lemma {:induction false} SplitOnAppend(a: string, b: string, c: char)
    requires forall k :: 0 <= k < |a| ==> a[k] != c
    ensures SplitOn(a + [c] + b, c) == [a] + SplitOn(b, c)
  {
    if a == [] {
      assert a + [c] + b == [c] + b;
      assert ([c] + b)[1..] == b;
    } else {
      assert (a + [c] + b)[1..] == a[1..] + [c] + b;
      SplitOnAppend(a[1..], b, c);
      assert [a[0]] + a[1..] == a;
    }
  }

  /** `JoinStr` and `SplitOn` are inverse when no part holds the one-character separator. */
  lemma {:induction false} SplitJoin(parts: seq<string>, c: char)
    requires |parts| >= 1
    requires forall i, k :: 0 <= i < |parts| && 0 <= k < |parts[i]| ==> parts[i][k] != c
    ensures SplitOn(JoinStr(parts, [c]), c) == parts
  {
    if |parts| == 1 {
      SplitOnNoSeparator(parts[0], c);
    } else {
      SplitJoin(parts[1..], c);
      SplitOnAppend(parts[0], JoinStr(parts[1..], [c]), c);
      assert [parts[0]] + parts[1..] == parts;
    }
  }
}
