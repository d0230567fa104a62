/** The pieces of JavaScript semantics the services rely on: absent properties
    (`undefined`), numbers that can become NaN, JSON values, truthiness tests,
    and the built-in array and string helpers `find`, `filter`, `every`,
    `includes` and `toLowerCase`. */
module Js {

  /** `None` is a property that is absent (`undefined`). */
  datatype Option<+T> = None | Some(value: T)

  /** An error object; `TimeoutError` is the distinct class thrown by a timer race. */
  datatype Error = Error(message: string) | TimeoutError(message: string)

  /** How a call or an awaited promise ends: with a value, or by throwing. */
  datatype Settled<+T> = Resolved(value: T) | Rejected(error: Error)

  /** How a call through a circuit breaker that has a fallback ends: the
      guarded function's value, the fallback's value, or a thrown error. Which
      one happens is decided by the breaker library and the network. */
  datatype Guarded<+T> = Replied(value: T) | FellBack | Threw(error: Error)

  /** The promise `breaker.fire(...)` returns, given the fallback's value. */
  function Fire<T>(g: Guarded<T>, fallback: T): (s: Settled<T>)
    ensures s.Rejected? <==> g.Threw?
    ensures g.Replied? ==> s == Resolved(g.value)
    ensures g.FellBack? ==> s == Resolved(fallback)
  {
    match g
    case Replied(v) => Resolved(v)
    case FellBack => Resolved(fallback)
    case Threw(e) => Rejected(e)
  }

  /** A JavaScript number. The model keeps integers, and NaN for the results of
      arithmetic on `undefined`. */
  datatype Num = Int(i: int) | NaN

  function Add(a: Num, b: Num): (r: Num)
    ensures r.Int? <==> a.Int? && b.Int?
    ensures r.Int? ==> r.i == a.i + b.i
  {
    if a.Int? && b.Int? then Int(a.i + b.i) else NaN
  }

  /** `x * y` where either operand may be `undefined` (which converts to NaN). */
  function Mul(a: Option<int>, b: Option<int>): (r: Num)
    ensures r.Int? <==> a.Some? && b.Some?
    ensures r.Int? ==> r.i == a.value * b.value
  {
    if a.Some? && b.Some? then Int(a.value * b.value) else NaN
  }

  /** A JSON value as it crosses the wire. JSON has no NaN: it serialises as null. */
  datatype Json =
    | JNull
    | JBool(b: bool)
    | JNum(n: int)
    | JStr(s: string)
    | JArr(elems: seq<Json>)
    | JObj(fields: map<string, Json>)

  /** `JSON.stringify` of a number. */
  function Serialize(n: Num): (j: Json)
    ensures j == JNull <==> n.NaN?
  {
    if n.Int? then JNum(n.i) else JNull
  }

  /** JavaScript truthiness of a property that may be absent. */
  predicate Truthy(v: Option<Json>)
  {
    match v
    case None => false
    case Some(j) =>
      match j
      case JNull => false
      case JBool(b) => b
      case JNum(n) => n != 0
      case JStr(s) => s != ""
      case JArr(_) => true
      case JObj(_) => true
  }

  /** Truthiness of a property known to be a string when present. */
  predicate TruthyString(s: Option<string>)
  {
    s.Some? && s.value != ""
  }

  /** Truthiness of a property known to be a number when present. */
  predicate TruthyInt(n: Option<int>)
  {
    n.Some? && n.value != 0
  }

  /** A property read `obj.key`; values that are not objects have none of these properties. */
  function Field(obj: Json, key: string): (r: Option<Json>)
    ensures r.Some? <==> obj.JObj? && key in obj.fields
    ensures r.Some? ==> r.value == obj.fields[key]
  {
    if obj.JObj? && key in obj.fields then Some(obj.fields[key]) else None
  }

  /** The index `Array.prototype.find` stops at: the first element satisfying `p`. */
  function FirstIndex<T>(s: seq<T>, p: T -> bool): (r: Option<nat>)
    ensures r.Some? ==> r.value < |s| && p(s[r.value])
    ensures r.Some? ==> forall j :: 0 <= j < r.value ==> !p(s[j])
    ensures r.None? <==> forall j :: 0 <= j < |s| ==> !p(s[j])
  {
    if s == [] then None
    else if p(s[0]) then Some(0)
    else
      match FirstIndex(s[1..], p)
      case None => None
      case Some(i) => Some(i + 1)
  }

  /** `Array.prototype.filter`. */
  function Filter<T>(s: seq<T>, p: T -> bool): (r: seq<T>)
    ensures |r| <= |s|
    ensures forall k :: 0 <= k < |r| ==> r[k] in s && p(r[k])
    ensures forall k :: 0 <= k < |s| && p(s[k]) ==> s[k] in r
  {
    if s == [] then []
    else if p(s[0]) then [s[0]] + Filter(s[1..], p)
    else Filter(s[1..], p)
  }

  /** `filter` keeps each element that passes as many times as it occurs,
      and drops every other. */
  lemma {:induction false} FilterCount<T(!new)>(s: seq<T>, p: T -> bool)
    ensures forall x :: multiset(Filter(s, p))[x] == if p(x) then multiset(s)[x] else 0
  {
    if s != [] {
      assert s == [s[0]] + s[1..];
      FilterCount(s[1..], p);
    }
  }

  /** `filter` keeps the order of the elements it keeps: filtering a
      concatenation concatenates the filtered parts. */
  lemma {:induction false} FilterAppend<T(!new)>(a: seq<T>, b: seq<T>, p: T -> bool)
    ensures Filter(a + b, p) == Filter(a, p) + Filter(b, p)
  {
    if a != [] {
      var head := if p(a[0]) then [a[0]] else [];
      assert (a + b)[0] == a[0] && (a + b)[1..] == a[1..] + b;
      assert Filter(a + b, p) == head + Filter(a[1..] + b, p);
      assert Filter(a, p) == head + Filter(a[1..], p);
      FilterAppend(a[1..], b, p);
    } else {
      assert a + b == b;
    }
  }

  /** `Array.prototype.every`. */
  function Every<T>(s: seq<T>, p: T -> bool): (r: bool)
    ensures r <==> forall k :: 0 <= k < |s| ==> p(s[k])
  {
    if s == [] then true else p(s[0]) && Every(s[1..], p)
  }

  /** `sub` occurs in `s` starting at index `i`. */
  ghost predicate OccursAt(s: string, sub: string, i: int)
  {
    0 <= i && i + |sub| <= |s| && s[i..i + |sub|] == sub
  }

  /** `String.prototype.includes`. */
  function Includes(s: string, sub: string): bool
    decreases |s|
  {
    if |sub| > |s| then false
    else if s[..|sub|] == sub then true
    else Includes(s[1..], sub)
  }

  /** `includes` holds exactly when the substring occurs at some index. */
  lemma {:induction false} IncludesIffOccurs(s: string, sub: string)
    ensures Includes(s, sub) <==> exists i :: OccursAt(s, sub, i)
    decreases |s|
  {
    if |sub| > |s| {
      assert forall i :: !OccursAt(s, sub, i);
    } else if s[..|sub|] == sub {
      assert OccursAt(s, sub, 0);
    } else {
      IncludesIffOccurs(s[1..], sub);
      if Includes(s[1..], sub) {
        var i :| OccursAt(s[1..], sub, i);
        assert s[i + 1..i + 1 + |sub|] == s[1..][i..i + |sub|];
        assert OccursAt(s, sub, i + 1);
      } else {
        forall i | OccursAt(s, sub, i)
          ensures false
        {
          assert i != 0;
          assert s[1..][i - 1..i - 1 + |sub|] == s[i..i + |sub|];
          assert OccursAt(s[1..], sub, i - 1);
        }
      }
    }
  }

  /** ASCII case mapping of `toLowerCase`. */
  function LowerChar(c: char): (r: char)
    ensures 'A' <= c <= 'Z' ==> 'a' <= r <= 'z' && r as int - c as int == 'a' as int - 'A' as int
    ensures !('A' <= c <= 'Z') ==> r == c
  {
    if 'A' <= c <= 'Z' then (c as int - 'A' as int + 'a' as int) as char else c
  }

  /** `String.prototype.toLowerCase`, restricted to ASCII letters. */
  function ToLower(s: string): (r: string)
    ensures |r| == |s|
    ensures forall i :: 0 <= i < |s| ==> r[i] == LowerChar(s[i])
  {
    seq(|s|, i requires 0 <= i < |s| => LowerChar(s[i]))
  }
}
