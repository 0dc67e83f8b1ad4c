/** JavaScript values and the handful of built-in operations that the dashboard's
    stores and hooks rely on: property reads, object spread, array spread, truthiness,
    String(), toLowerCase(), String.prototype.includes(), the relational `<`
    and Array.prototype.slice(). */
module Js {

  /** A JavaScript value. Numbers are integers (identifiers come from Date.now(),
      progress figures are whole percentages); objects are their own enumerable
      properties; arrays are sequences of values. */
  datatype Value =
    | Undefined
    | Null
    | Bool(b: bool)
    | Num(n: int)
    | Str(s: string)
    | List(items: seq<Value>)
    | Obj(fields: map<string, Value>)

  /** A plain object literal: its own enumerable properties. */
  type Record = map<string, Value>

  /** The only exception the modelled code can raise. */
  datatype JsError = TypeError

  /** The outcome of an expression that may throw. */
  datatype Result<+T> = Ok(value: T) | Thrown(error: JsError)

  datatype Option<+T> = None | Some(value: T)

  predicate Nullish(v: Value) {
    v.Undefined? || v.Null?
  }

  /** ToBoolean: what `if (v)`, `!v` and `v || w` test. */
  predicate Truthy(v: Value) {
    match v
    case Undefined => false
    case Null => false
    case Bool(b) => b
    case Num(n) => n != 0
    case Str(s) => s != ""
    case List(_) => true
    case Obj(_) => true
  }

  /** `a || b` */
  function Or(a: Value, b: Value): Value {
    if Truthy(a) then a else b
  }

  /** `r[k]` on an object: a key the object does not have reads as undefined. */
  function Prop(r: Record, k: string): Value {
    if k in r then r[k] else Undefined
  }

  /** `v.k` on an arbitrary value. Reading a property of undefined or null throws
      a TypeError; a primitive or an array has none of the properties read here. */
  function Get(v: Value, k: string): (r: Result<Value>)
    ensures r.Thrown? <==> Nullish(v)
    ensures v.Obj? ==> r == Ok(Prop(v.fields, k))
  {
    match v
    case Undefined => Thrown(TypeError)
    case Null => Thrown(TypeError)
    case Obj(m) => Ok(Prop(m, k))
    case _ => Ok(Undefined)
  }

  /** `{...a, ...b}`: every property of `b`, and the properties of `a` that `b` does not override. */
  function Spread(a: Record, b: Record): (r: Record)
    ensures r.Keys == a.Keys + b.Keys
    ensures forall k :: k in b ==> r[k] == b[k]
    ensures forall k :: k in a && k !in b ==> r[k] == a[k]
  {
    a + b
  }

  /** What `{...v}` copies out of an element that is not known to be an object:
      an object's own properties; nothing for a primitive. */
  function OwnProps(v: Value): (r: Record)
    ensures v.Obj? ==> r == v.fields
    ensures !v.Obj? ==> r == map[]
  {
    if v.Obj? then v.fields else map[]
  }

  /** `[...v]`: arrays and strings are iterable, everything else throws. */
  function Iterate(v: Value): (r: Result<seq<Value>>)
    ensures r.Ok? <==> v.List? || v.Str?
    ensures v.List? ==> r == Ok(v.items)
    ensures v.Str? ==> |r.value| == |v.s|
  {
    match v
    case List(xs) => Ok(xs)
    case Str(s) => Ok(seq(|s|, i requires 0 <= i < |s| => Str([s[i]])))
    case _ => Thrown(TypeError)
  }

  /** The receiver of `.map`, `.filter` or `.find`: only arrays have these methods. */
  function ArrayOf(v: Value): (r: Result<seq<Value>>)
    ensures r.Ok? <==> v.List?
    ensures v.List? ==> r == Ok(v.items)
  {
    if v.List? then Ok(v.items) else Thrown(TypeError)
  }

  // ---------------------------------------------------------------------------
  // String conversion and text search

  function DigitChar(d: nat): char
    requires d < 10
  {
    "0123456789"[d]
  }

  function NatToString(n: nat): (r: string)
    ensures |r| >= 1
    ensures forall i :: 0 <= i < |r| ==> '0' <= r[i] <= '9'
    decreases n
  {
    if n < 10 then [DigitChar(n)] else NatToString(n / 10) + [DigitChar(n % 10)]
  }

  /** String(v), which is also what `v.toString()` gives for the non-nullish values. */
  function ToStr(v: Value): string
    decreases v, 1, 0
  {
    match v
    case Undefined => "undefined"
    case Null => "null"
    case Bool(b) => if b then "true" else "false"
    case Num(n) => if n < 0 then "-" + NatToString(-n) else NatToString(n)
    case Str(s) => s
    case List(xs) => JoinedItems(v, |xs|)
    case Obj(_) => "[object Object]"
  }

  /** `xs.slice(0, n).join(",")` for the array `v = xs`: undefined and null elements become
      empty strings. */
  function JoinedItems(v: Value, n: nat): string
    requires v.List? && n <= |v.items|
    decreases v, 0, n
  {
    if n == 0 then ""
    else
      var last := if Nullish(v.items[n - 1]) then "" else ToStr(v.items[n - 1]);
      if n == 1 then last else JoinedItems(v, n - 1) + "," + last
  }

  /** String.prototype.toLowerCase() on the ASCII letters. */
  function LowerChar(c: char): (r: char)
    ensures 'A' <= c <= 'Z' ==> r as int == c as int + 32
    ensures !('A' <= c <= 'Z') ==> r == c
  {
    if 'A' <= c <= 'Z' then (c as int + 32) as char else c
  }

  function Lower(s: string): (r: string)
    ensures |r| == |s|
    ensures forall i :: 0 <= i < |s| ==> r[i] == LowerChar(s[i])
  {
    seq(|s|, i requires 0 <= i < |s| => LowerChar(s[i]))
  }

  /** `s.includes(t)`: `t` occurs in `s` as a contiguous run (the empty string occurs everywhere). */
  predicate Contains(s: string, t: string) {
    exists i :: 0 <= i <= |s| && OccursAt(s, t, i)
  }

  predicate OccursAt(s: string, t: string, i: int) {
    0 <= i && i + |t| <= |s| && s[i..i + |t|] == t
  }

  /** `String(v).toLowerCase().includes(term)` for a term that is already lower case. */
  predicate TextMatches(v: Value, lowerTerm: string) {
    Contains(Lower(ToStr(v)), lowerTerm)
  }

  // ---------------------------------------------------------------------------
  // The relational operator `<`

  /** `a < b` on two strings: code unit by code unit, a proper prefix first. */
  predicate StrLess(a: string, b: string)
    decreases |a|
  {
    if |a| == 0 then |b| > 0
    else if |b| == 0 then false
    else if a[0] != b[0] then a[0] < b[0]
    else StrLess(a[1..], b[1..])
  }

  lemma {:induction false} StrLessIrreflexive(a: string)
    ensures !StrLess(a, a)
    decreases |a|
  {
    if |a| > 0 {
      StrLessIrreflexive(a[1..]);
    }
  }

  lemma {:induction false} StrLessAsymmetric(a: string, b: string)
    ensures StrLess(a, b) ==> !StrLess(b, a)
    decreases |a|
  {
    if |a| > 0 && |b| > 0 && a[0] == b[0] {
      StrLessAsymmetric(a[1..], b[1..]);
    }
  }

  lemma {:induction false} StrLessTransitive(a: string, b: string, c: string)
    requires StrLess(a, b) && StrLess(b, c)
    ensures StrLess(a, c)
    decreases |a|
  {
    if |a| > 0 && |b| > 0 && |c| > 0 && a[0] == b[0] && b[0] == c[0] {
      StrLessTransitive(a[1..], b[1..], c[1..]);
    }
  }

  lemma {:induction false} StrLessTotal(a: string, b: string)
    ensures a == b || StrLess(a, b) || StrLess(b, a)
    decreases |a|
  {
    if |a| > 0 && |b| > 0 && a[0] == b[0] {
      StrLessTotal(a[1..], b[1..]);
      if a[1..] == b[1..] {
        assert a == [a[0]] + a[1..] && b == [b[0]] + b[1..];
      }
    }
  }

  /** Values that `<` converts to numbers the same way: numbers, booleans and null. */
  predicate NumberLike(v: Value) {
    v.Num? || v.Bool? || v.Null?
  }

  function ToNumber(v: Value): int
    requires NumberLike(v)
  {
    match v
    case Num(n) => n
    case Bool(b) => if b then 1 else 0
    case Null => 0
  }

  /** Values that `<` turns into strings: strings themselves, and arrays and objects, whose
      primitive value is their `String(v)` form. */
  predicate StringLike(v: Value) {
    v.Str? || v.List? || v.Obj?
  }

  /** `a < b`. When both sides become strings (strings, arrays, objects) they compare as
      strings; numbers, booleans and null compare as numbers; undefined converts to NaN, so
      every comparison with it is false. */
  predicate Less(a: Value, b: Value) {
    if StringLike(a) && StringLike(b) then StrLess(ToStr(a), ToStr(b))
    else if NumberLike(a) && NumberLike(b) then ToNumber(a) < ToNumber(b)
    else false
  }

  lemma LessAsymmetric(a: Value, b: Value)
    ensures Less(a, b) ==> !Less(b, a)
  {
    if StringLike(a) && StringLike(b) {
      StrLessAsymmetric(ToStr(a), ToStr(b));
    }
  }

  /** Values of one kind that `<` orders consistently. */
  predicate SameKind(a: Value, b: Value) {
    (StringLike(a) && StringLike(b)) || (NumberLike(a) && NumberLike(b))
  }

  /** On values of one kind, "not less than" is transitive: the comparison is a strict weak order. */
  lemma LessNegativelyTransitive(a: Value, b: Value, c: Value)
    requires SameKind(a, b) && SameKind(b, c)
    requires !Less(b, a) && !Less(c, b)
    ensures !Less(c, a)
  {
    if StringLike(a) {
      var x, y, z := ToStr(a), ToStr(b), ToStr(c);
      StrLessTotal(x, y);
      StrLessTotal(y, z);
      if x != y && y != z {
        StrLessTransitive(x, y, z);
      }
      StrLessAsymmetric(x, z);
      StrLessIrreflexive(x);
    }
  }

  /** Two arrays compare by their comma-joined string forms: `["Alice"] < ["Bob"]`. */
  lemma ArraysCompareAsStrings()
    ensures Less(List([Str("Alice")]), List([Str("Bob")]))
    ensures !Less(List([Str("Bob")]), List([Str("Alice")]))
  {
    assert ToStr(List([Str("Alice")])) == "Alice";
    assert ToStr(List([Str("Bob")])) == "Bob";
  }

  // ---------------------------------------------------------------------------
  // Array.prototype.slice

  /** How slice() turns a relative index into a position: a negative index counts
      from the end, and the result is clamped into [0, n]. */
  function SliceIndex(k: int, n: nat): (r: nat)
    ensures r <= n
    ensures 0 <= k <= n ==> r == k
    ensures k > n ==> r == n
    ensures k < 0 ==> r == if n + k < 0 then 0 else n + k
  {
    if k < 0 then (if n + k < 0 then 0 else n + k)
    else if k > n then n
    else k
  }

  /** `s.slice(start, end)`. */
  function Slice<T>(s: seq<T>, start: int, end: int): (r: seq<T>)
    ensures 0 <= start <= end <= |s| ==> r == s[start..end]
    ensures 0 <= end <= start ==> r == []
    ensures 0 <= start <= |s| && end >= |s| ==> r == s[start..]
    ensures 0 <= start ==> |r| <= |s| - SliceIndex(start, |s|)
    ensures start <= end ==> |r| <= end - start
  {
    var from := SliceIndex(start, |s|);
    var to := SliceIndex(end, |s|);
    if from < to then s[from..to] else []
  }
}
