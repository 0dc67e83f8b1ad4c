/** The array methods the stores are written with (filter, map, find), both on lists
    whose elements are known to be objects and, with exceptions, on lists of arbitrary
    values; and the keyed-collection operations built from them (by the "id" property). */
module Collections {
  import opened Js

  /** A list of records as the array of objects it is. */
  function Objects(rs: seq<Record>): (r: seq<Value>)
    ensures |r| == |rs| && forall i :: 0 <= i < |rs| ==> r[i] == Obj(rs[i])
  {
    seq(|rs|, i requires 0 <= i < |rs| => Obj(rs[i]))
  }

  // ---------------------------------------------------------------------------
  // filter

  /** `s.filter(keep)` */
  function Where<T>(s: seq<T>, keep: T -> bool): (r: seq<T>)
    ensures |r| <= |s|
    ensures forall i :: 0 <= i < |r| ==> r[i] in s && keep(r[i])
    ensures forall i :: 0 <= i < |s| && keep(s[i]) ==> s[i] in r
  {
    if s == [] then []
    else if keep(s[0]) then [s[0]] + Where(s[1..], keep)
    else Where(s[1..], keep)
  }

  /** `a` is what is left of `b` after deleting some of its elements. */
  ghost predicate Subseq<T>(a: seq<T>, b: seq<T>)
    decreases |b|
  {
    if a == [] then true
    else if b == [] then false
    else (a[0] == b[0] && Subseq(a[1..], b[1..])) || Subseq(a, b[1..])
  }

  /** What is left after deleting elements holds nothing new. */
  lemma {:induction false} SubseqMembers<T>(a: seq<T>, b: seq<T>)
    requires Subseq(a, b)
    ensures forall x :: x in a ==> x in b
    decreases |b|
  {
    if a != [] {
      if a[0] == b[0] && Subseq(a[1..], b[1..]) {
        SubseqMembers(a[1..], b[1..]);
        assert a == [a[0]] + a[1..] && b == [b[0]] + b[1..];
      } else {
        SubseqMembers(a, b[1..]);
        assert b == [b[0]] + b[1..];
      }
    }
  }

  /** filter keeps the survivors in their original relative order. */
  lemma {:induction false} WhereIsSubseq<T>(s: seq<T>, keep: T -> bool)
    ensures Subseq(Where(s, keep), s)
  {
    if s != [] {
      WhereIsSubseq(s[1..], keep);
      if keep(s[0]) {
        assert Where(s, keep)[1..] == Where(s[1..], keep);
      }
    }
  }

  /** filter keeps each surviving element as often as it occurred. */
  lemma {:induction false} WhereCount<T>(s: seq<T>, keep: T -> bool, x: T)
    ensures multiset(Where(s, keep))[x] == if keep(x) then multiset(s)[x] else 0
  {
    if s != [] {
      WhereCount(s[1..], keep, x);
      assert s == [s[0]] + s[1..];
    }
  }

  /** A filter that keeps everything is the identity. */
  lemma {:induction false} WhereAll<T>(s: seq<T>, keep: T -> bool)
    requires forall x :: x in s ==> keep(x)
    ensures Where(s, keep) == s
  {
    if s != [] {
      WhereAll(s[1..], keep);
      assert s == [s[0]] + s[1..];
    }
  }

  /** A filter keeps as many elements as the list has exactly when every element passes. */
  lemma {:induction false} WhereKeepsAll<T>(s: seq<T>, keep: T -> bool)
    ensures |Where(s, keep)| == |s| <==> forall x :: x in s ==> keep(x)
  {
    if s != [] {
      WhereKeepsAll(s[1..], keep);
      assert s == [s[0]] + s[1..];
    }
  }

  /** Filtering twice is filtering once by the conjunction. */
  lemma {:induction false} WhereWhere<T>(s: seq<T>, p: T -> bool, q: T -> bool, both: T -> bool)
    requires forall x :: both(x) == (p(x) && q(x))
    ensures Where(Where(s, p), q) == Where(s, both)
  {
    if s != [] {
      WhereWhere(s[1..], p, q, both);
    }
  }

  /** Two tests that agree on the elements present filter alike. */
  lemma {:induction false} WhereCongruent<T>(s: seq<T>, p: T -> bool, q: T -> bool)
    requires forall x :: x in s ==> p(x) == q(x)
    ensures Where(s, p) == Where(s, q)
  {
    if s != [] {
      WhereCongruent(s[1..], p, q);
    }
  }

  /** Filtering commutes with concatenation. */
  lemma {:induction false} WhereAppend<T>(s: seq<T>, t: seq<T>, keep: T -> bool)
    ensures Where(s + t, keep) == Where(s, keep) + Where(t, keep)
  {
    if s == [] {
      assert s + t == t;
    } else {
      assert (s + t)[1..] == s[1..] + t;
      WhereAppend(s[1..], t, keep);
    }
  }

  // ---------------------------------------------------------------------------
  // map with a conditional

  /** `s.map(x => hit(x) ? f(x) : x)` */
  function MapWhere<T>(s: seq<T>, hit: T -> bool, f: T -> T): (r: seq<T>)
    ensures |r| == |s|
    ensures forall i :: 0 <= i < |s| ==> r[i] == if hit(s[i]) then f(s[i]) else s[i]
  {
    if s == [] then []
    else [if hit(s[0]) then f(s[0]) else s[0]] + MapWhere(s[1..], hit, f)
  }

  /** A map that hits nothing is the identity. */
  lemma MapWhereMiss<T>(s: seq<T>, hit: T -> bool, f: T -> T)
    requires forall x :: x in s ==> !hit(x)
    ensures MapWhere(s, hit, f) == s
  {
  }

  // ---------------------------------------------------------------------------
  // find

  /** `s.find(hit)`: the first element that passes, if any. */
  function Find<T>(s: seq<T>, hit: T -> bool): (r: Option<T>)
    ensures r.None? <==> forall i :: 0 <= i < |s| ==> !hit(s[i])
    ensures r.Some? ==> exists i :: 0 <= i < |s| && s[i] == r.value && hit(s[i])
                          && forall j :: 0 <= j < i ==> !hit(s[j])
  {
    if s == [] then None
    else if hit(s[0]) then Some(s[0])
    else
      var r := Find(s[1..], hit);
      assert r.Some? ==> exists i :: 0 <= i < |s| - 1 && s[1..][i] == r.value && hit(s[1..][i])
                            && forall j :: 0 <= j < i ==> !hit(s[1..][j]);
      assert r.Some? ==> exists i :: 1 <= i < |s| && s[i] == r.value && hit(s[i])
                            && forall j :: 0 <= j < i ==> !hit(s[j]);
      r
  }

  // ---------------------------------------------------------------------------
  // The same methods when the callback may throw: the first exception escapes.

  /** `s.map(f)` where `f` may throw. */
  function MapR<T>(s: seq<T>, f: T -> Result<T>): (r: Result<seq<T>>)
    ensures r.Ok? <==> forall i :: 0 <= i < |s| ==> f(s[i]).Ok?
    ensures r.Ok? ==> |r.value| == |s| && forall i :: 0 <= i < |s| ==> r.value[i] == f(s[i]).value
  {
    if s == [] then Ok([])
    else match f(s[0])
      case Thrown(e) => Thrown(e)
      case Ok(x) =>
        match MapR(s[1..], f)
        case Thrown(e) =>
          assert !f(s[1..][0]).Ok? || exists i :: 0 <= i < |s| - 1 && !f(s[1..][i]).Ok?;
          Thrown(e)
        case Ok(rest) => Ok([x] + rest)
  }

  /** `s.filter(keep)` where `keep` may throw. */
  function FilterR<T>(s: seq<T>, keep: T -> Result<bool>): (r: Result<seq<T>>)
    ensures r.Ok? <==> forall i :: 0 <= i < |s| ==> keep(s[i]).Ok?
    ensures r.Ok? ==> r.value == Where(s, x => keep(x) == Ok(true))
  {
    if s == [] then Ok([])
    else match keep(s[0])
      case Thrown(e) => Thrown(e)
      case Ok(b) =>
        match FilterR(s[1..], keep)
        case Thrown(e) =>
          assert exists i :: 0 <= i < |s| - 1 && !keep(s[1..][i]).Ok?;
          Thrown(e)
        case Ok(rest) => Ok(if b then [s[0]] + rest else rest)
  }

  /** `s.find(hit)` where `hit` may throw; elements after the first hit are not tested. */
  function FindR<T>(s: seq<T>, hit: T -> Result<bool>): (r: Result<Option<T>>)
    ensures r == Ok(None) <==> forall i :: 0 <= i < |s| ==> hit(s[i]) == Ok(false)
    ensures r.Thrown? ==> exists i :: 0 <= i < |s| && hit(s[i]).Thrown?
    ensures r.Ok? && r.value.Some? ==>
              exists i :: 0 <= i < |s| && s[i] == r.value.value && hit(s[i]) == Ok(true)
                && forall j :: 0 <= j < i ==> hit(s[j]) == Ok(false)
  {
    if s == [] then Ok(None)
    else match hit(s[0])
      case Thrown(e) => Thrown(e)
      case Ok(b) =>
        if b then Ok(Some(s[0]))
        else
          var r := FindR(s[1..], hit);
          assert r.Thrown? ==> exists i :: 1 <= i < |s| && hit(s[i]).Thrown? by {
            if r.Thrown? {
              var i :| 0 <= i < |s| - 1 && hit(s[1..][i]).Thrown?;
              assert s[i + 1] == s[1..][i];
            }
          }
          assert r.Ok? && r.value.Some? ==>
            exists i :: 1 <= i < |s| && s[i] == r.value.value && hit(s[i]) == Ok(true)
              && forall j :: 0 <= j < i ==> hit(s[j]) == Ok(false) by {
            if r.Ok? && r.value.Some? {
              var i :| 0 <= i < |s| - 1 && s[1..][i] == r.value.value && hit(s[1..][i]) == Ok(true)
                && forall j :: 0 <= j < i ==> hit(s[1..][j]) == Ok(false);
              assert s[i + 1] == r.value.value && hit(s[i + 1]) == Ok(true);
              assert forall j :: 0 <= j < i + 1 ==> hit(s[j]) == Ok(false) by {
                forall j | 0 <= j < i + 1 ensures hit(s[j]) == Ok(false) {
                  if j > 0 { assert s[j] == s[1..][j - 1]; }
                }
              }
            }
          }
          r
  }

  /** When a throwing filter does not throw, it keeps, in order, exactly the elements its test accepts. */
  lemma FilterRSpec<T>(s: seq<T>, keep: T -> Result<bool>)
    requires FilterR(s, keep).Ok?
    ensures Subseq(FilterR(s, keep).value, s)
    ensures forall x :: x in FilterR(s, keep).value ==> keep(x) == Ok(true)
    ensures forall x :: x in s && keep(x) == Ok(true) ==> x in FilterR(s, keep).value
  {
    WhereIsSubseq(s, x => keep(x) == Ok(true));
  }

  /** A throwing filter whose test never throws on the elements present is a plain filter. */
  lemma FilterRTotal<T>(s: seq<T>, keep: T -> Result<bool>, p: T -> bool)
    requires forall x :: x in s ==> keep(x) == Ok(p(x))
    ensures FilterR(s, keep) == Ok(Where(s, p))
  {
    assert forall i :: 0 <= i < |s| ==> keep(s[i]).Ok?;
    WhereCongruent(s, x => keep(x) == Ok(true), p);
  }

  // ---------------------------------------------------------------------------
  // Keyed collections: records identified by their "id" property

  function IdOf(r: Record): Value {
    Prop(r, "id")
  }

  /** `{ id: freshId, ...data }`: a new entry gets a fresh id unless its data brings one. */
  function WithDefaultId(data: Record, freshId: int): (r: Record)
    ensures r.Keys == data.Keys + {"id"}
    ensures forall k :: k in data ==> r[k] == data[k]
    ensures "id" !in data ==> r["id"] == Num(freshId)
  {
    Spread(map["id" := Num(freshId)], data)
  }

  /** `rs.filter(x => x.id !== id)` */
  function WithoutId(rs: seq<Record>, id: Value): (r: seq<Record>)
    ensures forall x :: x in r <==> x in rs && IdOf(x) != id
  {
    Where(rs, x => IdOf(x) != id)
  }

  /** Deleting by id removes every entry with that id and nothing else,
      keeps the survivors in order, and changes nothing when the id is absent. */
  lemma WithoutIdSpec(rs: seq<Record>, id: Value)
    ensures forall x :: x in WithoutId(rs, id) ==> IdOf(x) != id
    ensures forall x :: x in rs && IdOf(x) != id ==> x in WithoutId(rs, id)
    ensures Subseq(WithoutId(rs, id), rs)
    ensures (forall x :: x in rs ==> IdOf(x) != id) ==> WithoutId(rs, id) == rs
  {
    WhereIsSubseq(rs, x => IdOf(x) != id);
    if forall x :: x in rs ==> IdOf(x) != id {
      WhereAll(rs, x => IdOf(x) != id);
    }
  }

  /** `rs.map(x => x.id === id ? { ...x, ...updates } : x)` */
  function PatchId(rs: seq<Record>, id: Value, updates: Record): (r: seq<Record>)
    ensures |r| == |rs|
    ensures forall i :: 0 <= i < |rs| && IdOf(rs[i]) != id ==> r[i] == rs[i]
    ensures forall i :: 0 <= i < |rs| && IdOf(rs[i]) == id ==> r[i] == Spread(rs[i], updates)
  {
    MapWhere(rs, x => IdOf(x) == id, x => Spread(x, updates))
  }

  /** Patching an id that no entry has leaves the list identical. */
  lemma PatchIdMiss(rs: seq<Record>, id: Value, updates: Record)
    requires forall x :: x in rs ==> IdOf(x) != id
    ensures PatchId(rs, id, updates) == rs
  {
  }

  /** Where JavaScript's `ids.includes(x)` asks for membership. */
  function WithoutIds(rs: seq<Record>, ids: seq<Value>): (r: seq<Record>)
    ensures forall x :: x in r <==> x in rs && IdOf(x) !in ids
  {
    Where(rs, x => IdOf(x) !in ids)
  }
}
