/** Sorting records by one property, as the table store and the table hooks do with
    Array.prototype.sort and the comparator
      a[key] < b[key] ? (ascending ? -1 : 1) : a[key] > b[key] ? (ascending ? 1 : -1) : 0.
    The engine's sort is stable; it is modelled by a stable insertion sort, given once as a
    function (SortedBy) and once in place on an array (SortInPlace), proved equal. */
module Sorting {
  import opened Js

  /** The sort settings of the table store (`{ field, direction }`) and of the data-table
      hook (`{ column, direction }`). An empty key stands for the unset one ('' or null),
      which switches sorting off; any direction other than 'asc' sorts descending. */
  datatype SortConfig = SortConfig(key: string, direction: string) {
    predicate Active() {
      key != ""
    }
    predicate Ascending() {
      direction == "asc"
    }
  }

  /** The comparator, negative when `a` goes first. */
  function Compare(a: Record, b: Record, key: string, ascending: bool): (c: int)
    ensures c == 0 || c == 1 || c == -1
    ensures c == 0 <==> !Less(Prop(a, key), Prop(b, key)) && !Less(Prop(b, key), Prop(a, key))
  {
    var x, y := Prop(a, key), Prop(b, key);
    if Less(x, y) then (if ascending then -1 else 1)
    else if Less(y, x) then (if ascending then 1 else -1)
    else 0
  }

  /** The comparator puts `a` after `b`. */
  predicate After(a: Record, b: Record, key: string, ascending: bool) {
    Compare(a, b, key, ascending) > 0
  }

  /** Ascending: `a` goes after `b` exactly when b[key] < a[key]; descending, the reverse. */
  lemma AfterMeaning(a: Record, b: Record, key: string, ascending: bool)
    ensures ascending ==> (After(a, b, key, ascending) <==> Less(Prop(b, key), Prop(a, key)))
    ensures !ascending ==> (After(a, b, key, ascending) <==> Less(Prop(a, key), Prop(b, key)))
  {
    LessAsymmetric(Prop(a, key), Prop(b, key));
  }

  lemma AfterAsymmetric(a: Record, b: Record, key: string, ascending: bool)
    ensures After(a, b, key, ascending) ==> !After(b, a, key, ascending)
  {
    AfterMeaning(a, b, key, ascending);
    AfterMeaning(b, a, key, ascending);
    LessAsymmetric(Prop(a, key), Prop(b, key));
  }

  /** Every record's value under `key` becomes a string (a string, array or object), or every
      one is number-like: then the comparator is consistent (JavaScript leaves the order
      unspecified otherwise). */
  predicate Uniform(s: seq<Record>, key: string) {
    (forall r | r in s :: StringLike(Prop(r, key))) || (forall r | r in s :: NumberLike(Prop(r, key)))
  }

  /** Not-after is transitive among records whose keys are of one kind. */
  lemma NotAfterTransitive(p: Record, q: Record, r: Record, key: string, ascending: bool)
    requires SameKind(Prop(p, key), Prop(q, key)) && SameKind(Prop(q, key), Prop(r, key))
    requires !After(p, q, key, ascending) && !After(q, r, key, ascending)
    ensures !After(p, r, key, ascending)
  {
    AfterMeaning(p, q, key, ascending);
    AfterMeaning(q, r, key, ascending);
    AfterMeaning(p, r, key, ascending);
    if ascending {
      LessNegativelyTransitive(Prop(p, key), Prop(q, key), Prop(r, key));
    } else {
      LessNegativelyTransitive(Prop(r, key), Prop(q, key), Prop(p, key));
    }
  }

  /** The comparator as the function value handed to the sort: it tells whether `a` goes after `b`. */
  function AfterBy(key: string, ascending: bool): (Record, Record) -> bool {
    (a, b) => After(a, b, key, ascending)
  }

  /** No record is put after a record that follows it. */
  predicate Ordered(s: seq<Record>, key: string, ascending: bool) {
    InOrder(s, AfterBy(key, ascending))
  }

  /** Ordered ascending means non-decreasing keys; descending, non-increasing keys. */
  lemma OrderedMeaning(s: seq<Record>, key: string, ascending: bool)
    requires Ordered(s, key, ascending)
    ensures ascending ==> forall i, j :: 0 <= i < j < |s| ==> !Less(Prop(s[j], key), Prop(s[i], key))
    ensures !ascending ==> forall i, j :: 0 <= i < j < |s| ==> !Less(Prop(s[i], key), Prop(s[j], key))
  {
    forall i, j | 0 <= i < j < |s|
      ensures ascending ==> !Less(Prop(s[j], key), Prop(s[i], key))
      ensures !ascending ==> !Less(Prop(s[i], key), Prop(s[j], key))
    {
      assert !AfterBy(key, ascending)(s[i], s[j]);
      AfterMeaning(s[i], s[j], key, ascending);
    }
  }

  lemma UniformSameKind(s: seq<Record>, key: string, a: Record, b: Record)
    requires Uniform(s, key) && a in s && b in s
    ensures SameKind(Prop(a, key), Prop(b, key))
  {
  }

  /** On a column of one kind the key comparator is a consistent order. */
  lemma UniformConsistent(s: seq<Record>, key: string, ascending: bool)
    requires Uniform(s, key)
    ensures Consistent(s, AfterBy(key, ascending))
  {
    var after := AfterBy(key, ascending);
    forall p, q | p in s && q in s
      ensures after(p, q) ==> !after(q, p)
    {
      AfterAsymmetric(p, q, key, ascending);
    }
    forall p, q, r | p in s && q in s && r in s && !after(p, q) && !after(q, r)
      ensures !after(p, r)
    {
      UniformSameKind(s, key, p, q);
      UniformSameKind(s, key, q, r);
      NotAfterTransitive(p, q, r, key, ascending);
    }
  }

  /** `[...s].sort(comparator)` with the comparator on `key`. Sorting only reorders: the
      result is a permutation of the input. */
  function SortedBy(s: seq<Record>, key: string, ascending: bool): (r: seq<Record>)
    ensures multiset(r) == multiset(s)
  {
    Sort(s, AfterBy(key, ascending))
  }

  /** Sorting a column of one kind puts the records in comparator order. */
  lemma SortedByOrdered(s: seq<Record>, key: string, ascending: bool)
    requires Uniform(s, key)
    ensures Ordered(SortedBy(s, key, ascending), key, ascending)
  {
    UniformConsistent(s, key, ascending);
    SortOrdered(s, AfterBy(key, ascending));
  }

  /** Sorting ascending on an array column orders the rows by the arrays' text: a row whose
      team is `["Alice"]` goes before one whose team is `["Bob"]`. */
  lemma SortsArraysByText()
    ensures var bob, alice := map["team" := List([Str("Bob")])], map["team" := List([Str("Alice")])];
      SortedBy([bob, alice], "team", true) == [alice, bob]
  {
    var bob, alice := map["team" := List([Str("Bob")])], map["team" := List([Str("Alice")])];
    ArraysCompareAsStrings();
    assert Prop(bob, "team") == List([Str("Bob")]) && Prop(alice, "team") == List([Str("Alice")]);
    assert After(bob, alice, "team", true);
    assert [bob, alice][..1] == [bob];
    assert Sort([bob], AfterBy("team", true)) == [bob] by {
      assert [bob][..0] == [];
    }
  }

  // ---------------------------------------------------------------------------
  // The engine's sort for any comparator, given as `after(a, b)`: the comparator is
  // positive, so `a` goes after `b`. Specified as a stable insertion sort.

  /** No element is put after an element that follows it. */
  predicate InOrder(s: seq<Record>, after: (Record, Record) -> bool) {
    forall i, j :: 0 <= i < j < |s| ==> !after(s[i], s[j])
  }

  /** On the elements of `s` the comparator is asymmetric and "not after" is transitive. */
  predicate Consistent(s: seq<Record>, after: (Record, Record) -> bool) {
    && (forall p, q | p in s && q in s :: after(p, q) ==> !after(q, p))
    && (forall p, q, r | p in s && q in s && r in s :: !after(p, q) && !after(q, r) ==> !after(p, r))
  }

  /** Insert `x` into `sorted`, passing over from the right every element that goes after it. */
  function Insert(sorted: seq<Record>, x: Record, after: (Record, Record) -> bool): seq<Record>
    decreases |sorted|
  {
    if sorted == [] then [x]
    else if after(sorted[|sorted| - 1], x) then
      Insert(sorted[..|sorted| - 1], x, after) + [sorted[|sorted| - 1]]
    else sorted + [x]
  }

  /** Inserting loses and duplicates nothing: the result holds `t` and `x`. */
  lemma {:induction false} InsertPermutes(t: seq<Record>, x: Record, after: (Record, Record) -> bool)
    ensures multiset(Insert(t, x, after)) == multiset(t) + multiset{x}
    decreases |t|
  {
    if t != [] && after(t[|t| - 1], x) {
      InsertPermutes(t[..|t| - 1], x, after);
      assert t == t[..|t| - 1] + [t[|t| - 1]];
    }
  }

  /** `array.sort(comparator)`: a permutation of the input. */
  function Sort(s: seq<Record>, after: (Record, Record) -> bool): (r: seq<Record>)
    ensures multiset(r) == multiset(s)
    decreases |s|
  {
    if s == [] then []
    else
      var init := Sort(s[..|s| - 1], after);
      InsertPermutes(init, s[|s| - 1], after);
      assert s == s[..|s| - 1] + [s[|s| - 1]];
      Insert(init, s[|s| - 1], after)
  }

  /** A consistent order on `s` stays consistent on any part of it. */
  lemma ConsistentOnPart(s: seq<Record>, part: seq<Record>, after: (Record, Record) -> bool)
    requires Consistent(s, after)
    requires forall r :: r in part ==> r in s
    ensures Consistent(part, after)
  {
  }

  /** Appending an element that nothing before it goes after keeps the order. */
  lemma OrderedSnoc(u: seq<Record>, z: Record, after: (Record, Record) -> bool)
    requires InOrder(u, after)
    requires forall i :: 0 <= i < |u| ==> !after(u[i], z)
    ensures InOrder(u + [z], after)
  {
    var w := u + [z];
    forall i, j | 0 <= i < j < |w| ensures !after(w[i], w[j]) {
      if j < |u| {
        assert w[i] == u[i] && w[j] == u[j];
      } else {
        assert w[i] == u[i] && w[j] == z;
      }
    }
  }

  /** When the last element of an ordered list goes after `x`, nothing in the insertion of `x`
      into the rest goes after that last element. */
  lemma InsertedBeforeLast(init: seq<Record>, last: Record, x: Record, after: (Record, Record) -> bool)
    requires InOrder(init + [last], after)
    requires after(last, x) && !after(x, last)
    ensures forall i :: 0 <= i < |Insert(init, x, after)| ==> !after(Insert(init, x, after)[i], last)
  {
    var t := init + [last];
    var u := Insert(init, x, after);
    InsertPermutes(init, x, after);
    forall i | 0 <= i < |u| ensures !after(u[i], last) {
      var y := u[i];
      assert y in multiset(u);
      if y != x {
        assert y in init;
        var k :| 0 <= k < |init| && init[k] == y;
        assert t[k] == y && t[|init|] == last;
      }
    }
  }

  lemma {:induction false} InsertOrdered(t: seq<Record>, x: Record, after: (Record, Record) -> bool)
    requires InOrder(t, after)
    requires Consistent(t + [x], after)
    ensures InOrder(Insert(t, x, after), after)
    decreases |t|
  {
    if t == [] {
      return;
    }
    var n := |t|;
    var last, init := t[n - 1], t[..n - 1];
    assert t == init + [last];
    assert last in t + [x] && x in t + [x];
    if after(last, x) {
      assert InOrder(init, after);
      ConsistentOnPart(t + [x], init + [x], after);
      InsertOrdered(init, x, after);
      InsertedBeforeLast(init, last, x, after);
      OrderedSnoc(Insert(init, x, after), last, after);
    } else {
      forall i | 0 <= i < n ensures !after(t[i], x) {
        if i < n - 1 {
          assert t[i] in t + [x] && !after(t[i], last);
        }
      }
      OrderedSnoc(t, x, after);
    }
  }

  /** Under a consistent comparator the sort puts the elements in comparator order. */
  lemma {:induction false} SortOrdered(s: seq<Record>, after: (Record, Record) -> bool)
    requires Consistent(s, after)
    ensures InOrder(Sort(s, after), after)
    decreases |s|
  {
    if s != [] {
      var init, x := s[..|s| - 1], s[|s| - 1];
      assert s == init + [x];
      ConsistentOnPart(s, init, after);
      SortOrdered(init, after);
      var t := Sort(init, after);
      forall r | r in t + [x] ensures r in s {
        if r in t {
          assert r in multiset(t);
        }
      }
      ConsistentOnPart(s, t + [x], after);
      InsertOrdered(t, x, after);
    }
  }

  // ---------------------------------------------------------------------------
  // The implementation: insertion sort in place

  /** Sort `a` in place, as `array.sort(comparator)` does. */
  method SortInPlace(a: array<Record>, after: (Record, Record) -> bool)
    modifies a
    ensures a[..] == Sort(old(a[..]), after)
  {
    ghost var s := a[..];
    var i := 0;
    while i < a.Length
      invariant 0 <= i <= a.Length
      invariant a[..i] == Sort(s[..i], after)
      invariant a[i..] == s[i..]
    {
      ghost var prefix := a[..i];
      assert prefix == Sort(s[..i], after);
      assert a[i] == s[i] && a[i + 1..] == s[i + 1..] by {
        assert a[i..][0] == s[i..][0];
        assert a[i + 1..] == a[i..][1..] && s[i + 1..] == s[i..][1..];
      }
      InsertLast(a, i, after);
      assert a[..i + 1] == Insert(prefix, s[i], after);
      SortPrefix(s, i, after);
      assert a[..i + 1] == Sort(s[..i + 1], after);
      i := i + 1;
    }
    assert s[..a.Length] == s;
    assert a[..a.Length] == a[..];
  }

  /** Sorting one more element of a list inserts it into the sorted shorter prefix. */
  lemma SortPrefix(s: seq<Record>, i: nat, after: (Record, Record) -> bool)
    requires i < |s|
    ensures Sort(s[..i + 1], after) == Insert(Sort(s[..i], after), s[i], after)
  {
    assert s[..i + 1][..i] == s[..i];
    assert s[..i + 1][i] == s[i];
  }

  /** Move a[i] left past every element of the sorted prefix a[..i] that goes after it. */
  method InsertLast(a: array<Record>, i: nat, after: (Record, Record) -> bool)
    requires i < a.Length
    modifies a
    ensures a[..i + 1] == Insert(old(a[..i]), old(a[i]), after)
    ensures a[i + 1..] == old(a[i + 1..])
  {
    ghost var t, x, rest := a[..i], a[i], a[i + 1..];
    assert a[..] == t[..i] + [x] + t[i..] + rest;
    var j := ShiftWhileAfter(a, i, t, x, rest, after);
    InsertAt(t, x, j, after);
    SplitAfterInserted(t, x, rest, j);
    assert a[..i + 1] == a[..][..i + 1] && a[i + 1..] == a[..][i + 1..];
  }

  /** The inner loop: swap `x`, starting at position `i`, leftwards while the element before
      it goes after it. It stops at `j`, with `x` there, everything of `t` from `j` on going
      after `x`, and nothing just before `x` going after it. */
  method ShiftWhileAfter(a: array<Record>, i: nat, ghost t: seq<Record>, ghost x: Record, ghost rest: seq<Record>,
                         after: (Record, Record) -> bool) returns (j: nat)
    requires i == |t| && a[..] == t[..i] + [x] + t[i..] + rest
    modifies a
    ensures j <= i && a[..] == t[..j] + [x] + t[j..] + rest
    ensures forall k :: j <= k < i ==> after(t[k], x)
    ensures j > 0 ==> !after(t[j - 1], x)
  {
    j := i;
    ShapeAt(a[..], t, x, rest, j);
    while j > 0 && after(a[j - 1], a[j])
      invariant 0 <= j <= i
      invariant a[..] == t[..j] + [x] + t[j..] + rest
      invariant j < a.Length && a[j] == x && (j > 0 ==> a[j - 1] == t[j - 1])
      invariant forall k :: j <= k < i ==> after(t[k], x)
    {
      ShiftLeft(a, j, t, x, rest);
      j := j - 1;
      ShapeAt(a[..], t, x, rest, j);
    }
  }

  /** In the array's contents during the inner loop, `x` sits at `j` and t[j - 1] just before it. */
  lemma ShapeAt(contents: seq<Record>, t: seq<Record>, x: Record, rest: seq<Record>, j: nat)
    requires j <= |t| && contents == t[..j] + [x] + t[j..] + rest
    ensures j < |contents| && contents[j] == x
    ensures j > 0 ==> contents[j - 1] == t[j - 1]
  {
  }

  /** One step of the inner loop: swapping positions j - 1 and j moves `x` one place left. */
  method ShiftLeft(a: array<Record>, j: nat, ghost t: seq<Record>, ghost x: Record, ghost rest: seq<Record>)
    requires 0 < j <= |t|
    requires a[..] == t[..j] + [x] + t[j..] + rest
    modifies a
    ensures a[..] == t[..j - 1] + [x] + t[j - 1..] + rest
  {
    ghost var before := a[..];
    SwapStep(before, t, x, rest, j);
    a[j - 1], a[j] := a[j], a[j - 1];
    assert a[..] == before[j - 1 := before[j]][j := before[j - 1]];
  }

  lemma SwapStep(before: seq<Record>, t: seq<Record>, x: Record, rest: seq<Record>, j: nat)
    requires 0 < j <= |t|
    requires before == t[..j] + [x] + t[j..] + rest
    ensures before[j - 1 := before[j]][j := before[j - 1]] == t[..j - 1] + [x] + t[j - 1..] + rest
  {
    assert before[j] == x && before[j - 1] == t[j - 1];
  }

  /** Where the inner loop stops is where Insert puts `x`: after t[..j], when everything from
      j on goes after `x` and t[j - 1] does not. */
  lemma {:induction false} InsertAt(t: seq<Record>, x: Record, j: nat, after: (Record, Record) -> bool)
    requires j <= |t|
    requires forall k :: j <= k < |t| ==> after(t[k], x)
    requires j > 0 ==> !after(t[j - 1], x)
    ensures Insert(t, x, after) == t[..j] + [x] + t[j..]
    decreases |t|
  {
    if |t| == j {
      assert t[..j] == t && t[j..] == [];
    } else {
      var init := t[..|t| - 1];
      assert init[..j] == t[..j];
      InsertAt(init, x, j, after);
      assert init[j..] + [t[|t| - 1]] == t[j..];
    }
  }

  /** Cutting the array's contents after the inserted prefix gives that prefix and the untouched rest. */
  lemma SplitAfterInserted(t: seq<Record>, x: Record, rest: seq<Record>, j: nat)
    requires j <= |t|
    ensures (t[..j] + [x] + t[j..] + rest)[..|t| + 1] == t[..j] + [x] + t[j..]
    ensures (t[..j] + [x] + t[j..] + rest)[|t| + 1..] == rest
  {
  }
}
