/** Selection lists of row ids, as every table store and hook keeps them. */
module Selection {
  import opened Js
  import opened Collections

  /** `xs.includes(id) ? xs.filter(x => x !== id) : [...xs, id]` */
  function Toggle(xs: seq<Value>, id: Value): (r: seq<Value>)
    ensures id in r <==> id !in xs
    ensures forall y :: y != id ==> (y in r <==> y in xs)
    ensures forall y :: y != id ==> multiset(r)[y] == multiset(xs)[y]
    ensures id !in xs ==> r == xs + [id]
    ensures id in xs ==> Subseq(r, xs)
  {
    if id in xs then
      var r := Where(xs, x => x != id);
      WhereIsSubseq(xs, x => x != id);
      assert forall y :: y != id ==> multiset(r)[y] == multiset(xs)[y] by {
        forall y | y != id ensures multiset(r)[y] == multiset(xs)[y] {
          WhereCount(xs, x => x != id, y);
        }
      }
      r
    else xs + [id]
  }

  /** Toggling an id that was not selected and toggling it again gives back the very same list. */
  lemma ToggleTwiceRestores(xs: seq<Value>, id: Value)
    requires id !in xs
    ensures Toggle(Toggle(xs, id), id) == xs
  {
    WhereAppend(xs, [id], x => x != id);
    WhereAll(xs, x => x != id);
  }

  /** Toggling the same id twice restores its membership and every other id's. */
  lemma ToggleTwiceMembership(xs: seq<Value>, id: Value, y: Value)
    ensures y in Toggle(Toggle(xs, id), id) <==> y in xs
  {
  }
}
