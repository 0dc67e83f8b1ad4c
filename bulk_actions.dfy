/** The bulk-actions hook: a list of selected item ids, toggled one by one or all at once,
    and async bulk delete and update handlers that run an action for every selected id and
    empty the selection only when every one of them succeeded and the success notification
    returned. */
module BulkActions {
  import opened Js
  import opened Collections
  import opened Selection
  import opened Notifications

  /** `Promise.all(ids.map(id => action(id, arg)))`, taken as a sequential loop: the action is
      called once per id, in order, always with the same `arg`; the batch succeeds when every
      call resolves (`resolves` says which calls do). */
  method InvokeAll<A(==)>(ids: seq<Value>, arg: A, resolves: (Value, A) -> bool) returns (calls: seq<(Value, A)>, allResolved: bool)
    ensures |calls| == |ids|
    ensures forall i :: 0 <= i < |ids| ==> calls[i] == (ids[i], arg)
    ensures allResolved <==> forall i :: 0 <= i < |ids| ==> resolves(ids[i], arg)
  {
    calls := [];
    allResolved := true;
    var i := 0;
    while i < |ids|
      invariant 0 <= i <= |ids|
      invariant |calls| == i
      invariant forall j :: 0 <= j < i ==> calls[j] == (ids[j], arg)
      invariant allResolved <==> forall j :: 0 <= j < i ==> resolves(ids[j], arg)
    {
      calls := calls + [(ids[i], arg)];
      allResolved := allResolved && resolves(ids[i], arg);
      i := i + 1;
    }
  }

  /** `items.map(item => item.id)` */
  function Ids(items: seq<Record>): (r: seq<Value>)
    ensures |r| == |items|
    ensures forall i :: 0 <= i < |items| ==> r[i] == IdOf(items[i])
  {
    seq(|items|, i requires 0 <= i < |items| => IdOf(items[i]))
  }

  class BulkActions {
    var selectedItems: seq<Value>

    constructor ()
      ensures selectedItems == []
    {
      selectedItems := [];
    }

    /** `hasSelection`: some id is selected. */
    function HasSelection(): (b: bool)
      reads this
      ensures b <==> selectedItems != []
    {
      |selectedItems| > 0
    }

    /** `handleSelect(id)` */
    method HandleSelect(id: Value)
      modifies this`selectedItems
      ensures selectedItems == Toggle(old(selectedItems), id)
    {
      selectedItems := Toggle(selectedItems, id);
    }

    /** `handleSelectAll(items)`: a selection as long as the item list is cleared; any other
        selection becomes every item's id, in item order. */
    method HandleSelectAll(items: seq<Record>)
      modifies this`selectedItems
      ensures |old(selectedItems)| == |items| ==> selectedItems == [] && !HasSelection()
      ensures |old(selectedItems)| != |items| ==> selectedItems == Ids(items)
    {
      var allIds := Ids(items);
      if |selectedItems| == |items| {
        selectedItems := [];
      } else {
        selectedItems := allIds;
      }
    }

    /** `handleBulkDelete(deleteAction)`: the action is called for each selected id. When every
        call resolves, `success` is called and only if it returns (`notified`) is the selection
        emptied; otherwise the catch calls `error`. The promise resolves when the notification
        it reaches returns, and rejects when it throws. */
    method HandleBulkDelete(resolves: Value -> bool, notified: bool) returns (deleted: seq<Value>, settled: Result<()>)
      modifies this`selectedItems
      ensures deleted == old(selectedItems)
      ensures settled.Ok? <==> notified
      ensures (forall i :: 0 <= i < |deleted| ==> resolves(deleted[i])) && notified ==> selectedItems == []
      ensures !((forall i :: 0 <= i < |deleted| ==> resolves(deleted[i])) && notified) ==> selectedItems == old(selectedItems)
    {
      var calls, ok := InvokeAll(selectedItems, (), (id: Value, u: ()) => resolves(id));
      deleted := seq(|calls|, i requires 0 <= i < |calls| => calls[i].0);
      assert deleted == selectedItems;
      if ok && notified {
        selectedItems := [];
      }
      settled := Settle(notified, ());
    }

    /** `handleBulkUpdate(updateAction, updates)`: the action is called with the same updates for
        each selected id; the selection and the promise then go as for `handleBulkDelete`. */
    method HandleBulkUpdate(updates: Record, resolves: (Value, Record) -> bool, notified: bool) returns (calls: seq<(Value, Record)>, settled: Result<()>)
      modifies this`selectedItems
      ensures |calls| == |old(selectedItems)|
      ensures forall i :: 0 <= i < |calls| ==> calls[i] == (old(selectedItems)[i], updates)
      ensures settled.Ok? <==> notified
      ensures (forall i :: 0 <= i < |calls| ==> resolves(calls[i].0, updates)) && notified ==> selectedItems == []
      ensures !((forall i :: 0 <= i < |calls| ==> resolves(calls[i].0, updates)) && notified) ==> selectedItems == old(selectedItems)
    {
      var ok;
      calls, ok := InvokeAll(selectedItems, updates, resolves);
      if ok && notified {
        selectedItems := [];
      }
      settled := Settle(notified, ());
    }
  }
}
