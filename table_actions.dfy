/** The table-actions hook: a list of selected row ids, toggled row by row or all at once,
    and one async bulk action over given ids after which the selection is cleared if it
    succeeded and the success notification returned. */
module TableActions {
  import opened Js
  import opened Selection
  import opened Notifications

  class TableActions {
    var selectedRows: seq<Value>

    constructor ()
      ensures selectedRows == []
    {
      selectedRows := [];
    }

    /** `handleRowSelect(id)` */
    method HandleRowSelect(id: Value)
      modifies this`selectedRows
      ensures selectedRows == Toggle(old(selectedRows), id)
    {
      selectedRows := Toggle(selectedRows, id);
    }

    /** `handleSelectAll(ids)`: a selection as long as `ids` is cleared, any other becomes `ids`. */
    method HandleSelectAll(ids: seq<Value>)
      modifies this`selectedRows
      ensures |old(selectedRows)| == |ids| ==> selectedRows == []
      ensures |old(selectedRows)| != |ids| ==> selectedRows == ids
    {
      if |selectedRows| == |ids| {
        selectedRows := [];
      } else {
        selectedRows := ids;
      }
    }

    /** `handleBulkAction(action, ids)`: the action is called once with `ids`; `resolves` says
        whether it succeeds. Then `success` is called, and only if it returns (`notified`) is
        the selection cleared; otherwise the catch calls `error`. The promise resolves when
        the notification it reaches returns, and rejects when it throws. */
    method HandleBulkAction(ids: seq<Value>, resolves: seq<Value> -> bool, notified: bool) returns (passed: seq<Value>, settled: Result<()>)
      modifies this`selectedRows
      ensures passed == ids
      ensures settled.Ok? <==> notified
      ensures resolves(ids) && notified ==> selectedRows == []
      ensures !(resolves(ids) && notified) ==> selectedRows == old(selectedRows)
    {
      passed := ids;
      if resolves(ids) && notified {
        selectedRows := [];
      }
      settled := Settle(notified, ());
    }
  }
}
