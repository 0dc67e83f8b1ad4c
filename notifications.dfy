/** The notification hook: `success` and `error` both go through `notify`, which hands the
    notification to the main store's `addNotification`. How an async handler that calls them
    settles depends on whether that call returns. */
module Notifications {
  import opened Js

  /** The names the main store defines: the keys of its initial state and its actions. */
  const StoreMembers: set<string> := {
    "projects", "selectedProject", "selectedTask", "filters", "view", "modal", "sidebar",
    "notifications", "deals", "messages",
    "openModal", "closeModal", "setSidebarOpen",
    "addProject", "updateProject", "deleteProject", "addTask", "updateTask", "deleteTask",
    "setView", "setFilters", "setSelectedProject", "setSelectedTask", "clearSelection",
    "getProjectById", "getTaskById", "getFilteredTasks",
    "addTaskAttachment", "removeTaskAttachment",
    "addDeal", "updateDeal", "deleteDeal", "addMessage", "deleteMessage", "updateMessage"
  }

  /** The notification actions the hook takes from the store. */
  const NotificationActions: set<string> :=
    {"addNotification", "removeNotification", "markNotificationAsRead", "clearAllNotifications"}

  /** `notify(...)` against a store defining `members`: a name the store lacks is undefined
      when taken from the store, and calling undefined throws a TypeError. */
  function Notify(members: set<string>): (r: Result<()>)
    ensures r.Ok? <==> "addNotification" in members
    ensures r.Thrown? ==> r.error == TypeError
  {
    if "addNotification" in members then Ok(()) else Thrown(TypeError)
  }

  /** The store as written has none of the notification actions, so every `success` and every
      `error` throws. */
  lemma NotifyAsWrittenThrows()
    ensures NotificationActions !! StoreMembers
    ensures Notify(StoreMembers) == Thrown(TypeError)
  {
  }

  /** With the notification actions added to the store, `success` and `error` return. */
  lemma NotifyCorrectedReturns()
    ensures Notify(StoreMembers + NotificationActions) == Ok(())
  {
  }

  /** How an async handler's `try { ...; success(...); return value } catch { error(...); ... }`
      settles once its own work is done: the notification is the last thing it calls, in the
      try block or in the catch block. When it returns the promise resolves to `value`; when
      it throws, the catch's `error` throws as well, and the promise rejects with a TypeError. */
  function Settle<T>(notified: bool, value: T): (r: Result<T>)
    ensures r.Ok? <==> notified
    ensures r.Ok? ==> r.value == value
    ensures r.Thrown? ==> r.error == TypeError
  {
    if notified then Ok(value) else Thrown(TypeError)
  }
}
