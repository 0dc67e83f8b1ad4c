# Construction dashboard: stores and table hooks

This project models the state layer of a React dashboard for construction projects and deals.

- **`useStore`** is the main zustand store. It holds the project list, each project's task list and each task's attachments, plus the deals, the messages, its task filters, the view and the sidebar flag. It also defines the queries over these lists: a project by id, a task by id, and the filtered tasks of a project.
- **`useTableStore`** and **`useTableState`** are the deals-table stores. They hold the row selection, sort, filters, search and pagination, and persist part of that state.
- **The table hooks** (`usePagination`, `useDataTable`, `useEnhancedTable`, `useBulkActions`, `useTableActions`) search, filter, sort and paginate a list of rows, and keep a selection that bulk actions consume.
- **`useProjects`** computes project statistics. It also creates, updates and deletes projects through the store.
- **`useNotifications`** is how the hooks report an outcome: `success` and `error` hand a notification to the store's `addNotification`.

## How JavaScript is modelled

- **Values.** JavaScript values are the datatype `Js.Value`: undefined, null, booleans, integers, strings, arrays and objects. Objects are `map<string, Value>`.
- **Spread.** Object spread is map union, with the right side winning.
- **TypeErrors.** Property access on `undefined`/`null`, iterating a non-iterable, and calling a missing method are the `Thrown` case of `Js.Result`. Every store action that could throw returns that result. The store commits only an `Ok` result, just as zustand commits nothing when the updater throws.
- **Comparison.** `<` is `Js.Less`. When both sides are strings, arrays or objects, it compares their string forms lexicographically: an array is its elements joined by commas, and an object is `"[object Object]"`. When both sides are numbers, booleans or null, it compares them numerically. `undefined` compares false with everything.
- **Sorting.** `Array.prototype.sort` is a stable sort that takes a comparator. It is specified for any comparator by the functional insertion sort `Sorting.Sort`, and implemented in place on an array by `Sorting.SortInPlace`, which is proved to produce the same result. The store's comparator on a column is `Sorting.AfterBy`, and `Sorting.SortedBy` sorts with it.
- **Classes.** Each zustand store and each hook's `useState` cells are a `class`. Each setter is a method with a `modifies` clause. A derived value (a `useMemo` or a getter) is a function of the fields, or a method that returns it.
- **Async handlers.** A handler's promise is a `Js.Result`: `Ok` when it resolves, `Thrown` when it rejects. Whether a notification call returns is the parameter `notified`. `Notifications.Notify` says what it is for a given store: as written it is false, because the store defines no `addNotification`.
- **Parameters in place of the environment.** The clock (`Date.now()` and `moment()`) is replaced by parameters `freshId` and `now`, `URL.createObjectURL` by `url`, and the date-bucket tests of the due-date filter by the caller's `calendar`.

## Model

| member | source | states |
|---|---|---|
| EntityStore.NewProject | src/stores/useStore.js:98-114 | a new project has exactly the caller's keys plus id, createdAt, progress, lastUpdated, tasks, team, attachments and status; the caller's values win, and each default (fresh id, now, 0, [], "Planning") applies only when the caller did not supply that key |
| EntityStore.Store.AddProject | src/stores/useStore.js:98-114 | the project list grows by exactly that new project at the end, and a lookup by its id then finds a project |
| EntityStore.PatchProject | src/stores/useStore.js:116-126 | an updated project keeps every field the updates do not name, takes every field they do name, and always gets lastUpdated = now |
| EntityStore.ProjectUpdated | src/stores/useStore.js:116-126 | the list keeps its length; projects with another id are unchanged; each project with the id is patched |
| EntityStore.UpdateUnknownProject | src/stores/useStore.js:116-126 | updating an id no project carries leaves the list equal to the old one |
| EntityStore.Store.UpdateProject | src/stores/useStore.js:116-126 | the store's list becomes the patched list |
| EntityStore.Store.DeleteProject | src/stores/useStore.js:128-130 | the list loses the projects with that id and keeps the others; afterwards no project has the id and every task lookup under it answers undefined |
| EntityStore.AtProject | src/stores/useStore.js:134-152 | mapping a change over the projects with one id succeeds iff the change succeeds on each of them; other projects are unchanged and matching ones are replaced by the change's result |
| EntityStore.Stamped | src/stores/useStore.js:136-150 | setting a list field and the modification time changes those two keys and nothing else |
| EntityStore.NewTask | src/stores/useStore.js:138-147 | a new task has the caller's keys plus id, createdAt, status, progress, comments, attachments, history and lastUpdated, with the caller's values winning over "Todo", 0, [] and now |
| EntityStore.ExistingTasks | src/stores/useStore.js:138 | a project's tasks spread as an array: empty when absent or falsy, the array itself when it is one, a TypeError exactly when the value is truthy and not iterable |
| EntityStore.WithNewTask | src/stores/useStore.js:136-150 | adding a task succeeds iff the existing tasks can be spread; the project then has the old tasks plus the new one at the end and lastUpdated = now, and no other field changes |
| EntityStore.TaskAdded | src/stores/useStore.js:133-153 | adding a task to the projects with an id succeeds iff each of them has spreadable tasks; other projects are unchanged and the matching ones gain that new task |
| EntityStore.AddTaskToProjectWithoutTasks | src/stores/useStore.js:138 | a project with no task list gets a list holding just the new task |
| EntityStore.Store.AddTask | src/stores/useStore.js:133-153 | the action reports whether it committed; on success the projects are the new list, on a TypeError they are unchanged |
| EntityStore.FilterOutId | src/stores/useStore.js:176 | removing by id succeeds iff no element is null or undefined, and then keeps exactly the elements whose id differs, in order |
| EntityStore.FilterOutIdSpec | src/stores/useStore.js:176 | the kept elements form a subsequence of the input; none has the id, and every element with another id is kept |
| EntityStore.AtTask | src/stores/useStore.js:160-164 | mapping over a task list succeeds iff no task is nullish and each matching change succeeds; other tasks are unchanged and matching tasks are replaced |
| EntityStore.MapTasks | src/stores/useStore.js:160 | mapping a project's tasks throws unless its tasks are an array |
| EntityStore.PatchTask | src/stores/useStore.js:161-163 | a patched task is an object that has each updated field's new value and every other field's old value |
| EntityStore.WithTaskPatched | src/stores/useStore.js:158-166 | the project gets the patched task list and lastUpdated = now, and no other field changes; it fails exactly when mapping its tasks fails |
| EntityStore.TaskUpdated | src/stores/useStore.js:155-169 | only projects with the id change, each to its task-patched form; the update fails iff one of them cannot map its tasks |
| EntityStore.UpdateTaskInProject | src/stores/useStore.js:160-164 | tasks with another id are unchanged; a matching task keeps its own lastUpdated unless the updates supply one, because a task's own timestamp is not refreshed |
| EntityStore.Store.UpdateTask | src/stores/useStore.js:155-169 | commits the updated list or leaves the projects unchanged, and reports which |
| EntityStore.RemainingTasks | src/stores/useStore.js:176 | absent or falsy tasks give an empty list; tasks that are not an array throw; an array is filtered by task id |
| EntityStore.WithoutTask | src/stores/useStore.js:174-178 | the project gets the remaining tasks and lastUpdated = now, and no other field changes |
| EntityStore.TaskDeleted | src/stores/useStore.js:171-181 | only projects with the id change, each losing that task; the deletion fails iff one of them cannot filter its tasks |
| EntityStore.Store.DeleteTask | src/stores/useStore.js:171-181 | commits the shortened list or leaves the projects unchanged, and reports which |
| EntityStore.NewAttachment | src/stores/useStore.js:251-258 | an attachment has exactly id, name, size, type, url and uploadedAt; the file's name, size and type are copied, and the id, url and time are the fresh ones |
| EntityStore.ExistingAttachments | src/stores/useStore.js:251 | a task's attachments as an array: empty when absent or falsy, the array itself when it is one; the spread throws a TypeError exactly when they are truthy and neither an array nor a string |
| EntityStore.TaskWithAttachment | src/stores/useStore.js:249-260 | a task gains the attachment at the end of its list and lastUpdated = now, and no other field changes |
| EntityStore.WithAttachmentAdded | src/stores/useStore.js:245-263 | the project gets the new task list and nothing else, so its own lastUpdated stays as it was |
| EntityStore.AttachmentAdded | src/stores/useStore.js:242-266 | only projects with the id change; it fails iff one of them cannot map its tasks or spread a matching task's attachments |
| EntityStore.Store.AddTaskAttachment | src/stores/useStore.js:242-266 | commits the list with the attachment or leaves the projects unchanged, and reports which |
| EntityStore.RemainingAttachments | src/stores/useStore.js:277 | attachments that are not an array throw; an array is filtered by attachment id |
| EntityStore.TaskWithoutAttachment | src/stores/useStore.js:275-279 | a task gets the remaining attachments and lastUpdated = now, and no other field changes |
| EntityStore.WithAttachmentRemoved | src/stores/useStore.js:271-282 | the project gets the new task list and nothing else; its own lastUpdated stays as it was |
| EntityStore.AttachmentRemoved | src/stores/useStore.js:268-285 | only projects with the id change; it fails iff one of them cannot map its tasks or filter a matching task's attachments |
| EntityStore.Store.RemoveTaskAttachment | src/stores/useStore.js:268-285 | commits the list without the attachment or leaves the projects unchanged, and reports which |
| EntityStore.ProjectById | src/stores/useStore.js:199-201 | no result iff no project has the id; otherwise a project of the list with that id |
| EntityStore.FindTask | src/stores/useStore.js:205 | a task found is in the list and has the id; with no nullish task the search cannot throw, answers undefined iff no task has the id, and otherwise returns the first task that has it |
| EntityStore.TaskById | src/stores/useStore.js:203-206 | undefined when no project has the id or its tasks are nullish; a search for the first task with the id when its tasks are an array; a TypeError when its tasks are something else |
| EntityStore.Includes | src/stores/useStore.js:217 | an array's membership test, a string's substring test, false on null or undefined, and a TypeError on any other value |
| EntityStore.TaskPasses | src/stores/useStore.js:214-237 | with the "all" filters every task passes; otherwise a task passes iff its status, priority, assignee and due-date bucket all match; a nullish task throws unless nothing is filtered; the only other throw is the assignee test |
| EntityStore.FilteredTasks | src/stores/useStore.js:208-239 | no project or no tasks gives an empty list; an array of tasks is filtered by each task's test |
| EntityStore.FilteredTasksSpec | src/stores/useStore.js:208-239 | the filtered tasks are a subsequence of the project's tasks: every task kept passes and every passing task is kept |
| EntityStore.UnfilteredShowsAll | src/stores/useStore.js:214-237 | with the initial "all" filters, every task of the project is shown in its original order |
| EntityStore.DeletedProjectIsGone | src/stores/useStore.js:128-130 | after a deletion, the project lookup, a task lookup and a task filter all find nothing under the deleted id |
| EntityStore.Store.constructor | src/stores/useStore.js:6-76 | starts with no projects, nothing selected, the "all" filters, list view, the sidebar open, the three seed deals and no messages |
| EntityStore.Store.Persisted | src/stores/useStore.js:319-324 | the persisted slice holds exactly projects (the project records as an array of objects), filters, view and `{ isOpen }` of the sidebar, each equal to the store's current value |
| EntityStore.Store.SetSidebarOpen | src/stores/useStore.js:93-95 | sets the sidebar's open flag |
| EntityStore.Store.SetView | src/stores/useStore.js:184 | sets the view |
| EntityStore.Store.SetFilters | src/stores/useStore.js:185 | replaces the filters |
| EntityStore.Store.SetSelectedProject | src/stores/useStore.js:188-191 | selects the project and clears the selected task, without touching the persisted slice |
| EntityStore.Store.SetSelectedTask | src/stores/useStore.js:192 | selects a task without touching the persisted slice |
| EntityStore.Store.ClearSelection | src/stores/useStore.js:193-196 | clears both selections without touching the persisted slice |
| EntityStore.Store.ProjectNamed | src/stores/useStore.js:199-201 | no project iff none of the current projects has the id; otherwise one of them, with that id |
| EntityStore.Store.TaskNamed | src/stores/useStore.js:203-206 | undefined when no project has the id; a task found is one of that project's tasks and has the task id |
| EntityStore.Store.TasksShown | src/stores/useStore.js:208-239 | empty when no project has the id; otherwise only that project's tasks that pass the current filters, and every one of its tasks under the "all" filters |
| EntityStore.Store.AddDeal | src/stores/useStore.js:288-290 | appends the deal, with a fresh id when it has none |
| EntityStore.Store.UpdateDeal | src/stores/useStore.js:292-296 | deals with the id are patched and the others are unchanged |
| EntityStore.Store.DeleteDeal | src/stores/useStore.js:298-300 | no deal with the id remains |
| EntityStore.Store.AddMessage | src/stores/useStore.js:303-305 | appends the message |
| EntityStore.Store.DeleteMessage | src/stores/useStore.js:307-309 | no message with the id remains |
| EntityStore.Store.UpdateMessage | src/stores/useStore.js:311-315 | messages with the id are patched and the others are unchanged |
| Collections.WhereKeepsAll | src/hooks/useProjects.js:51 | a filter keeps every element iff every element passes it |
| Collections.WithoutId | src/stores/useStore.js:129 | an element is kept iff it was in the list and its id differs |
| Collections.WithoutIdSpec | src/stores/useStore.js:129 | the kept records are a subsequence of the list, and nothing is removed when no record has the id |
| Collections.PatchId | src/stores/useStore.js:292-296 | length kept; records with another id unchanged; matching records spread with the updates |
| Collections.WithDefaultId | src/stores/useTableStore.js:32-34 | the record's own fields are kept, and the fresh id is added only when it has none |
| Collections.WithoutIds | src/stores/useTableStore.js:47-50 | a record is kept iff its id is not among the ids |
| Notifications.Notify | src/hooks/useNotifications.js:13-25 | `notify` returns iff the store defines `addNotification`, and otherwise throws a TypeError |
| Notifications.NotifyAsWrittenThrows | src/hooks/useNotifications.js:5-16 | the store as written defines none of the notification actions the hook takes from it, so every notification throws |
| Notifications.NotifyCorrectedReturns | src/hooks/useNotifications.js:5-16 | with the notification actions added to the store, a notification returns |
| Notifications.Settle | src/hooks/useProjects.js:9-25 | a handler whose last call is a notification, in `try` or in `catch`, resolves to its value iff the notification returns, and rejects with a TypeError otherwise |
| Projects.Stats | src/hooks/useProjects.js:49-62 | the total is the list length; each band count is the number of projects in that band (progress 100, strictly between 0 and 100, exactly 0); the rate is 0 for no projects, and otherwise completed/total × 100; it lies in [0, 100] and is 100 iff there are projects and every one of them is complete |
| Projects.Rate | src/hooks/useProjects.js:60 | the completion rate is 0 for no projects and otherwise completed/total × 100; it lies in [0, 100] and is 100 exactly when every project is complete |
| Projects.BandCounts | src/hooks/useProjects.js:51-53 | when every progress is an integer in [0, 100], each project falls in exactly one of the three bands, so the band lengths add up to the list length |
| Projects.BandsPartition | src/hooks/useProjects.js:50-53 | when every progress is an integer in [0, 100], the completed, in-progress and planning counts add up to the total |
| Projects.CreatePayload | src/hooks/useProjects.js:11-18 | the caller's data with status "Planning", progress 0, empty team and tasks, and the creation date overriding whatever the caller sent |
| Projects.CreatedProjectShape | src/hooks/useProjects.js:11-18 | the project the store builds from that payload is in planning at progress 0 and is neither complete nor in progress |
| Projects.CreatedProjectCountsAsPlanning | src/hooks/useProjects.js:9-25 | creating a project adds one to the total and to the planning count and leaves the other counts unchanged |
| Projects.CreateHandler | src/hooks/useProjects.js:9-25 | the new planning project is always appended; the promise resolves to true iff the success notification returns, and rejects otherwise |
| Projects.CreateHandlerAsWrittenRejects | src/hooks/useProjects.js:9-25 | with the store as written, creating a project appends it and then rejects with a TypeError |
| Projects.CreateHandlerCorrected | src/hooks/useProjects.js:9-25 | with the notification actions in the store, creating a project appends it and resolves to true |
| Projects.UpdateHandler | src/hooks/useProjects.js:27-36 | projects with the id are patched and the others are unchanged; the promise resolves to true iff the success notification returns, and rejects otherwise |
| Projects.CallRemoval | src/hooks/useProjects.js:6 | a removal call succeeds only under the store's action name `deleteProject`; a name the store does not define (such as `removeProject`) throws |
| Projects.DeleteHandler | src/hooks/useProjects.js:38-47 | the list is shortened iff the removal call is the store's `deleteProject`, and unchanged otherwise; the promise resolves iff the notification returns, to true iff the call succeeded |
| Projects.DeleteHandlerAsWrittenFails | src/hooks/useProjects.js:38-47 | as written (`removeProject`, no `addNotification`), deletion rejects with a TypeError and the project is still there |
| Projects.DeleteHandlerCorrected | src/hooks/useProjects.js:38-47 | calling `deleteProject` with the notification actions in the store, deletion resolves to true and nothing is left under the id |
| Sorting.Compare | src/stores/useTableStore.js:94-102 | the comparator answers -1, 0 or 1, and answers 0 iff neither value is less than the other |
| Sorting.AfterMeaning | src/stores/useTableStore.js:94-102 | one row sorts after another iff its key is greater when ascending, and smaller when descending |
| Sorting.AfterAsymmetric | src/stores/useTableStore.js:94-102 | two rows cannot each sort after the other |
| Sorting.NotAfterTransitive | src/stores/useTableStore.js:94-102 | "not after" is transitive for keys of one kind, so the comparator is a consistent order |
| Sorting.OrderedMeaning | src/stores/useTableStore.js:93-103 | in a sorted result no later key is less than an earlier one when ascending, nor greater when descending |
| Sorting.InsertPermutes | src/stores/useTableStore.js:93-103 | inserting one row into a sorted list loses and duplicates nothing |
| Sorting.Sort | src/stores/useTableStore.js:93-103 | sorting with any comparator is a permutation of its input |
| Sorting.UniformConsistent | src/stores/useTableStore.js:94-102 | on a column whose keys are all of one kind, the comparator is asymmetric and "not after" is transitive |
| Sorting.InsertOrdered | src/stores/useTableStore.js:93-103 | under a consistent comparator, inserting a row into an ordered list keeps it ordered |
| Sorting.SortOrdered | src/stores/useTableStore.js:93-103 | under a consistent comparator, the sort puts the rows in comparator order |
| Sorting.SortedBy | src/stores/useTableStore.js:93-103 | sorting is a permutation of its input |
| Sorting.SortedByOrdered | src/stores/useTableStore.js:93-103 | when all keys are of one kind, the sorted result is ordered by the key in the chosen direction |
| Js.ArraysCompareAsStrings | src/stores/useTableStore.js:95 | `<` on two arrays compares their comma-joined text: `["Alice"] < ["Bob"]` holds and the reverse does not |
| Sorting.SortsArraysByText | src/stores/useTableStore.js:93-103 | sorting ascending on the array column `team` puts the row with `["Alice"]` before the row with `["Bob"]` |
| Sorting.SortInPlace | src/stores/useTableStore.js:94 | sorting the array in place with a comparator leaves exactly the functional sort of its old contents |
| Pipeline.ApplyFilters | src/stores/useTableStore.js:86-90 | applying the filters one key at a time keeps exactly the rows that match every active filter, in order |
| Pipeline.Process | src/hooks/useDataTable.js:15-48 | the copy, search, filter and sort pass returns the pipeline's specified result |
| Pipeline.SearchThenFilter | src/hooks/useDataTable.js:18-33 | searching and then filtering is one filter on the conjunction of the two tests |
| Pipeline.Processed | src/hooks/useDataTable.js:15-48 | the result only drops and reorders rows (its multiset is contained in the input's), and a row is in it iff it is in the input, it matches the search and it matches every active filter |
| Pipeline.ProcessedUnsortedKeepsOrder | src/hooks/useDataTable.js:15-48 | with no sort column the result is a subsequence of the input |
| Pipeline.ProcessedSortedOrdered | src/hooks/useDataTable.js:15-48 | with a sort column whose keys are all of one kind, the result is ordered |
| TableStore.FilteredDealsOf | src/stores/useTableStore.js:71-106 | the shown deals are a permutation of a subset of the deals, and a deal is shown iff it is in the store, some value mentions the search term (when there is one), and it equals every truthy filter |
| TableStore.FilteredDealsOrder | src/stores/useTableStore.js:71-106 | unsorted the shown deals keep the store's order; sorted by a column of one kind they are ordered in the chosen direction |
| TableStore.DealTable.constructor | src/stores/useTableStore.js:10-29 | one seed deal, nothing selected, sorted by deal ascending, no filters or search, page 1 of size 10 |
| TableStore.DealTable.AddDeal | src/stores/useTableStore.js:32-34 | appends the deal with a fresh id when it has none |
| TableStore.DealTable.UpdateDeal | src/stores/useTableStore.js:36-40 | deals with the id are patched and the others are unchanged |
| TableStore.DealTable.DeleteDeal | src/stores/useTableStore.js:42-45 | removes the deal and deselects its id; no remaining deal or selected row has that id |
| TableStore.DealTable.BulkDeleteDeals | src/stores/useTableStore.js:47-50 | removes every deal whose id is listed and deselects those ids; what remains is a subsequence of the old deals |
| TableStore.DealTable.ToggleRowSelection | src/stores/useTableStore.js:52-56 | toggles the id's selection |
| TableStore.DealTable.SetSelectedRows | src/stores/useTableStore.js:58 | sets the selection |
| TableStore.DealTable.ClearSelection | src/stores/useTableStore.js:60 | empties the selection |
| TableStore.DealTable.SetSortConfig | src/stores/useTableStore.js:62 | sets the sort |
| TableStore.DealTable.SetFilters | src/stores/useTableStore.js:64 | sets the filters |
| TableStore.DealTable.SetSearchTerm | src/stores/useTableStore.js:66 | sets the search term |
| TableStore.DealTable.SetPagination | src/stores/useTableStore.js:68 | sets the page and the page size |
| TableStore.DealTable.FilteredDeals | src/stores/useTableStore.js:71-106 | returns the filtered and sorted deals of the current state |
| TableStore.DealTable.PaginatedDeals | src/stores/useTableStore.js:108-115 | returns the current page of the filtered deals, never more than a page size |
| TableStore.DealTable.TotalPageCount | src/stores/useTableStore.js:117-120 | returns the ceiling of the filtered count over the page size |
| TableStore.DealTable.Persisted | src/stores/useTableStore.js:124-129 | the persisted slice holds exactly deals (as an array of objects), sortConfig as `{ field, direction }`, filters and pagination as `{ page, pageSize }`, each equal to the store's current value |
| Selection.Toggle | src/hooks/useTableActions.js:11-17 | the id's membership flips; every other value keeps its membership and its number of occurrences; an absent id is appended at the end, and removing a present id keeps the others in their order |
| Selection.ToggleTwiceRestores | src/hooks/useTableActions.js:11-17 | toggling an unselected id twice restores the selection exactly |
| Selection.ToggleTwiceMembership | src/hooks/useTableActions.js:11-17 | toggling any id twice leaves every value's membership as it was |
| Pagination.TotalPages | src/hooks/usePagination.js:11-13 | the page count is the least count of pages that holds the data: enough pages, the last one non-empty, and zero pages exactly for no data |
| Pagination.PageOf | src/hooks/usePagination.js:15-19 | a page holds at most the page size; it is the slice from (page-1)×size when that start is within the data, and empty past the end |
| Pagination.PagesArePrefix | src/hooks/usePagination.js:15-19 | the first k pages, concatenated, are the data's prefix of length min(k × size, length) |
| Pagination.PagesCoverData | src/hooks/usePagination.js:11-19 | all the pages, concatenated, are exactly the data |
| Pagination.NextPageHoldsData | src/hooks/usePagination.js:48 | there is a page after page p iff that page is not empty |
| Pagination.ClampPage | src/hooks/usePagination.js:21-24 | the page is at least 1 and at most the page count; an in-range page is kept, one too high becomes the last page, and one too low becomes 1 |
| Pagination.Pager.constructor | src/hooks/usePagination.js:8-9 | starts at the given page with the given page size |
| Pagination.Pager.Page | src/hooks/usePagination.js:15-19 | the page holds at most a page size; it is the slice of the data the current page covers, and is empty iff the current page is past the last page |
| Pagination.Pager.HasNextPage | src/hooks/usePagination.js:48 | there is a next page iff some item lies beyond the current page |
| Pagination.Pager.HasPreviousPage | src/hooks/usePagination.js:49 | on a page up to the last, there is a previous page iff the page before is one that goToPage keeps, so previousPage moves back one |
| Pagination.Pager.GoToPage | src/hooks/usePagination.js:21-24 | moves to the clamped page |
| Pagination.Pager.NextPage | src/hooks/usePagination.js:26-28 | moves one page forward when there is a next page, and stays put on the last page |
| Pagination.Pager.PreviousPage | src/hooks/usePagination.js:30-32 | moves one page back when there is a previous page, and stays on page 1 |
| Pagination.Pager.ChangePageSize | src/hooks/usePagination.js:34-37 | sets the size and returns to page 1 |
| DataTable.FilteredDataOf | src/hooks/useDataTable.js:15-48 | the kept rows are a permutation of a subset of the data, and a row is kept iff it is in the data, one of the search fields mentions the term (when there is a term and there are fields) and it equals every filter that is not undefined, null or "" |
| DataTable.FilteredDataOrder | src/hooks/useDataTable.js:15-48 | unsorted the kept rows keep the data's order; sorted by a column of one kind they are ordered in the chosen direction |
| DataTable.NextSort | src/hooks/useDataTable.js:64-71 | the sort moves to the clicked column; the direction is descending iff that column was already sorted ascending |
| DataTable.NextSortAlternates | src/hooks/useDataTable.js:64-71 | clicking the same column again flips the direction |
| DataTable.DataTable.constructor | src/hooks/useDataTable.js:11-13 | starts with the given sort and filters, no search, and page 1 |
| DataTable.DataTable.FilteredData | src/hooks/useDataTable.js:15-48 | returns the searched, filtered and sorted rows |
| DataTable.DataTable.CurrentPage | src/hooks/useDataTable.js:50-62 | returns the current page of those rows, at most a page size |
| DataTable.DataTable.HandleSort | src/hooks/useDataTable.js:64-71 | applies the next sort |
| DataTable.DataTable.HandleFilter | src/hooks/useDataTable.js:73-79 | sets one filter key and returns to page 1 |
| DataTable.DataTable.HandleSearch | src/hooks/useDataTable.js:81-84 | sets the term and returns to page 1 |
| DataTable.DataTable.ClearFilters | src/hooks/useDataTable.js:86-90 | restores the initial filters, empties the search and returns to page 1 |
| EnhancedTable.ComparatorMeaning | src/hooks/useEnhancedTable.js:28-30 | the comparator for a non-currency column is -1, 0 or 1; it is 0 iff neither key is less, and its sign follows the direction |
| EnhancedTable.SortedData | src/hooks/useEnhancedTable.js:14-32 | the sorted rows are a permutation of the data; with no sort column they are the data itself; with one whose keys are of one kind they are ordered in the chosen direction |
| EnhancedTable.NarrowedIsOneFilter | src/hooks/useEnhancedTable.js:35-58 | the column-filter pass followed by the global-filter pass is one filter on both tests |
| EnhancedTable.FilteredData | src/hooks/useEnhancedTable.js:35-58 | the shown rows are the sorted rows filtered by both tests, and a row is shown iff it is in the data, every column filter's text occurs in its column, and some value contains the global term (when there is one) |
| EnhancedTable.FilteredDataKeepsSortedOrder | src/hooks/useEnhancedTable.js:35-58 | filtering keeps the sorted order |
| EnhancedTable.PaginatedData | src/hooks/useEnhancedTable.js:61-65 | a page holds at most a page size and is page pageIndex+1 of the filtered rows |
| EnhancedTable.SelectedCountIgnoresValues | src/hooks/useEnhancedTable.js:106 | the selected count counts keys: setting an existing key to true or false leaves it unchanged |
| EnhancedTable.SelectedCount | src/hooks/useEnhancedTable.js:106-107 | the count is 0 iff the selection map is empty, so `hasSelection` holds iff some row key is present |
| EnhancedTable.EnhancedTable.constructor | src/hooks/useEnhancedTable.js:5-10 | starts with the default sort, no filters, no selection and page index 0 of size 10 |
| EnhancedTable.EnhancedTable.SetSorting | src/hooks/useEnhancedTable.js:6 | replaces the sort state and nothing else |
| EnhancedTable.EnhancedTable.SetColumnFilters | src/hooks/useEnhancedTable.js:7 | replaces the column filters and nothing else |
| EnhancedTable.EnhancedTable.SetGlobalFilter | src/hooks/useEnhancedTable.js:8 | replaces the global filter term and nothing else |
| EnhancedTable.EnhancedTable.SetRowSelection | src/hooks/useEnhancedTable.js:9 | replaces the selection map and nothing else |
| EnhancedTable.EnhancedTable.SetPagination | src/hooks/useEnhancedTable.js:10 | replaces the page index and page size and nothing else |
| EnhancedTable.EnhancedTable.Page | src/hooks/useEnhancedTable.js:61-65 | the page shown holds at most a page size, and is the 1-based page pageIndex+1 of the filtered rows |
| EnhancedTable.EnhancedTable.ClearSelection | src/hooks/useEnhancedTable.js:108 | empties the selection, so the selected count is 0 |
| EnhancedTable.EnhancedTable.HandleBulkAction | src/hooks/useEnhancedTable.js:68-90 | the selection is cleared unless the success notification for delete, archive or export throws; then the selection is kept and the promise rejects, and otherwise it resolves |
| EnhancedTable.EnhancedTable.PageCount | src/hooks/useEnhancedTable.js:109 | the page count is the least count of pages that holds the filtered rows |
| BulkActions.InvokeAll | src/hooks/useBulkActions.js:28 | the action is called once per selected id, in order, with the shared argument, and all calls resolve iff each one does |
| BulkActions.Ids | src/hooks/useBulkActions.js:20 | one id per item, in order |
| BulkActions.BulkActions.constructor | src/hooks/useBulkActions.js:6 | starts with nothing selected |
| BulkActions.BulkActions.HasSelection | src/hooks/useBulkActions.js:63 | there is a selection iff some id is selected |
| BulkActions.BulkActions.HandleSelect | src/hooks/useBulkActions.js:11-17 | toggles the id's selection |
| BulkActions.BulkActions.HandleSelectAll | src/hooks/useBulkActions.js:19-24 | deselects all when the selection is as long as the items, and otherwise selects every item's id |
| BulkActions.BulkActions.HandleBulkDelete | src/hooks/useBulkActions.js:26-34 | deletes each selected id; the selection is cleared iff every deletion resolves and the success notification returns, and is kept otherwise; the promise resolves iff the notification returns |
| BulkActions.BulkActions.HandleBulkUpdate | src/hooks/useBulkActions.js:36-44 | calls the update with each selected id and the updates; the selection is cleared iff every call resolves and the success notification returns; the promise resolves iff the notification returns |
| TableActions.TableActions.constructor | src/hooks/useTableActions.js:6 | starts with no row selected |
| TableActions.TableActions.HandleRowSelect | src/hooks/useTableActions.js:11-17 | toggles the id's selection |
| TableActions.TableActions.HandleSelectAll | src/hooks/useTableActions.js:19-23 | deselects all when the selection is as long as the ids, and otherwise selects exactly the ids |
| TableActions.TableActions.HandleBulkAction | src/hooks/useTableActions.js:25-33 | passes the ids to the action; the selection is cleared iff it resolves and the success notification returns; the promise resolves iff the notification returns |
| TableState.TableState.constructor | src/hooks/useTableState.js:10-15 | nothing selected, sorted by deal ascending, no filters or search, page 1 of size 10, table view |
| TableState.TableState.Persisted | src/hooks/useTableState.js:51-56 | the persisted slice holds exactly sortConfig as `{ field, direction }`, filters, viewMode and pagination as `{ page, pageSize }`, each equal to the hook's current value |
| TableState.TableState.SetSelectedRows | src/hooks/useTableState.js:18 | sets the selection without touching the persisted slice |
| TableState.TableState.ToggleRowSelection | src/hooks/useTableState.js:19-23 | toggles the id without touching the persisted slice |
| TableState.TableState.ClearSelection | src/hooks/useTableState.js:24 | empties the selection |
| TableState.TableState.SetSortConfig | src/hooks/useTableState.js:25 | sets the sort |
| TableState.TableState.SetFilters | src/hooks/useTableState.js:26 | sets the filters |
| TableState.TableState.SetSearchTerm | src/hooks/useTableState.js:27 | sets the term without touching the persisted slice |
| TableState.TableState.SetPagination | src/hooks/useTableState.js:28 | sets the page and size |
| TableState.TableState.SetViewMode | src/hooks/useTableState.js:29 | sets the view mode |
| TableState.TableState.HandleBulkAction | src/hooks/useTableState.js:32-47 | whatever the action, the selection is emptied and the persisted slice is unchanged |

## Left out

- Notifications: what a notification shows, its `Date.now()` id and its removal after a timeout are not modelled; only whether `success` or `error` returns is, as `notified`. Modals (`useModal`) are outside the model.
- Persistence to localStorage and the devtools middleware are I/O. Only the `partialize` projections (`Persisted`) are modelled.
- `Date.now()`, `new Date()`, `moment()` and `URL.createObjectURL` are parameters, and the due-date buckets (`isSame(…, 'day')` and the like) are decided by the caller's `calendar`.
- Promise.all: `BulkActions.InvokeAll` calls the actions one after another and records whether each resolves. Concurrency and the order in which promises settle are not modelled. `selectedItems.map(id => deleteAction(id))` (src/hooks/useBulkActions.js:28, 38) stops at the first action that throws synchronously, before `Promise.all` runs; the model calls the action for every id and treats a synchronous throw like a rejection.
- EnhancedTable.SortedData: requires that no row's sort key is a string starting with "$". The currency branch parses floating-point numbers, and floating point is not modelled.
- Projects.Stats: the completion rate is an exact real, not a double-precision quotient.
- Number values are integers; fractional progress and sizes are not modelled.
- Js.Less: `<` between a string-like value (string, array or object) and a number-like one (number, boolean or null) is taken as false, where JavaScript converts the string side to a number. So a number and a numeric string never compare as less. The ordering lemmas require keys of one kind: all string-like or all number-like.
- `toLowerCase` lowers ASCII letters only, and `String(value)` for objects and arrays follows a simplified rendering.
- `===` and `includes` on objects compare structurally, not by reference, so aliasing between rows is not modelled.
- Spreading a string or an array into an object gives no own properties in the model.
- Pagination.PageOf: requires a positive page size. Zero or negative sizes give Infinity or NaN page counts in JavaScript.
- EntityStore.Store.SetFilters: filters are always an object. A `null` filter set would make a task filter throw.
- Deals and messages in the main store are objects. A non-object element would make the id tests throw; that is not modelled.
- React rendering, JSX components, routing and the external services are outside the modelled core.
- The attachment actions keep the project's own `lastUpdated` unchanged. This follows the code (`src/stores/useStore.js:245-263` and `271-282`), although `addTask`, `updateTask` and `deleteTask` do refresh it (`src/stores/useStore.js:149`, `165`, `177`).

## Findings

| source | as written | input that shows it | evidently intended | confidence | as-written member | corrected member |
|---|---|---|---|---|---|---|
| src/hooks/useProjects.js:38-47 | `deleteProject` calls the store action `removeProject`, which the store does not define, so the call throws a TypeError; the catch's `error` throws too (next row), so the handler rejects and the project stays | any id, including the id of an existing project | call the store's `deleteProject`, which removes the project, and resolve to true | not executed; high | Projects.DeleteHandlerAsWrittenFails | Projects.DeleteHandlerCorrected |
| src/hooks/useNotifications.js:5-16 | `notify` calls the store's `addNotification`, which the store does not define (nor `removeNotification`, `markNotificationAsRead`, `clearAllNotifications`), so every `success` and `error` throws a TypeError. `createProject` and `updateProjectDetails` change the store and then reject instead of resolving to true; the bulk handlers of `useBulkActions`, `useTableActions` and `useEnhancedTable` never clear the selection after a successful action, and reject | any `createProject(data)` call | the store defines the notification actions, so the handlers resolve to their answers and clear the selection after success | not executed; high | Projects.CreateHandlerAsWrittenRejects | Projects.CreateHandlerCorrected |
