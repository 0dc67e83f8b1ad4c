/** The dashboard's entity store: projects, each holding a list of tasks, each task holding
    a list of attachments; flat lists of deals and messages; its task filters, the view and
    the sidebar setting; and the queries over projects and tasks.

    Every action builds the next list from the current one with map and filter. Nested task
    and attachment lists are arbitrary JavaScript values, so an action that reaches into a
    list that is missing or not an array throws a TypeError, as the original does; the state
    then stays as it was. */
module EntityStore {
  import opened Js
  import opened Collections

  const All: Value := Str("all")

  /** `data[key]` when the data supplies the key, the default otherwise. */
  function Given(data: Record, key: string, default: Value): Value {
    if key in data then data[key] else default
  }

  // ---------------------------------------------------------------------------
  // Projects

  /** addProject's new project, `{ id, createdAt, progress: 0, lastUpdated, tasks: [], team: [],
      attachments: [], status: 'Planning', ...projectData }`: the payload's fields win. */
  function NewProject(data: Record, freshId: int, now: string): (p: Record)
    ensures p.Keys == data.Keys + {"id", "createdAt", "progress", "lastUpdated", "tasks", "team", "attachments", "status"}
    ensures forall k :: k in data ==> p[k] == data[k]
    ensures p["id"] == Given(data, "id", Num(freshId))
    ensures p["createdAt"] == Given(data, "createdAt", Str(now))
    ensures p["lastUpdated"] == Given(data, "lastUpdated", Str(now))
    ensures p["progress"] == Given(data, "progress", Num(0))
    ensures p["status"] == Given(data, "status", Str("Planning"))
    ensures p["tasks"] == Given(data, "tasks", List([]))
    ensures p["team"] == Given(data, "team", List([]))
    ensures p["attachments"] == Given(data, "attachments", List([]))
  {
    var defaults := map["id" := Num(freshId), "createdAt" := Str(now), "progress" := Num(0),
                        "lastUpdated" := Str(now), "tasks" := List([]), "team" := List([]),
                        "attachments" := List([]), "status" := Str("Planning")];
    Spread(defaults, data)
  }

  /** One project after `updateProject`: `{ ...project, ...updates, lastUpdated: now }`. */
  function PatchProject(p: Record, updates: Record, now: string): (r: Record)
    ensures r.Keys == p.Keys + updates.Keys + {"lastUpdated"}
    ensures r["lastUpdated"] == Str(now)
    ensures forall k :: k in updates && k != "lastUpdated" ==> r[k] == updates[k]
    ensures forall k :: k in p && k !in updates && k != "lastUpdated" ==> r[k] == p[k]
  {
    Spread(p, updates)["lastUpdated" := Str(now)]
  }

  /** `updateProject(projectId, updates)` */
  function ProjectUpdated(projects: seq<Record>, projectId: Value, updates: Record, now: string): (r: seq<Record>)
    ensures |r| == |projects|
    ensures forall i :: 0 <= i < |projects| && IdOf(projects[i]) != projectId ==> r[i] == projects[i]
    ensures forall i :: 0 <= i < |projects| && IdOf(projects[i]) == projectId ==> r[i] == PatchProject(projects[i], updates, now)
  {
    MapWhere(projects, p => IdOf(p) == projectId, p => PatchProject(p, updates, now))
  }

  /** Updating a project id that no project has leaves the list identical. */
  lemma UpdateUnknownProject(projects: seq<Record>, projectId: Value, updates: Record, now: string)
    requires forall p :: p in projects ==> IdOf(p) != projectId
    ensures ProjectUpdated(projects, projectId, updates, now) == projects
  {
    var r := ProjectUpdated(projects, projectId, updates, now);
    assert forall i :: 0 <= i < |projects| ==> r[i] == projects[i];
  }

  /** `projects.map(p => p.id === projectId ? change(p) : p)` for a `change` that may throw. */
  function AtProject(projects: seq<Record>, projectId: Value, change: Record -> Result<Record>): (r: Result<seq<Record>>)
    ensures r.Ok? <==> forall i :: 0 <= i < |projects| && IdOf(projects[i]) == projectId ==> change(projects[i]).Ok?
    ensures r.Ok? ==> |r.value| == |projects|
    ensures r.Ok? ==> forall i :: 0 <= i < |projects| && IdOf(projects[i]) != projectId ==> r.value[i] == projects[i]
    ensures r.Ok? ==> forall i :: 0 <= i < |projects| && IdOf(projects[i]) == projectId ==> r.value[i] == change(projects[i]).value
  {
    MapR(projects, p => if IdOf(p) == projectId then change(p) else Ok(p))
  }

  /** `{ ...r, [key]: v, lastUpdated: now }`: one field replaced and the record stamped. */
  function Stamped(r: Record, key: string, v: Value, now: string): (q: Record)
    requires key != "lastUpdated"
    ensures q.Keys == r.Keys + {key, "lastUpdated"}
    ensures q[key] == v && q["lastUpdated"] == Str(now)
    ensures forall k :: k in r && k != key && k != "lastUpdated" ==> q[k] == r[k]
  {
    r[key := v]["lastUpdated" := Str(now)]
  }

  // ---------------------------------------------------------------------------
  // Tasks

  /** addTask's new task, `{ id, createdAt, status: 'Todo', progress: 0, comments: [],
      attachments: [], history: [], lastUpdated, ...taskData }`: the payload's fields win. */
  function NewTask(data: Record, freshId: int, now: string): (t: Record)
    ensures t.Keys == data.Keys + {"id", "createdAt", "status", "progress", "comments", "attachments", "history", "lastUpdated"}
    ensures forall k :: k in data ==> t[k] == data[k]
    ensures t["id"] == Given(data, "id", Num(freshId))
    ensures t["createdAt"] == Given(data, "createdAt", Str(now))
    ensures t["lastUpdated"] == Given(data, "lastUpdated", Str(now))
    ensures t["status"] == Given(data, "status", Str("Todo"))
    ensures t["progress"] == Given(data, "progress", Num(0))
    ensures t["comments"] == Given(data, "comments", List([]))
    ensures t["attachments"] == Given(data, "attachments", List([]))
    ensures t["history"] == Given(data, "history", List([]))
  {
    var defaults := map["id" := Num(freshId), "createdAt" := Str(now), "status" := Str("Todo"),
                        "progress" := Num(0), "comments" := List([]), "attachments" := List([]),
                        "history" := List([]), "lastUpdated" := Str(now)];
    Spread(defaults, data)
  }

  /** `[...(project.tasks || [])]`: a missing or falsy task list counts as empty; arrays and
      strings can be spread, anything else throws. */
  function ExistingTasks(p: Record): (r: Result<seq<Value>>)
    ensures !Truthy(Prop(p, "tasks")) ==> r == Ok([])
    ensures Prop(p, "tasks").List? ==> r == Ok(Prop(p, "tasks").items)
    ensures r.Thrown? <==> Truthy(Prop(p, "tasks")) && !Prop(p, "tasks").List? && !Prop(p, "tasks").Str?
  {
    Iterate(Or(Prop(p, "tasks"), List([])))
  }

  /** The target project of `addTask`: its tasks with the new one at the end, and a fresh `lastUpdated`. */
  function WithNewTask(p: Record, task: Record, now: string): (r: Result<Record>)
    ensures r.Ok? <==> ExistingTasks(p).Ok?
    ensures r.Ok? ==> r.value.Keys == p.Keys + {"tasks", "lastUpdated"}
    ensures r.Ok? ==> r.value["tasks"] == List(ExistingTasks(p).value + [Obj(task)])
    ensures r.Ok? ==> r.value["lastUpdated"] == Str(now)
    ensures r.Ok? ==> forall k :: k in p && k != "tasks" && k != "lastUpdated" ==> r.value[k] == p[k]
  {
    match ExistingTasks(p)
    case Thrown(e) => Thrown(e)
    case Ok(ts) => Ok(Stamped(p, "tasks", List(ts + [Obj(task)]), now))
  }

  /** `addTask(projectId, taskData)` */
  function TaskAdded(projects: seq<Record>, projectId: Value, taskData: Record, freshId: int, now: string): (r: Result<seq<Record>>)
    ensures r.Ok? <==> forall i :: 0 <= i < |projects| && IdOf(projects[i]) == projectId ==> ExistingTasks(projects[i]).Ok?
    ensures r.Ok? ==> |r.value| == |projects|
    ensures r.Ok? ==> forall i :: 0 <= i < |projects| && IdOf(projects[i]) != projectId ==> r.value[i] == projects[i]
    ensures r.Ok? ==> forall i :: 0 <= i < |projects| && IdOf(projects[i]) == projectId ==>
              r.value[i] == WithNewTask(projects[i], NewTask(taskData, freshId, now), now).value
  {
    AtProject(projects, projectId, p => WithNewTask(p, NewTask(taskData, freshId, now), now))
  }

  /** A project without a task list gets a list holding just the new task. */
  lemma AddTaskToProjectWithoutTasks(p: Record, task: Record, now: string)
    requires "tasks" !in p
    ensures WithNewTask(p, task, now).Ok?
    ensures WithNewTask(p, task, now).value["tasks"] == List([Obj(task)])
  {
    assert [] + [Obj(task)] == [Obj(task)];
  }

  /** The id of a task or attachment that is not undefined or null (`x.id`). */
  function ValueId(x: Value): Value {
    Prop(OwnProps(x), "id")
  }

  /** No entry is undefined or null, so reading `.id` on each of them succeeds. */
  predicate NoNullish(xs: seq<Value>) {
    forall i :: 0 <= i < |xs| ==> !Nullish(xs[i])
  }

  /** The test `x => x.id !== id`, which throws on an undefined or null entry. */
  function KeepOthers(id: Value): Value -> Result<bool> {
    x => match Get(x, "id")
         case Thrown(e) => Thrown(e)
         case Ok(xid) => Ok(xid != id)
  }

  /** The entries whose id differs from `id`. */
  function OtherId(id: Value): Value -> bool {
    x => ValueId(x) != id
  }

  /** `xs.filter(x => x.id !== id)` */
  function FilterOutId(xs: seq<Value>, id: Value): (r: Result<seq<Value>>)
    ensures r.Ok? <==> NoNullish(xs)
    ensures r.Ok? ==> r.value == Where(xs, OtherId(id))
  {
    if NoNullish(xs) then
      FilterRTotal(xs, KeepOthers(id), OtherId(id));
      FilterR(xs, KeepOthers(id))
    else
      FilterR(xs, KeepOthers(id))
  }

  /** Filtering out an id removes every entry carrying it and keeps the others in order. */
  lemma FilterOutIdSpec(xs: seq<Value>, id: Value)
    requires NoNullish(xs)
    ensures var r := FilterOutId(xs, id).value;
      && (forall x :: x in r ==> ValueId(x) != id)
      && (forall x :: x in xs && ValueId(x) != id ==> x in r)
      && Subseq(r, xs)
  {
    var r := Where(xs, OtherId(id));
    assert FilterOutId(xs, id).value == r;
    WhereIsSubseq(xs, OtherId(id));
    forall x ensures x in r <==> x in xs && ValueId(x) != id {
      WhereCount(xs, OtherId(id), x);
      assert x in r <==> x in multiset(r);
      assert x in xs <==> x in multiset(xs);
    }
  }

  /** `tasks.map(t => t.id === taskId ? change(t) : t)`: reading `t.id` throws on an undefined
      or null entry, and `change` may throw. */
  function AtTask(tasks: seq<Value>, taskId: Value, change: Value -> Result<Value>): (r: Result<seq<Value>>)
    ensures r.Ok? <==> forall i :: 0 <= i < |tasks| ==>
              !Nullish(tasks[i]) && (ValueId(tasks[i]) == taskId ==> change(tasks[i]).Ok?)
    ensures r.Ok? ==> |r.value| == |tasks|
    ensures r.Ok? ==> forall i :: 0 <= i < |tasks| && ValueId(tasks[i]) != taskId ==> r.value[i] == tasks[i]
    ensures r.Ok? ==> forall i :: 0 <= i < |tasks| && ValueId(tasks[i]) == taskId ==> r.value[i] == change(tasks[i]).value
  {
    MapR(tasks, t => match Get(t, "id")
                     case Thrown(e) => Thrown(e)
                     case Ok(id) => if id == taskId then change(t) else Ok(t))
  }

  /** `project.tasks.map(...)`: the project's tasks must be an array. */
  function MapTasks(p: Record, taskId: Value, change: Value -> Result<Value>): (r: Result<seq<Value>>)
    ensures r.Ok? <==> Prop(p, "tasks").List? && AtTask(Prop(p, "tasks").items, taskId, change).Ok?
    ensures r.Ok? ==> r == AtTask(Prop(p, "tasks").items, taskId, change)
  {
    match ArrayOf(Prop(p, "tasks"))
    case Thrown(e) => Thrown(e)
    case Ok(ts) => AtTask(ts, taskId, change)
  }

  /** `{ ...task, ...updates }` */
  function PatchTask(t: Value, updates: Record): (r: Value)
    ensures r.Obj?
    ensures forall k :: k in updates ==> Prop(r.fields, k) == updates[k]
    ensures forall k :: k !in updates ==> Prop(r.fields, k) == Prop(OwnProps(t), k)
  {
    Obj(Spread(OwnProps(t), updates))
  }

  /** The target project of `updateTask`: matching tasks patched, and a fresh `lastUpdated`
      for the project whether or not any task matched. */
  function WithTaskPatched(p: Record, taskId: Value, updates: Record, now: string): (r: Result<Record>)
    ensures r.Ok? <==> MapTasks(p, taskId, t => Ok(PatchTask(t, updates))).Ok?
    ensures r.Ok? ==> r.value.Keys == p.Keys + {"tasks", "lastUpdated"}
    ensures r.Ok? ==> r.value["tasks"] == List(MapTasks(p, taskId, t => Ok(PatchTask(t, updates))).value)
    ensures r.Ok? ==> r.value["lastUpdated"] == Str(now)
    ensures r.Ok? ==> forall k :: k in p && k != "tasks" && k != "lastUpdated" ==> r.value[k] == p[k]
  {
    match MapTasks(p, taskId, t => Ok(PatchTask(t, updates)))
    case Thrown(e) => Thrown(e)
    case Ok(ts) => Ok(Stamped(p, "tasks", List(ts), now))
  }

  /** `updateTask(projectId, taskId, updates)` */
  function TaskUpdated(projects: seq<Record>, projectId: Value, taskId: Value, updates: Record, now: string): (r: Result<seq<Record>>)
    ensures r.Ok? <==> forall i :: 0 <= i < |projects| && IdOf(projects[i]) == projectId ==>
              WithTaskPatched(projects[i], taskId, updates, now).Ok?
    ensures r.Ok? ==> |r.value| == |projects|
    ensures r.Ok? ==> forall i :: 0 <= i < |projects| && IdOf(projects[i]) != projectId ==> r.value[i] == projects[i]
    ensures r.Ok? ==> forall i :: 0 <= i < |projects| && IdOf(projects[i]) == projectId ==>
              r.value[i] == WithTaskPatched(projects[i], taskId, updates, now).value
  {
    AtProject(projects, projectId, p => WithTaskPatched(p, taskId, updates, now))
  }

  /** Inside the target project, tasks with another id keep their value and position; the
      matching ones take the patch's fields and keep their others, so a task's own
      `lastUpdated` changes only when the patch carries one. */
  lemma UpdateTaskInProject(p: Record, taskId: Value, updates: Record, now: string)
    requires WithTaskPatched(p, taskId, updates, now).Ok?
    ensures var ts, us := Prop(p, "tasks").items, WithTaskPatched(p, taskId, updates, now).value["tasks"].items;
      && |us| == |ts|
      && (forall i :: 0 <= i < |ts| && ValueId(ts[i]) != taskId ==> us[i] == ts[i])
      && (forall i :: 0 <= i < |ts| && ValueId(ts[i]) == taskId ==>
            us[i].Obj? && Prop(us[i].fields, "lastUpdated") == Given(updates, "lastUpdated", Prop(OwnProps(ts[i]), "lastUpdated")))
  {
    var ts := Prop(p, "tasks").items;
    var us := MapTasks(p, taskId, t => Ok(PatchTask(t, updates))).value;
    forall i | 0 <= i < |ts| && ValueId(ts[i]) == taskId
      ensures us[i].Obj? && Prop(us[i].fields, "lastUpdated") == Given(updates, "lastUpdated", Prop(OwnProps(ts[i]), "lastUpdated"))
    {
      assert us[i] == PatchTask(ts[i], updates);
    }
  }

  /** `(project.tasks || []).filter(task => task.id !== taskId)` */
  function RemainingTasks(p: Record, taskId: Value): (r: Result<seq<Value>>)
    ensures !Truthy(Prop(p, "tasks")) ==> r == Ok([])
    ensures Truthy(Prop(p, "tasks")) && !Prop(p, "tasks").List? ==> r.Thrown?
    ensures Prop(p, "tasks").List? ==> r == FilterOutId(Prop(p, "tasks").items, taskId)
  {
    var tasks := Prop(p, "tasks");
    assert tasks.List? ==> Or(tasks, List([])) == tasks;
    match ArrayOf(Or(tasks, List([])))
    case Thrown(e) => Thrown(e)
    case Ok(ts) => FilterOutId(ts, taskId)
  }

  /** The target project of `deleteTask`, with a fresh `lastUpdated`. */
  function WithoutTask(p: Record, taskId: Value, now: string): (r: Result<Record>)
    ensures r.Ok? <==> RemainingTasks(p, taskId).Ok?
    ensures r.Ok? ==> r.value.Keys == p.Keys + {"tasks", "lastUpdated"}
    ensures r.Ok? ==> r.value["tasks"] == List(RemainingTasks(p, taskId).value)
    ensures r.Ok? ==> r.value["lastUpdated"] == Str(now)
    ensures r.Ok? ==> forall k :: k in p && k != "tasks" && k != "lastUpdated" ==> r.value[k] == p[k]
  {
    var rest := RemainingTasks(p, taskId);
    if rest.Thrown? then Thrown(rest.error)
    else Ok(Stamped(p, "tasks", List(rest.value), now))
  }

  /** `deleteTask(projectId, taskId)` */
  function TaskDeleted(projects: seq<Record>, projectId: Value, taskId: Value, now: string): (r: Result<seq<Record>>)
    ensures r.Ok? <==> forall i :: 0 <= i < |projects| && IdOf(projects[i]) == projectId ==>
              WithoutTask(projects[i], taskId, now).Ok?
    ensures r.Ok? ==> |r.value| == |projects|
    ensures r.Ok? ==> forall i :: 0 <= i < |projects| && IdOf(projects[i]) != projectId ==> r.value[i] == projects[i]
    ensures r.Ok? ==> forall i :: 0 <= i < |projects| && IdOf(projects[i]) == projectId ==>
              r.value[i] == WithoutTask(projects[i], taskId, now).value
  {
    AtProject(projects, projectId, p => WithoutTask(p, taskId, now))
  }

  // ---------------------------------------------------------------------------
  // Attachments

  /** The attachment record `addTaskAttachment` builds from a file. */
  function NewAttachment(file: Record, freshId: int, url: string, now: string): (a: Record)
    ensures a.Keys == {"id", "name", "size", "type", "url", "uploadedAt"}
    ensures a["id"] == Num(freshId) && a["url"] == Str(url) && a["uploadedAt"] == Str(now)
    ensures a["name"] == Prop(file, "name") && a["size"] == Prop(file, "size") && a["type"] == Prop(file, "type")
  {
    map["id" := Num(freshId), "name" := Prop(file, "name"), "size" := Prop(file, "size"),
        "type" := Prop(file, "type"), "url" := Str(url), "uploadedAt" := Str(now)]
  }

  /** `[...(task.attachments || [])]`: missing or falsy attachments count as empty; arrays and
      strings can be spread, anything else throws. */
  function ExistingAttachments(t: Value): (r: Result<seq<Value>>)
    ensures !Truthy(Prop(OwnProps(t), "attachments")) ==> r == Ok([])
    ensures Prop(OwnProps(t), "attachments").List? ==> r == Ok(Prop(OwnProps(t), "attachments").items)
    ensures r.Thrown? <==> Truthy(Prop(OwnProps(t), "attachments")) && !Prop(OwnProps(t), "attachments").List?
                           && !Prop(OwnProps(t), "attachments").Str?
  {
    Iterate(Or(Prop(OwnProps(t), "attachments"), List([])))
  }

  /** The target task of `addTaskAttachment`: its attachments with the new one at the end,
      and a fresh `lastUpdated`. */
  function TaskWithAttachment(t: Value, attachment: Record, now: string): (r: Result<Value>)
    ensures r.Ok? <==> ExistingAttachments(t).Ok?
    ensures r.Ok? ==> r.value.Obj? && r.value.fields.Keys == OwnProps(t).Keys + {"attachments", "lastUpdated"}
    ensures r.Ok? ==> r.value.fields["attachments"] == List(ExistingAttachments(t).value + [Obj(attachment)])
    ensures r.Ok? ==> r.value.fields["lastUpdated"] == Str(now)
    ensures r.Ok? ==> forall k :: k in OwnProps(t) && k != "attachments" && k != "lastUpdated" ==> r.value.fields[k] == OwnProps(t)[k]
  {
    match ExistingAttachments(t)
    case Thrown(e) => Thrown(e)
    case Ok(atts) => Ok(Obj(Stamped(OwnProps(t), "attachments", List(atts + [Obj(attachment)]), now)))
  }

  /** The target project of `addTaskAttachment`. Only its task list is replaced: the project's
      own `lastUpdated` is not refreshed. */
  function WithAttachmentAdded(p: Record, taskId: Value, attachment: Record, now: string): (r: Result<Record>)
    ensures r.Ok? <==> MapTasks(p, taskId, t => TaskWithAttachment(t, attachment, now)).Ok?
    ensures r.Ok? ==> r.value.Keys == p.Keys + {"tasks"}
    ensures r.Ok? ==> r.value["tasks"] == List(MapTasks(p, taskId, t => TaskWithAttachment(t, attachment, now)).value)
    ensures r.Ok? ==> forall k :: k in p && k != "tasks" ==> r.value[k] == p[k]
    ensures r.Ok? ==> Prop(r.value, "lastUpdated") == Prop(p, "lastUpdated")
  {
    match MapTasks(p, taskId, t => TaskWithAttachment(t, attachment, now))
    case Thrown(e) => Thrown(e)
    case Ok(ts) => Ok(p["tasks" := List(ts)])
  }

  /** `addTaskAttachment(projectId, taskId, file)` */
  function AttachmentAdded(projects: seq<Record>, projectId: Value, taskId: Value, file: Record,
                             freshId: int, url: string, now: string): (r: Result<seq<Record>>)
    ensures r.Ok? <==> forall i :: 0 <= i < |projects| && IdOf(projects[i]) == projectId ==>
              WithAttachmentAdded(projects[i], taskId, NewAttachment(file, freshId, url, now), now).Ok?
    ensures r.Ok? ==> |r.value| == |projects|
    ensures r.Ok? ==> forall i :: 0 <= i < |projects| && IdOf(projects[i]) != projectId ==> r.value[i] == projects[i]
    ensures r.Ok? ==> forall i :: 0 <= i < |projects| && IdOf(projects[i]) == projectId ==>
              r.value[i] == WithAttachmentAdded(projects[i], taskId, NewAttachment(file, freshId, url, now), now).value
  {
    AtProject(projects, projectId, p => WithAttachmentAdded(p, taskId, NewAttachment(file, freshId, url, now), now))
  }

  /** `task.attachments.filter(a => a.id !== attachmentId)`: throws unless that task has an
      attachment array. */
  function RemainingAttachments(t: Value, attachmentId: Value): (r: Result<seq<Value>>)
    ensures !Prop(OwnProps(t), "attachments").List? ==> r.Thrown?
    ensures Prop(OwnProps(t), "attachments").List? ==> r == FilterOutId(Prop(OwnProps(t), "attachments").items, attachmentId)
  {
    match ArrayOf(Prop(OwnProps(t), "attachments"))
    case Thrown(e) => Thrown(e)
    case Ok(atts) => FilterOutId(atts, attachmentId)
  }

  /** The target task of `removeTaskAttachment`: the remaining attachments and a fresh `lastUpdated`. */
  function TaskWithoutAttachment(t: Value, attachmentId: Value, now: string): (r: Result<Value>)
    ensures r.Ok? <==> RemainingAttachments(t, attachmentId).Ok?
    ensures r.Ok? ==> r.value.Obj? && r.value.fields.Keys == OwnProps(t).Keys + {"attachments", "lastUpdated"}
    ensures r.Ok? ==> r.value.fields["attachments"] == List(RemainingAttachments(t, attachmentId).value)
    ensures r.Ok? ==> r.value.fields["lastUpdated"] == Str(now)
    ensures r.Ok? ==> forall k :: k in OwnProps(t) && k != "attachments" && k != "lastUpdated" ==> r.value.fields[k] == OwnProps(t)[k]
  {
    var rest := RemainingAttachments(t, attachmentId);
    if rest.Thrown? then Thrown(rest.error)
    else Ok(Obj(Stamped(OwnProps(t), "attachments", List(rest.value), now)))
  }

  /** The target project of `removeTaskAttachment`; as with adding, the project's own
      `lastUpdated` is not refreshed. */
  function WithAttachmentRemoved(p: Record, taskId: Value, attachmentId: Value, now: string): (r: Result<Record>)
    ensures r.Ok? <==> MapTasks(p, taskId, t => TaskWithoutAttachment(t, attachmentId, now)).Ok?
    ensures r.Ok? ==> r.value.Keys == p.Keys + {"tasks"}
    ensures r.Ok? ==> r.value["tasks"] == List(MapTasks(p, taskId, t => TaskWithoutAttachment(t, attachmentId, now)).value)
    ensures r.Ok? ==> forall k :: k in p && k != "tasks" ==> r.value[k] == p[k]
    ensures r.Ok? ==> Prop(r.value, "lastUpdated") == Prop(p, "lastUpdated")
  {
    match MapTasks(p, taskId, t => TaskWithoutAttachment(t, attachmentId, now))
    case Thrown(e) => Thrown(e)
    case Ok(ts) => Ok(p["tasks" := List(ts)])
  }

  /** `removeTaskAttachment(projectId, taskId, attachmentId)` */
  function AttachmentRemoved(projects: seq<Record>, projectId: Value, taskId: Value, attachmentId: Value, now: string): (r: Result<seq<Record>>)
    ensures r.Ok? <==> forall i :: 0 <= i < |projects| && IdOf(projects[i]) == projectId ==>
              WithAttachmentRemoved(projects[i], taskId, attachmentId, now).Ok?
    ensures r.Ok? ==> |r.value| == |projects|
    ensures r.Ok? ==> forall i :: 0 <= i < |projects| && IdOf(projects[i]) != projectId ==> r.value[i] == projects[i]
    ensures r.Ok? ==> forall i :: 0 <= i < |projects| && IdOf(projects[i]) == projectId ==>
              r.value[i] == WithAttachmentRemoved(projects[i], taskId, attachmentId, now).value
  {
    AtProject(projects, projectId, p => WithAttachmentRemoved(p, taskId, attachmentId, now))
  }

  // ---------------------------------------------------------------------------
  // Queries

  /** `getProjectById(projectId)`: the first project with the id, or undefined. */
  function ProjectById(projects: seq<Record>, projectId: Value): (r: Option<Record>)
    ensures r.None? <==> forall i :: 0 <= i < |projects| ==> IdOf(projects[i]) != projectId
    ensures r.Some? ==> exists i :: 0 <= i < |projects| && projects[i] == r.value && IdOf(projects[i]) == projectId
                          && forall j :: 0 <= j < i ==> IdOf(projects[j]) != projectId
  {
    Find(projects, p => IdOf(p) == projectId)
  }

  /** The test `t => t.id === id`, which throws on an undefined or null entry. */
  function HasId(id: Value): Value -> Result<bool> {
    x => match Get(x, "id")
         case Thrown(e) => Thrown(e)
         case Ok(xid) => Ok(xid == id)
  }

  /** `tasks.find(t => t.id === taskId)`, undefined when no task has the id. */
  function FindTask(ts: seq<Value>, taskId: Value): (r: Result<Value>)
    ensures r.Ok? && r.value != Undefined ==> r.value in ts && ValueId(r.value) == taskId
    ensures NoNullish(ts) ==> r.Ok?
    ensures NoNullish(ts) ==> (r == Ok(Undefined) <==> forall i :: 0 <= i < |ts| ==> ValueId(ts[i]) != taskId)
    ensures NoNullish(ts) && r.value != Undefined ==>
              exists i :: 0 <= i < |ts| && ts[i] == r.value && forall j :: 0 <= j < i ==> ValueId(ts[j]) != taskId
  {
    assert NoNullish(ts) ==> forall i :: 0 <= i < |ts| ==> HasId(taskId)(ts[i]) == Ok(ValueId(ts[i]) == taskId);
    match FindR(ts, HasId(taskId))
    case Thrown(e) => Thrown(e)
    case Ok(None) => Ok(Undefined)
    case Ok(Some(t)) => Ok(t)
  }

  /** `getTaskById(projectId, taskId)`, that is `project?.tasks?.find(t => t.id === taskId)`:
      undefined when there is no such project or it has no task list; a task list that is not
      an array has no `find` to call. */
  function TaskById(projects: seq<Record>, projectId: Value, taskId: Value): (r: Result<Value>)
    ensures ProjectById(projects, projectId).None? ==> r == Ok(Undefined)
    ensures ProjectById(projects, projectId).Some? && Nullish(Prop(ProjectById(projects, projectId).value, "tasks")) ==>
              r == Ok(Undefined)
    ensures ProjectById(projects, projectId).Some? && Prop(ProjectById(projects, projectId).value, "tasks").List? ==>
              r == FindTask(Prop(ProjectById(projects, projectId).value, "tasks").items, taskId)
    ensures (ProjectById(projects, projectId).Some? && !Nullish(Prop(ProjectById(projects, projectId).value, "tasks"))
              && !Prop(ProjectById(projects, projectId).value, "tasks").List?) ==> r.Thrown?
  {
    match ProjectById(projects, projectId)
    case None => Ok(Undefined)
    case Some(p) =>
      var tasks := Prop(p, "tasks");
      if Nullish(tasks) then Ok(Undefined)
      else match ArrayOf(tasks)
        case Thrown(e) => Thrown(e)
        case Ok(ts) => FindTask(ts, taskId)
  }

  /** The four due-date choices a task filter understands. */
  datatype DueBucket = Today | ThisWeek | ThisMonth | Overdue

  /** The filters the store starts with: everything shown. */
  function InitialFilters(): Record {
    map["status" := All, "priority" := All, "assignee" := All, "dueDate" := All]
  }

  /** Every one of the four filters is 'all'. */
  predicate Unfiltered(filters: Record) {
    Prop(filters, "status") == All && Prop(filters, "priority") == All
    && Prop(filters, "assignee") == All && Prop(filters, "dueDate") == All
  }

  /** `task.assignees?.includes(assignee)`, read as a condition: no assignee list means not
      included; arrays test membership, strings test for a substring, and anything else has no
      `includes` to call. */
  function Includes(assignees: Value, assignee: Value): (r: Result<bool>)
    ensures Nullish(assignees) ==> r == Ok(false)
    ensures assignees.List? ==> r == Ok(assignee in assignees.items)
    ensures r.Thrown? <==> !Nullish(assignees) && !assignees.List? && !assignees.Str?
  {
    match assignees
    case Undefined => Ok(false)
    case Null => Ok(false)
    case List(xs) => Ok(assignee in xs)
    case Str(s) => Ok(Contains(s, ToStr(assignee)))
    case _ => Thrown(TypeError)
  }

  /** The due-date test for the filter value `due`; the calendar says whether a due date falls
      today, in the current week or month, or before today. Unknown filter values let every
      task through. */
  function DueMatches(dueDate: Value, due: Value, calendar: (Value, DueBucket) -> bool): bool {
    if due == Str("today") then calendar(dueDate, Today)
    else if due == Str("week") then calendar(dueDate, ThisWeek)
    else if due == Str("month") then calendar(dueDate, ThisMonth)
    else if due == Str("overdue") then calendar(dueDate, Overdue)
    else true
  }

  /** What a task must satisfy to be shown: each filter that is not 'all' holds of it. */
  predicate Satisfies(task: Value, filters: Record, calendar: (Value, DueBucket) -> bool) {
    var t := OwnProps(task);
    && (Prop(filters, "status") != All ==> Prop(t, "status") == Prop(filters, "status"))
    && (Prop(filters, "priority") != All ==> Prop(t, "priority") == Prop(filters, "priority"))
    && (Prop(filters, "assignee") != All ==> Includes(Prop(t, "assignees"), Prop(filters, "assignee")) == Ok(true))
    && (Prop(filters, "dueDate") != All ==> DueMatches(Prop(t, "dueDate"), Prop(filters, "dueDate"), calendar))
  }

  /** The callback of `getFilteredTasks`, tests in the source's order; reading a property of
      an undefined or null task throws, but only once some filter is not 'all'. */
  function TaskPasses(task: Value, filters: Record, calendar: (Value, DueBucket) -> bool): (r: Result<bool>)
    ensures Unfiltered(filters) ==> r == Ok(true)
    ensures Nullish(task) ==> (r.Ok? <==> Unfiltered(filters))
    ensures !Nullish(task) ==> (r == Ok(true) <==> Satisfies(task, filters, calendar))
    ensures !Nullish(task) && r.Thrown? ==>
              Prop(filters, "assignee") != All && Includes(Prop(OwnProps(task), "assignees"), Prop(filters, "assignee")).Thrown?
  {
    if Nullish(task) then
      if Unfiltered(filters) then Ok(true) else Thrown(TypeError)
    else
      var t := OwnProps(task);
      var status, priority, assignee, due :=
        Prop(filters, "status"), Prop(filters, "priority"), Prop(filters, "assignee"), Prop(filters, "dueDate");
      if status != All && Prop(t, "status") != status then Ok(false)
      else if priority != All && Prop(t, "priority") != priority then Ok(false)
      else
        var included := if assignee != All then Includes(Prop(t, "assignees"), assignee) else Ok(true);
        if included.Thrown? then Thrown(included.error)
        else if !included.value then Ok(false)
        else if due != All then Ok(DueMatches(Prop(t, "dueDate"), due, calendar))
        else Ok(true)
  }

  function TaskTest(filters: Record, calendar: (Value, DueBucket) -> bool): Value -> Result<bool> {
    t => TaskPasses(t, filters, calendar)
  }

  /** `getFilteredTasks(projectId)` under the given filters: nothing when there is no such
      project or its task list is missing or falsy; otherwise those of its tasks that pass, in order. */
  function FilteredTasks(projects: seq<Record>, projectId: Value, filters: Record,
                         calendar: (Value, DueBucket) -> bool): (r: Result<seq<Value>>)
    ensures ProjectById(projects, projectId).None? ==> r == Ok([])
    ensures ProjectById(projects, projectId).Some? && !Truthy(Prop(ProjectById(projects, projectId).value, "tasks")) ==>
              r == Ok([])
    ensures ProjectById(projects, projectId).Some? && Prop(ProjectById(projects, projectId).value, "tasks").List? ==>
              r == FilterR(Prop(ProjectById(projects, projectId).value, "tasks").items, TaskTest(filters, calendar))
  {
    match ProjectById(projects, projectId)
    case None => Ok([])
    case Some(p) =>
      var tasks := Prop(p, "tasks");
      if !Truthy(tasks) then Ok([])
      else match ArrayOf(tasks)
        case Thrown(e) => Thrown(e)
        case Ok(ts) => FilterR(ts, TaskTest(filters, calendar))
  }

  /** The shown tasks are, in their original order, exactly the project's tasks that pass. */
  lemma FilteredTasksSpec(projects: seq<Record>, projectId: Value, filters: Record,
                          calendar: (Value, DueBucket) -> bool)
    requires ProjectById(projects, projectId).Some?
    requires Prop(ProjectById(projects, projectId).value, "tasks").List?
    requires FilteredTasks(projects, projectId, filters, calendar).Ok?
    ensures var ts, r := Prop(ProjectById(projects, projectId).value, "tasks").items,
                         FilteredTasks(projects, projectId, filters, calendar).value;
      && Subseq(r, ts)
      && (forall t :: t in r ==> TaskPasses(t, filters, calendar) == Ok(true))
      && (forall t :: t in ts && TaskPasses(t, filters, calendar) == Ok(true) ==> t in r)
  {
    var ts := Prop(ProjectById(projects, projectId).value, "tasks").items;
    FilterRSpec(ts, TaskTest(filters, calendar));
  }

  /** With every filter at 'all' a project's task array is shown whole. */
  lemma UnfilteredShowsAll(projects: seq<Record>, projectId: Value, filters: Record,
                           calendar: (Value, DueBucket) -> bool)
    requires Unfiltered(filters)
    requires ProjectById(projects, projectId).Some?
    requires Prop(ProjectById(projects, projectId).value, "tasks").List?
    ensures FilteredTasks(projects, projectId, filters, calendar) == Ok(Prop(ProjectById(projects, projectId).value, "tasks").items)
  {
    var ts := Prop(ProjectById(projects, projectId).value, "tasks").items;
    FilterRTotal(ts, TaskTest(filters, calendar), t => true);
    WhereAll(ts, t => true);
  }

  /** After `deleteProject(projectId)` nothing is reachable under that id. */
  lemma DeletedProjectIsGone(projects: seq<Record>, projectId: Value, taskId: Value, filters: Record,
                             calendar: (Value, DueBucket) -> bool)
    ensures ProjectById(WithoutId(projects, projectId), projectId).None?
    ensures TaskById(WithoutId(projects, projectId), projectId, taskId) == Ok(Undefined)
    ensures FilteredTasks(WithoutId(projects, projectId), projectId, filters, calendar) == Ok([])
  {
    var rest := WithoutId(projects, projectId);
    assert forall i :: 0 <= i < |rest| ==> IdOf(rest[i]) != projectId by {
      forall i | 0 <= i < |rest| ensures IdOf(rest[i]) != projectId {
        assert rest[i] in rest;
      }
    }
  }

  // ---------------------------------------------------------------------------
  // The store

  /** The three deals the store starts with. */
  function SeedDeals(): seq<Record> {
    [ map["id" := Num(1), "deal" := Str("City Center Complex"), "value" := Str("$1.2M"),
          "status" := Str("In Progress"), "progress" := Num(65), "lastUpdated" := Str("2024-03-15"),
          "team" := List([Str("John D."), Str("Sarah M.")]), "priority" := Str("High")],
      map["id" := Num(2), "deal" := Str("Riverside Development"), "value" := Str("$2.5M"),
          "status" := Str("Planning"), "progress" := Num(25), "lastUpdated" := Str("2024-03-14"),
          "team" := List([Str("Emily R."), Str("Michael K.")]), "priority" := Str("Medium")],
      map["id" := Num(3), "deal" := Str("Metro Station Renovation"), "value" := Str("$800K"),
          "status" := Str("Completed"), "progress" := Num(100), "lastUpdated" := Str("2024-03-13"),
          "team" := List([Str("David L.")]), "priority" := Str("Low")] ]
  }

  class Store {
    var projects: seq<Record>
    var selectedProject: Value
    var selectedTask: Value
    var filters: Record
    var view: Value
    var sidebarOpen: Value
    var deals: seq<Record>
    var messages: seq<Record>

    /** The initial state: no projects, nothing selected, every filter at 'all', the list
        view, the sidebar open, the seed deals and no messages. */
    constructor ()
      ensures projects == [] && selectedProject == Null && selectedTask == Null
      ensures filters == InitialFilters() && Unfiltered(filters)
      ensures view == Str("list") && sidebarOpen == Bool(true)
      ensures deals == SeedDeals() && messages == []
    {
      projects := [];
      selectedProject := Null;
      selectedTask := Null;
      filters := InitialFilters();
      view := Str("list");
      sidebarOpen := Bool(true);
      deals := SeedDeals();
      messages := [];
    }

    /** The part of the state that is saved between sessions: the projects, the filters,
        the view and the sidebar; never the selection, the deals or the messages. */
    function Persisted(): (r: Record)
      reads this
      ensures r.Keys == {"projects", "filters", "view", "sidebar"}
      ensures r["projects"] == List(Objects(projects))
      ensures r["filters"] == Obj(filters) && r["view"] == view && r["sidebar"] == Obj(map["isOpen" := sidebarOpen])
    {
      map["projects" := List(Objects(projects)),
          "filters" := Obj(filters),
          "view" := view,
          "sidebar" := Obj(map["isOpen" := sidebarOpen])]
    }

    method SetSidebarOpen(isOpen: Value)
      modifies this`sidebarOpen
      ensures sidebarOpen == isOpen
    {
      sidebarOpen := isOpen;
    }

    /** `addProject(projectData)`: the new project goes at the end. */
    method AddProject(data: Record, freshId: int, now: string)
      modifies this`projects
      ensures projects == old(projects) + [NewProject(data, freshId, now)]
      ensures ProjectById(projects, Given(data, "id", Num(freshId))).Some?
    {
      projects := projects + [NewProject(data, freshId, now)];
      assert IdOf(projects[|projects| - 1]) == Given(data, "id", Num(freshId));
    }

    /** `updateProject(projectId, updates)` */
    method UpdateProject(projectId: Value, updates: Record, now: string)
      modifies this`projects
      ensures projects == ProjectUpdated(old(projects), projectId, updates, now)
    {
      projects := ProjectUpdated(projects, projectId, updates, now);
    }

    /** `deleteProject(projectId)`: afterwards no project, task or filtered task list is found under the id. */
    method DeleteProject(projectId: Value)
      modifies this`projects
      ensures projects == WithoutId(old(projects), projectId)
      ensures ProjectById(projects, projectId).None?
      ensures forall taskId :: TaskById(projects, projectId, taskId) == Ok(Undefined)
    {
      projects := WithoutId(projects, projectId);
      forall taskId ensures TaskById(projects, projectId, taskId) == Ok(Undefined) {
        DeletedProjectIsGone(old(projects), projectId, taskId, filters, (d, b) => true);
      }
    }

    /** Runs one project action that may throw: on success its result becomes the project
        list, on a TypeError the state stays as it was. */
    method Commit(next: Result<seq<Record>>) returns (ok: bool)
      modifies this`projects
      ensures ok == next.Ok?
      ensures ok ==> projects == next.value
      ensures !ok ==> projects == old(projects)
    {
      ok := next.Ok?;
      if ok {
        projects := next.value;
      }
    }

    /** `addTask(projectId, taskData)` */
    method AddTask(projectId: Value, taskData: Record, freshId: int, now: string) returns (ok: bool)
      modifies this`projects
      ensures var next := TaskAdded(old(projects), projectId, taskData, freshId, now);
        ok == next.Ok? && projects == if ok then next.value else old(projects)
    {
      ok := Commit(TaskAdded(projects, projectId, taskData, freshId, now));
    }

    /** `updateTask(projectId, taskId, updates)` */
    method UpdateTask(projectId: Value, taskId: Value, updates: Record, now: string) returns (ok: bool)
      modifies this`projects
      ensures var next := TaskUpdated(old(projects), projectId, taskId, updates, now);
        ok == next.Ok? && projects == if ok then next.value else old(projects)
    {
      ok := Commit(TaskUpdated(projects, projectId, taskId, updates, now));
    }

    /** `deleteTask(projectId, taskId)` */
    method DeleteTask(projectId: Value, taskId: Value, now: string) returns (ok: bool)
      modifies this`projects
      ensures var next := TaskDeleted(old(projects), projectId, taskId, now);
        ok == next.Ok? && projects == if ok then next.value else old(projects)
    {
      ok := Commit(TaskDeleted(projects, projectId, taskId, now));
    }

    /** `addTaskAttachment(projectId, taskId, file)`; `url` is the object URL made for the file. */
    method AddTaskAttachment(projectId: Value, taskId: Value, file: Record, freshId: int, url: string, now: string) returns (ok: bool)
      modifies this`projects
      ensures var next := AttachmentAdded(old(projects), projectId, taskId, file, freshId, url, now);
        ok == next.Ok? && projects == if ok then next.value else old(projects)
    {
      ok := Commit(AttachmentAdded(projects, projectId, taskId, file, freshId, url, now));
    }

    /** `removeTaskAttachment(projectId, taskId, attachmentId)` */
    method RemoveTaskAttachment(projectId: Value, taskId: Value, attachmentId: Value, now: string) returns (ok: bool)
      modifies this`projects
      ensures var next := AttachmentRemoved(old(projects), projectId, taskId, attachmentId, now);
        ok == next.Ok? && projects == if ok then next.value else old(projects)
    {
      ok := Commit(AttachmentRemoved(projects, projectId, taskId, attachmentId, now));
    }

    method SetView(v: Value)
      modifies this`view
      ensures view == v
    {
      view := v;
    }

    method SetFilters(f: Record)
      modifies this`filters
      ensures filters == f
    {
      filters := f;
    }

    /** `setSelectedProject(projectId)`: choosing a project drops the chosen task. */
    method SetSelectedProject(projectId: Value)
      modifies this`selectedProject, this`selectedTask
      ensures selectedProject == projectId && selectedTask == Null
      ensures Persisted() == old(Persisted())
    {
      selectedProject := projectId;
      selectedTask := Null;
    }

    method SetSelectedTask(taskId: Value)
      modifies this`selectedTask
      ensures selectedTask == taskId
      ensures Persisted() == old(Persisted())
    {
      selectedTask := taskId;
    }

    method ClearSelection()
      modifies this`selectedProject, this`selectedTask
      ensures selectedProject == Null && selectedTask == Null
      ensures Persisted() == old(Persisted())
    {
      selectedProject := Null;
      selectedTask := Null;
    }

    /** `getProjectById(projectId)` on the current projects: nothing exactly when no project
        has the id, and otherwise one of the projects, with that id. */
    function ProjectNamed(projectId: Value): (r: Option<Record>)
      reads this
      ensures r.None? <==> forall i :: 0 <= i < |projects| ==> IdOf(projects[i]) != projectId
      ensures r.Some? ==> r.value in projects && IdOf(r.value) == projectId
    {
      ProjectById(projects, projectId)
    }

    /** `getTaskById(projectId, taskId)` on the current projects: undefined when no project has
        the id; a task found is one of that project's tasks, with the task id. */
    function TaskNamed(projectId: Value, taskId: Value): (r: Result<Value>)
      reads this
      ensures ProjectNamed(projectId).None? ==> r == Ok(Undefined)
      ensures r.Ok? && r.value != Undefined ==>
                ProjectNamed(projectId).Some? && Prop(ProjectNamed(projectId).value, "tasks").List?
                && r.value in Prop(ProjectNamed(projectId).value, "tasks").items && ValueId(r.value) == taskId
    {
      TaskById(projects, projectId, taskId)
    }

    /** `getFilteredTasks(projectId)` under the current filters: empty when no project has the
        id; otherwise only tasks of that project that pass the filters, and with the initial
        "all" filters every one of its tasks. */
    function TasksShown(projectId: Value, calendar: (Value, DueBucket) -> bool): (r: Result<seq<Value>>)
      reads this
      ensures ProjectNamed(projectId).None? ==> r == Ok([])
      ensures r.Ok? && ProjectNamed(projectId).Some? && Prop(ProjectNamed(projectId).value, "tasks").List? ==>
                forall t :: t in r.value ==>
                  t in Prop(ProjectNamed(projectId).value, "tasks").items && TaskPasses(t, filters, calendar) == Ok(true)
      ensures Unfiltered(filters) && ProjectNamed(projectId).Some? && Prop(ProjectNamed(projectId).value, "tasks").List? ==>
                r == Ok(Prop(ProjectNamed(projectId).value, "tasks").items)
    {
      var p := ProjectById(projects, projectId);
      var r := FilteredTasks(projects, projectId, filters, calendar);
      if p.Some? && Prop(p.value, "tasks").List? then
        assert r.Ok? ==> forall t :: t in r.value ==> t in Prop(p.value, "tasks").items && TaskPasses(t, filters, calendar) == Ok(true) by {
          if r.Ok? {
            FilteredTasksSpec(projects, projectId, filters, calendar);
            SubseqMembers(r.value, Prop(p.value, "tasks").items);
          }
        }
        assert Unfiltered(filters) ==> r == Ok(Prop(p.value, "tasks").items) by {
          if Unfiltered(filters) {
            UnfilteredShowsAll(projects, projectId, filters, calendar);
          }
        }
        r
      else r
    }

    /** `addDeal(dealData)`: the new deal goes at the end, with a fresh id unless the data has one. */
    method AddDeal(dealData: Record, freshId: int)
      modifies this`deals
      ensures deals == old(deals) + [WithDefaultId(dealData, freshId)]
      ensures Persisted() == old(Persisted())
    {
      deals := deals + [WithDefaultId(dealData, freshId)];
    }

    /** `updateDeal(id, updates)` */
    method UpdateDeal(id: Value, updates: Record)
      modifies this`deals
      ensures deals == PatchId(old(deals), id, updates)
      ensures Persisted() == old(Persisted())
    {
      deals := PatchId(deals, id, updates);
    }

    /** `deleteDeal(id)` */
    method DeleteDeal(id: Value)
      modifies this`deals
      ensures deals == WithoutId(old(deals), id)
      ensures forall d :: d in deals ==> IdOf(d) != id
      ensures Persisted() == old(Persisted())
    {
      deals := WithoutId(deals, id);
    }

    /** `addMessage(message)` */
    method AddMessage(message: Record)
      modifies this`messages
      ensures messages == old(messages) + [message]
      ensures Persisted() == old(Persisted())
    {
      messages := messages + [message];
    }

    /** `deleteMessage(messageId)` */
    method DeleteMessage(messageId: Value)
      modifies this`messages
      ensures messages == WithoutId(old(messages), messageId)
      ensures forall m :: m in messages ==> IdOf(m) != messageId
      ensures Persisted() == old(Persisted())
    {
      messages := WithoutId(messages, messageId);
    }

    /** `updateMessage(messageId, updates)` */
    method UpdateMessage(messageId: Value, updates: Record)
      modifies this`messages
      ensures messages == PatchId(old(messages), messageId, updates)
      ensures Persisted() == old(Persisted())
    {
      messages := PatchId(messages, messageId, updates);
    }
  }
}
