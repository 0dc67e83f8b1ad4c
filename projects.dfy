/** The projects hook: summary statistics over the project list by progress band, the payload
    `createProject` hands to the store, and how each of its async handlers settles. */
module Projects {
  import opened Js
  import opened Collections
  import opened EntityStore
  import opened Notifications

  /** The result of `getProjectStats()`. The completion rate is a percentage. */
  datatype ProjectStats = ProjectStats(total: nat, completed: nat, inProgress: nat, planning: nat, completionRate: real)

  /** `p.progress === 100` */
  predicate IsCompleted(p: Record) {
    Prop(p, "progress") == Num(100)
  }

  /** `p.progress > 0 && p.progress < 100` */
  predicate IsInProgress(p: Record) {
    Less(Num(0), Prop(p, "progress")) && Less(Prop(p, "progress"), Num(100))
  }

  /** `p.progress === 0` */
  predicate IsPlanning(p: Record) {
    Prop(p, "progress") == Num(0)
  }

  /** `total ? (completed / total) * 100 : 0`: the share of completed projects as a percentage. */
  function Rate(completed: nat, total: nat): (rate: real)
    requires completed <= total
    ensures total == 0 ==> rate == 0.0
    ensures total > 0 ==> rate == (completed as real / total as real) * 100.0
    ensures 0.0 <= rate <= 100.0
    ensures rate == 100.0 <==> total > 0 && completed == total
  {
    if total == 0 then 0.0
    else
      var q := completed as real / total as real;
      assert q * total as real == completed as real;
      assert (1.0 - q) * total as real == (total - completed) as real;
      assert completed == total ==> q == 1.0;
      assert completed < total ==> q < 1.0;
      q * 100.0
  }

  /** `getProjectStats()`: how many projects there are, how many sit in each progress band,
      and the share of completed projects as a percentage, 0 when there are no projects. */
  function Stats(projects: seq<Record>): (s: ProjectStats)
    ensures s.total == |projects|
    ensures s.completed == |Where(projects, IsCompleted)|
    ensures s.inProgress == |Where(projects, IsInProgress)|
    ensures s.planning == |Where(projects, IsPlanning)|
    ensures s.completed <= s.total && s.inProgress <= s.total && s.planning <= s.total
    ensures s.total == 0 ==> s.completionRate == 0.0
    ensures s.total > 0 ==> s.completionRate == (s.completed as real / s.total as real) * 100.0
    ensures 0.0 <= s.completionRate <= 100.0
    ensures s.completionRate == 100.0 <==> s.total > 0 && s.completed == s.total
    ensures s.completionRate == 100.0 <==> |projects| > 0 && forall p :: p in projects ==> IsCompleted(p)
  {
    var completed := |Where(projects, IsCompleted)|;
    WhereKeepsAll(projects, IsCompleted);
    ProjectStats(|projects|, completed, |Where(projects, IsInProgress)|, |Where(projects, IsPlanning)|,
                 Rate(completed, |projects|))
  }

  /** A progress that is a whole number from 0 to 100. */
  predicate ProgressInRange(p: Record) {
    Prop(p, "progress").Num? && 0 <= Prop(p, "progress").n <= 100
  }

  /** Each project whose progress is in range sits in exactly one band, so the band lists'
      lengths add up to the list's. */
  lemma {:induction false} BandCounts(projects: seq<Record>)
    requires forall p :: p in projects ==> ProgressInRange(p)
    ensures |Where(projects, IsCompleted)| + |Where(projects, IsInProgress)| + |Where(projects, IsPlanning)| == |projects|
  {
    if projects != [] {
      assert forall p :: p in projects[1..] ==> p in projects;
      BandCounts(projects[1..]);
      assert projects[0] in projects;
      InProgressBand(projects[0]);
    }
  }

  /** For a progress in range the in-progress test is the numeric band 0 < progress < 100. */
  lemma InProgressBand(p: Record)
    requires ProgressInRange(p)
    ensures IsInProgress(p) <==> 0 < Prop(p, "progress").n < 100
  {
  }

  /** When every project's progress lies in [0, 100], each project is in exactly one band, so
      the three band counts add up to the total. */
  lemma BandsPartition(projects: seq<Record>)
    requires forall p :: p in projects ==> ProgressInRange(p)
    ensures var s := Stats(projects); s.completed + s.inProgress + s.planning == s.total
  {
    BandCounts(projects);
  }

  /** What `createProject(projectData)` passes to `addProject`: the caller's data with the
      status, progress, team, task list and creation date overridden. */
  function CreatePayload(data: Record, createdAt: Value): (r: Record)
    ensures r.Keys == data.Keys + {"status", "progress", "team", "tasks", "createdAt"}
    ensures r["status"] == Str("Planning") && r["progress"] == Num(0)
    ensures r["team"] == List([]) && r["tasks"] == List([]) && r["createdAt"] == createdAt
    ensures forall k :: k in data && k !in {"status", "progress", "team", "tasks", "createdAt"} ==> r[k] == data[k]
  {
    Spread(data, map["status" := Str("Planning"), "progress" := Num(0), "team" := List([]),
                     "tasks" := List([]), "createdAt" := createdAt])
  }

  /** The project the store then creates starts in planning at progress 0 with no team and no
      tasks, whatever the caller supplied; its other defaults still apply where the data has none. */
  lemma CreatedProjectShape(data: Record, createdAt: Value, freshId: int, now: string)
    ensures var p := NewProject(CreatePayload(data, createdAt), freshId, now);
      && p["status"] == Str("Planning") && p["progress"] == Num(0)
      && p["team"] == List([]) && p["tasks"] == List([]) && p["createdAt"] == createdAt
      && p["id"] == Given(data, "id", Num(freshId))
      && p["attachments"] == Given(data, "attachments", List([]))
      && IsPlanning(p) && !IsCompleted(p) && !IsInProgress(p)
  {
  }

  /** A freshly created project adds one to the total and one to the planning band. */
  lemma CreatedProjectCountsAsPlanning(projects: seq<Record>, data: Record, createdAt: Value, freshId: int, now: string)
    ensures var before, after := Stats(projects), Stats(projects + [NewProject(CreatePayload(data, createdAt), freshId, now)]);
      && after.total == before.total + 1
      && after.planning == before.planning + 1
      && after.completed == before.completed
      && after.inProgress == before.inProgress
  {
    var p := NewProject(CreatePayload(data, createdAt), freshId, now);
    CreatedProjectShape(data, createdAt, freshId, now);
    WhereAppend(projects, [p], IsCompleted);
    WhereAppend(projects, [p], IsInProgress);
    WhereAppend(projects, [p], IsPlanning);
  }

  /** `createProject(projectData)`: the store's `addProject` never throws, so the new project is
      appended; the promise then resolves to true when `success` returns (`notified`), and
      rejects when it throws. */
  function CreateHandler(notified: bool, projects: seq<Record>, data: Record, createdAt: Value, freshId: int, now: string): (r: (Result<bool>, seq<Record>))
    ensures r.0.Ok? <==> notified
    ensures r.0.Ok? ==> r.0.value
    ensures r.1 == projects + [NewProject(CreatePayload(data, createdAt), freshId, now)]
    ensures IsPlanning(r.1[|projects|])
  {
    CreatedProjectShape(data, createdAt, freshId, now);
    (Settle(notified, true), projects + [NewProject(CreatePayload(data, createdAt), freshId, now)])
  }

  /** As written the store has no `addNotification`: creating a project appends it and then
      rejects, so the caller never sees true. */
  lemma CreateHandlerAsWrittenRejects(projects: seq<Record>, data: Record, createdAt: Value, freshId: int, now: string)
    ensures var r := CreateHandler(Notify(StoreMembers).Ok?, projects, data, createdAt, freshId, now);
      && r.0 == Thrown(TypeError)
      && r.1 == projects + [NewProject(CreatePayload(data, createdAt), freshId, now)]
  {
    NotifyAsWrittenThrows();
  }

  /** With the notification actions in the store, creating a project answers true. */
  lemma CreateHandlerCorrected(projects: seq<Record>, data: Record, createdAt: Value, freshId: int, now: string)
    ensures var r := CreateHandler(Notify(StoreMembers + NotificationActions).Ok?, projects, data, createdAt, freshId, now);
      && r.0 == Ok(true)
      && r.1 == projects + [NewProject(CreatePayload(data, createdAt), freshId, now)]
  {
    NotifyCorrectedReturns();
  }

  /** `updateProjectDetails(id, updates)`: the store's `updateProject` never throws, so the
      matching projects are patched; the promise then resolves to true when `success` returns,
      and rejects when it throws. */
  function UpdateHandler(notified: bool, projects: seq<Record>, id: Value, updates: Record, now: string): (r: (Result<bool>, seq<Record>))
    ensures r.0.Ok? <==> notified
    ensures r.0.Ok? ==> r.0.value
    ensures |r.1| == |projects|
    ensures forall i :: 0 <= i < |projects| && IdOf(projects[i]) != id ==> r.1[i] == projects[i]
    ensures forall i :: 0 <= i < |projects| && IdOf(projects[i]) == id ==> r.1[i] == PatchProject(projects[i], updates, now)
  {
    (Settle(notified, true), ProjectUpdated(projects, id, updates, now))
  }

  /** Calling the store's project-removal action under the name `name`: the store defines
      `deleteProject`, and a name the store does not define (such as `removeProject`) throws. */
  function CallRemoval(name: string, projects: seq<Record>, id: Value): (r: Result<seq<Record>>)
    ensures r.Ok? <==> name == "deleteProject"
    ensures r.Ok? ==> r.value == WithoutId(projects, id)
  {
    if name == "deleteProject" then Ok(WithoutId(projects, id)) else Thrown(TypeError)
  }

  /** The hook's delete handler, for the name it looks the store action up by. When the call
      returns, the list is shortened and the answer is true; when it throws, the list is as it
      was and the catch's answer is false. Either way the promise resolves to that answer when
      the notification returns (`notified`), and rejects when it throws. */
  function DeleteHandler(name: string, notified: bool, projects: seq<Record>, id: Value): (r: (Result<bool>, seq<Record>))
    ensures r.0.Ok? <==> notified
    ensures r.0.Ok? ==> (r.0.value <==> name == "deleteProject")
    ensures name == "deleteProject" ==> r.1 == WithoutId(projects, id)
    ensures name != "deleteProject" ==> r.1 == projects
  {
    match CallRemoval(name, projects, id)
    case Thrown(_) => (Settle(notified, false), projects)
    case Ok(rest) => (Settle(notified, true), rest)
  }

  /** As written, `deleteProject` looks up `removeProject` and the store has no
      `addNotification`: whatever the list and the id, the handler rejects and a project with
      that id is still there. */
  lemma DeleteHandlerAsWrittenFails(projects: seq<Record>, id: Value, k: nat)
    requires k < |projects| && IdOf(projects[k]) == id
    ensures DeleteHandler("removeProject", Notify(StoreMembers).Ok?, projects, id) == (Thrown(TypeError), projects)
    ensures ProjectById(DeleteHandler("removeProject", Notify(StoreMembers).Ok?, projects, id).1, id).Some?
  {
    NotifyAsWrittenThrows();
  }

  /** Looking up the store's `deleteProject` instead, nothing is left under the id, and with
      the notification actions in the store the handler answers true. */
  lemma DeleteHandlerCorrected(projects: seq<Record>, id: Value, taskId: Value)
    ensures DeleteHandler("deleteProject", Notify(StoreMembers + NotificationActions).Ok?, projects, id).0 == Ok(true)
    ensures ProjectById(DeleteHandler("deleteProject", Notify(StoreMembers + NotificationActions).Ok?, projects, id).1, id).None?
    ensures TaskById(DeleteHandler("deleteProject", Notify(StoreMembers + NotificationActions).Ok?, projects, id).1, id, taskId) == Ok(Undefined)
  {
    NotifyCorrectedReturns();
    DeletedProjectIsGone(projects, id, taskId, map[], (d, b) => true);
  }
}
