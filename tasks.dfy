/** The task queue endpoints (`/api/tasks`): listing with filters, the
    queue view grouped by status, lookup, creation, partial update with
    write-once timestamps, deletion, and the summary statistics. */
module Tasks {
  import opened Common
  import opened Records
  import opened Query
  import Store

  // ------------------------------------------------------------ ordering

  /** `ORDER BY priority DESC, created_at`: higher priority first, older
      first among equal priorities. */
  predicate QueueOrder(a: Task, b: Task) {
    a.priority > b.priority || (a.priority == b.priority && a.createdAt <= b.createdAt)
  }

  lemma QueueOrderIsTotalPreorder()
    ensures TotalPreorder(QueueOrder)
  {
  }

  // ------------------------------------------------------------- filters

  /** The optional `session_id` filter (skipped when `None` or `""`). */
  function InSession(sessionId: Option<string>): Task -> bool {
    (t: Task) => !Truthy(sessionId) || t.sessionId == sessionId.value
  }

  function HasStatus(status: string): Task -> bool {
    (t: Task) => t.status == status
  }

  /** The three optional filters of the task list; an `agent_id` filter
      never matches a task that has no agent (SQL `NULL = x` is not true). */
  predicate MatchesFilters(t: Task, sessionId: Option<string>, status: Option<string>, agentId: Option<string>) {
    && (Truthy(sessionId) ==> t.sessionId == sessionId.value)
    && (Truthy(status) ==> t.status == status.value)
    && (Truthy(agentId) ==> t.agentId == Some(agentId.value))
  }

  function Matching(sessionId: Option<string>, status: Option<string>, agentId: Option<string>): Task -> bool {
    (t: Task) => MatchesFilters(t, sessionId, status, agentId)
  }

  predicate IsKnownStatus(t: Task) {
    t.status == Pending || t.status == InProgress || t.status == Completed || t.status == Failed
  }

  predicate IsOtherStatus(t: Task) {
    !IsKnownStatus(t)
  }

  // --------------------------------------------------------------- list

  /** `GET /tasks`: exactly the tasks that pass every given filter, as a
      permutation of them ordered by priority descending, then age. */
  function ListTasks(tasks: seq<Task>, sessionId: Option<string>, status: Option<string>, agentId: Option<string>): (r: seq<Task>)
    ensures forall t :: t in r <==> t in tasks && MatchesFilters(t, sessionId, status, agentId)
    ensures multiset(r) == multiset(Filter(tasks, Matching(sessionId, status, agentId)))
    ensures Sorted(r, QueueOrder)
  {
    var selected := Filter(tasks, Matching(sessionId, status, agentId));
    QueueOrderIsTotalPreorder();
    SortBySorted(selected, QueueOrder);
    SortBy(selected, QueueOrder)
  }

  // -------------------------------------------------------------- queue

  /** The bucketing loop shared by the queue view and the dashboard: each
      task goes to the bucket of its status, in the order given; a task
      with any other status is dropped. */
  method BucketByStatus(ordered: seq<Task>) returns (q: TaskQueue)
    ensures q.pending == Filter(ordered, HasStatus(Pending))
    ensures q.inProgress == Filter(ordered, HasStatus(InProgress))
    ensures q.completed == Filter(ordered, HasStatus(Completed))
    ensures q.failed == Filter(ordered, HasStatus(Failed))
  {
    var pending, inProgress, completed, failed := [], [], [], [];
    ghost var seen: seq<Task> := [];
    for i := 0 to |ordered|
      invariant seen == ordered[..i]
      invariant pending == Filter(seen, HasStatus(Pending))
      invariant inProgress == Filter(seen, HasStatus(InProgress))
      invariant completed == Filter(seen, HasStatus(Completed))
      invariant failed == Filter(seen, HasStatus(Failed))
    {
      var task := ordered[i];
      PrefixSnoc(ordered, i);
      ghost var before := TaskQueue(pending, inProgress, completed, failed);
      pending, inProgress, completed, failed := Place(task, pending, inProgress, completed, failed);
      BucketStep(seen, task, Pending, before.pending, pending);
      BucketStep(seen, task, InProgress, before.inProgress, inProgress);
      BucketStep(seen, task, Completed, before.completed, completed);
      BucketStep(seen, task, Failed, before.failed, failed);
      seen := seen + [task];
    }
    assert seen == ordered;
    q := TaskQueue(pending, inProgress, completed, failed);
  }

  /** The `if`/`elif` chain of the bucketing loop: the task is appended to
      the bucket of its status, or to none. */
  method Place(task: Task, pending: seq<Task>, inProgress: seq<Task>, completed: seq<Task>, failed: seq<Task>)
    returns (pending': seq<Task>, inProgress': seq<Task>, completed': seq<Task>, failed': seq<Task>)
    ensures pending' == if task.status == Pending then pending + [task] else pending
    ensures inProgress' == if task.status == InProgress then inProgress + [task] else inProgress
    ensures completed' == if task.status == Completed then completed + [task] else completed
    ensures failed' == if task.status == Failed then failed + [task] else failed
  {
    StatusesDistinct();
    pending', inProgress', completed', failed' := pending, inProgress, completed, failed;
    if task.status == Pending {
      pending' := pending + [task];
    } else if task.status == InProgress {
      inProgress' := inProgress + [task];
    } else if task.status == Completed {
      completed' := completed + [task];
    } else if task.status == Failed {
      failed' := failed + [task];
    }
  }

  /** One step of the bucketing loop, seen from one bucket: the task is
      appended exactly when it has that bucket's status. */
  lemma BucketStep(seen: seq<Task>, task: Task, status: string, before: seq<Task>, after: seq<Task>)
    requires before == Filter(seen, HasStatus(status))
    requires after == if task.status == status then before + [task] else before
    ensures after == Filter(seen + [task], HasStatus(status))
  {
    FilterSnoc(seen, task, HasStatus(status));
  }

  /** Every task lands in at most one bucket: the four bucket sizes plus the
      tasks with any other status add up to the number of tasks. */
  lemma {:induction false} StatusCountsPartition(ts: seq<Task>)
    ensures |Filter(ts, HasStatus(Pending))| + |Filter(ts, HasStatus(InProgress))|
            + |Filter(ts, HasStatus(Completed))| + |Filter(ts, HasStatus(Failed))|
            + |Filter(ts, IsOtherStatus)| == |ts|
  {
    if ts != [] {
      StatusCountsPartition(ts[..|ts| - 1]);
    }
  }

  /** `GET /tasks/queue`: the (optionally session-scoped) tasks in queue
      order, split into the four status buckets; each bucket holds exactly
      the tasks of its status, each as often as the table does, and keeps
      the queue order. */
  method GetTaskQueue(tasks: seq<Task>, sessionId: Option<string>) returns (q: TaskQueue)
    ensures forall t :: t in q.pending <==> t in tasks && InSession(sessionId)(t) && t.status == Pending
    ensures forall t :: t in q.inProgress <==> t in tasks && InSession(sessionId)(t) && t.status == InProgress
    ensures forall t :: t in q.completed <==> t in tasks && InSession(sessionId)(t) && t.status == Completed
    ensures forall t :: t in q.failed <==> t in tasks && InSession(sessionId)(t) && t.status == Failed
    ensures Sorted(q.pending, QueueOrder) && Sorted(q.inProgress, QueueOrder)
    ensures Sorted(q.completed, QueueOrder) && Sorted(q.failed, QueueOrder)
    ensures multiset(q.pending) == multiset(Filter(Filter(tasks, InSession(sessionId)), HasStatus(Pending)))
    ensures multiset(q.inProgress) == multiset(Filter(Filter(tasks, InSession(sessionId)), HasStatus(InProgress)))
    ensures multiset(q.completed) == multiset(Filter(Filter(tasks, InSession(sessionId)), HasStatus(Completed)))
    ensures multiset(q.failed) == multiset(Filter(Filter(tasks, InSession(sessionId)), HasStatus(Failed)))
    ensures |q.pending| + |q.inProgress| + |q.completed| + |q.failed| <= |Filter(tasks, InSession(sessionId))|
  {
    var scoped := Filter(tasks, InSession(sessionId));
    var ordered := SortBy(scoped, QueueOrder);
    q := BucketByStatus(ordered);
    QueueOrderIsTotalPreorder();
    SortBySorted(scoped, QueueOrder);
    BucketOfOrdered(ordered, tasks, sessionId, Pending);
    BucketOfOrdered(ordered, tasks, sessionId, InProgress);
    BucketOfOrdered(ordered, tasks, sessionId, Completed);
    BucketOfOrdered(ordered, tasks, sessionId, Failed);
    StatusCountsPartition(ordered);
    FilterPermutation(ordered, scoped, HasStatus(Pending));
    FilterPermutation(ordered, scoped, HasStatus(InProgress));
    FilterPermutation(ordered, scoped, HasStatus(Completed));
    FilterPermutation(ordered, scoped, HasStatus(Failed));
  }

  /** One bucket of an ordered, session-scoped task list: exactly the scoped
      tasks of that status, still ordered. */
  lemma BucketOfOrdered(ordered: seq<Task>, tasks: seq<Task>, sessionId: Option<string>, status: string)
    requires forall t :: t in ordered <==> t in tasks && InSession(sessionId)(t)
    requires Sorted(ordered, QueueOrder)
    ensures forall t :: t in Filter(ordered, HasStatus(status)) <==> t in tasks && InSession(sessionId)(t) && t.status == status
    ensures Sorted(Filter(ordered, HasStatus(status)), QueueOrder)
  {
    FilterSorted(ordered, HasStatus(status), QueueOrder);
  }

  // ------------------------------------------------------------- lookup

  /** `GET /tasks/{id}`: the task with that id, or 404. */
  function GetTask(tasks: seq<Task>, id: string): (r: Result<Task>)
    ensures r.Ok? ==> r.value in tasks && r.value.id == id
    ensures r.Err? <==> forall t :: t in tasks ==> t.id != id
    ensures r.Err? ==> r.error == NotFound("Task not found")
  {
    match Store.Find(tasks, TaskKey, id)
    case Some(i) => Ok(tasks[i])
    case None => Err(NotFound("Task not found"))
  }

  // ------------------------------------------------------------- create

  /** `POST /tasks`: 404 when the session does not exist; otherwise a new
      `pending` task with no timestamps but its creation time, whatever the
      request says (a taken id makes the insert fail). */
  method CreateTask(db: Store.Database, req: TaskCreate, now: Time) returns (r: Result<Task>)
    requires db.Valid()
    modifies db`tasks
    ensures db.Valid()
    ensures Store.Find(db.sessions, SessionKey, req.sessionId).None? ==>
              r == Err(NotFound("Session not found")) && db.tasks == old(db.tasks)
    ensures (Store.Find(db.sessions, SessionKey, req.sessionId).Some?
             && Store.Find(old(db.tasks), TaskKey, req.id).Some?) ==>
              r == Err(DuplicateKey(req.id)) && db.tasks == old(db.tasks)
    ensures r.Ok? ==> db.tasks == old(db.tasks) + [r.value]
    ensures r.Ok? ==>
              && r.value.id == req.id && r.value.sessionId == req.sessionId
              && r.value.agentId == req.agentId && r.value.taskType == req.taskType
              && r.value.priority == req.priority.GetOr(DefaultTaskPriority)
              && r.value.payload == req.payload
              && r.value.status == Pending && r.value.result == None
              && r.value.createdAt == now
              && r.value.startedAt == None && r.value.completedAt == None
    ensures (Store.Find(db.sessions, SessionKey, req.sessionId).Some?
             && Store.Find(old(db.tasks), TaskKey, req.id).None?) ==> r.Ok?
  {
    if Store.Find(db.sessions, SessionKey, req.sessionId).None? {
      return Err(NotFound("Session not found"));
    }
    var task := Task(
      req.id, req.sessionId, req.agentId, req.taskType, Pending,
      req.priority.GetOr(DefaultTaskPriority), req.payload, None, now, None, None);
    if Store.Find(db.tasks, TaskKey, req.id).Some? {
      return Err(DuplicateKey(req.id));
    }
    Store.AppendFreshKey(db.tasks, TaskKey, task);
    db.tasks := db.tasks + [task];
    r := Ok(task);
  }

  // ------------------------------------------------------------- update

  /** The stamping rule run before the fields are written: a move to
      `in_progress` stamps `started_at` if unset, a move to `completed` or
      `failed` stamps `completed_at` if unset. */
  function Stamped(t: Task, u: TaskUpdate, now: Time): (r: Task)
    ensures r == t.(startedAt := r.startedAt, completedAt := r.completedAt)
    ensures t.startedAt.Some? ==> r.startedAt == t.startedAt
    ensures t.completedAt.Some? ==> r.completedAt == t.completedAt
    ensures r.startedAt == t.startedAt || r.completedAt == t.completedAt
    ensures r.startedAt != t.startedAt ==> u.status == Provided(InProgress) && r.startedAt == Some(now)
    ensures r.completedAt != t.completedAt ==>
              (u.status == Provided(Completed) || u.status == Provided(Failed)) && r.completedAt == Some(now)
  {
    match u.status
    case Omitted => t
    case Provided(s) =>
      if s == InProgress && t.startedAt.None? then t.(startedAt := Some(now))
      else if (s == Completed || s == Failed) && t.completedAt.None? then t.(completedAt := Some(now))
      else t
  }

  /** The task after a PATCH: the given fields overwritten, the rest and the
      identity untouched, the two timestamps written at most once. */
  function UpdatedTask(t: Task, u: TaskUpdate, now: Time): (r: Task)
    ensures r.id == t.id && r.sessionId == t.sessionId && r.taskType == t.taskType
    ensures r.priority == t.priority && r.payload == t.payload && r.createdAt == t.createdAt
    ensures r.status == u.status.GetOr(t.status)
    ensures r.agentId == u.agentId.GetOr(t.agentId)
    ensures r.result == u.result.GetOr(t.result)
    ensures t.startedAt.Some? ==> r.startedAt == t.startedAt
    ensures t.completedAt.Some? ==> r.completedAt == t.completedAt
    ensures t.startedAt.None? ==> r.startedAt == if u.status == Provided(InProgress) then Some(now) else None
    ensures t.completedAt.None? ==>
              r.completedAt == if u.status == Provided(Completed) || u.status == Provided(Failed) then Some(now) else None
  {
    var s := Stamped(t, u, now);
    s.(status := u.status.GetOr(s.status), agentId := u.agentId.GetOr(s.agentId), result := u.result.GetOr(s.result))
  }

  /** One item of `update_data.model_dump(exclude_unset=True)`. */
  datatype TaskField = StatusField(status: string) | AgentIdField(agentId: Option<string>) | ResultField(result: Option<Json>)

  /** Which attribute a field item writes. */
  function Kind(f: TaskField): nat {
    match f
    case StatusField(_) => 0
    case AgentIdField(_) => 1
    case ResultField(_) => 2
  }

  /** The attributes a sequence of field items writes. */
  function Kinds(fs: seq<TaskField>): set<nat> {
    set f | f in fs :: Kind(f)
  }

  /** The attributes written from position `i` on: the one at `i` and
      those after it. */
  lemma KindsFrom(fs: seq<TaskField>, i: nat)
    requires i < |fs|
    ensures Kinds(fs[i..]) == {Kind(fs[i])} + Kinds(fs[i + 1..])
  {
    assert fs[i..] == [fs[i]] + fs[i + 1..];
  }

  /** The given fields of an update, each with its value, in the schema's
      declaration order. */
  function GivenFields(u: TaskUpdate): seq<TaskField> {
    var status := match u.status case Provided(s) => [StatusField(s)] case Omitted => [];
    var agentId := match u.agentId case Provided(a) => [AgentIdField(a)] case Omitted => [];
    var result := match u.result case Provided(x) => [ResultField(x)] case Omitted => [];
    status + agentId + result
  }

  /** Every field item carries the value the client sent for it. */
  lemma GivenFieldValue(u: TaskUpdate, f: TaskField)
    requires f in GivenFields(u)
    ensures match f
            case StatusField(s) => u.status == Provided(s)
            case AgentIdField(a) => u.agentId == Provided(a)
            case ResultField(x) => u.result == Provided(x)
  {
  }

  /** An update's field items write exactly the attributes the client sent. */
  lemma GivenFieldsKinds(u: TaskUpdate)
    ensures 0 in Kinds(GivenFields(u)) <==> u.status.Provided?
    ensures 1 in Kinds(GivenFields(u)) <==> u.agentId.Provided?
    ensures 2 in Kinds(GivenFields(u)) <==> u.result.Provided?
  {
    var fs := GivenFields(u);
    if u.status.Provided? {
      assert StatusField(u.status.value) in fs;
    }
    if u.agentId.Provided? {
      assert AgentIdField(u.agentId.value) in fs;
    }
    if u.result.Provided? {
      assert ResultField(u.result.value) in fs;
    }
  }

  /** The body of `update_task` on a found row: stamp the timestamps, then
      `setattr` every given field in turn. */
  method ApplyTaskUpdate(t: Task, u: TaskUpdate, now: Time) returns (r: Task)
    ensures r == UpdatedTask(t, u, now)
  {
    var stamped := t;
    if u.status.Provided? {
      var newStatus := u.status.value;
      if newStatus == InProgress && stamped.startedAt.None? {
        stamped := stamped.(startedAt := Some(now));
      } else if (newStatus == Completed || newStatus == Failed) && stamped.completedAt.None? {
        stamped := stamped.(completedAt := Some(now));
      }
    }
    var status, agentId, result := stamped.status, stamped.agentId, stamped.result;
    var fields := GivenFields(u);
    GivenFieldsKinds(u);
    for i := 0 to |fields|
      invariant 0 !in Kinds(fields[i..]) ==> status == u.status.GetOr(stamped.status)
      invariant 1 !in Kinds(fields[i..]) ==> agentId == u.agentId.GetOr(stamped.agentId)
      invariant 2 !in Kinds(fields[i..]) ==> result == u.result.GetOr(stamped.result)
    {
      KindsFrom(fields, i);
      GivenFieldValue(u, fields[i]);
      match fields[i]
      case StatusField(s) => status := s;
      case AgentIdField(a) => agentId := a;
      case ResultField(x) => result := x;
    }
    r := stamped.(status := status, agentId := agentId, result := result);
  }

  /** `PATCH /tasks/{id}`: 404 and no change for an unknown id; otherwise
      the row is replaced by its updated version. */
  method UpdateTask(db: Store.Database, id: string, u: TaskUpdate, now: Time) returns (r: Result<Task>)
    requires db.Valid()
    modifies db`tasks
    ensures db.Valid()
    ensures Store.Find(old(db.tasks), TaskKey, id).None? ==>
              r == Err(NotFound("Task not found")) && db.tasks == old(db.tasks)
    ensures Store.Find(old(db.tasks), TaskKey, id).Some? ==>
              var i := Store.Find(old(db.tasks), TaskKey, id).value;
              && r == Ok(UpdatedTask(old(db.tasks)[i], u, now))
              && db.tasks == old(db.tasks)[i := r.value]
  {
    var found := Store.Find(db.tasks, TaskKey, id);
    if found.None? {
      return Err(NotFound("Task not found"));
    }
    var i := found.value;
    var task := ApplyTaskUpdate(db.tasks[i], u, now);
    Store.ReplaceSameKey(db.tasks, TaskKey, i, task);
    db.tasks := db.tasks[i := task];
    r := Ok(task);
  }

  /** The time of the first update in `us` whose status is one of `statuses`. */
  function FirstTimeWith(us: seq<(TaskUpdate, Time)>, statuses: set<string>): Option<Time> {
    if us == [] then None
    else if us[0].0.status.Provided? && us[0].0.status.value in statuses then Some(us[0].1)
    else FirstTimeWith(us[1..], statuses)
  }

  /** A run of PATCH requests, each with the clock value it was served at. */
  function ApplyUpdates(t: Task, us: seq<(TaskUpdate, Time)>): Task
    decreases |us|
  {
    if us == [] then t else ApplyUpdates(UpdatedTask(t, us[0].0, us[0].1), us[1..])
  }

  /** Over any run of updates, `started_at` keeps its value once set, and
      otherwise ends up as the time of the first move to `in_progress`. */
  lemma {:induction false} StartedAtIsFirstStart(t: Task, us: seq<(TaskUpdate, Time)>)
    ensures ApplyUpdates(t, us).startedAt ==
              if t.startedAt.Some? then t.startedAt else FirstTimeWith(us, {InProgress})
    decreases |us|
  {
    if us != [] {
      StartedAtIsFirstStart(UpdatedTask(t, us[0].0, us[0].1), us[1..]);
    }
  }

  /** Over any run of updates, `completed_at` keeps its value once set, and
      otherwise ends up as the time of the first move to `completed` or
      `failed`: repeating the transition keeps the first timestamp. */
  lemma {:induction false} CompletedAtIsFirstFinish(t: Task, us: seq<(TaskUpdate, Time)>)
    ensures ApplyUpdates(t, us).completedAt ==
              if t.completedAt.Some? then t.completedAt else FirstTimeWith(us, {Completed, Failed})
    decreases |us|
  {
    if us != [] {
      CompletedAtIsFirstFinish(UpdatedTask(t, us[0].0, us[0].1), us[1..]);
    }
  }

  /** No run of updates changes what identifies a task or what it was
      created with. */
  lemma {:induction false} UpdatesKeepIdentity(t: Task, us: seq<(TaskUpdate, Time)>)
    ensures var r := ApplyUpdates(t, us);
            && r.id == t.id && r.sessionId == t.sessionId && r.taskType == t.taskType
            && r.priority == t.priority && r.payload == t.payload && r.createdAt == t.createdAt
    decreases |us|
  {
    if us != [] {
      UpdatesKeepIdentity(UpdatedTask(t, us[0].0, us[0].1), us[1..]);
    }
  }

  // ------------------------------------------------------------- delete

  /** `DELETE /tasks/{id}`: 404 and no change for an unknown id; otherwise
      the row is gone and its id no longer found. */
  method DeleteTask(db: Store.Database, id: string) returns (r: Result<string>)
    requires db.Valid()
    modifies db`tasks
    ensures db.Valid()
    ensures Store.Find(old(db.tasks), TaskKey, id).None? ==>
              r == Err(NotFound("Task not found")) && db.tasks == old(db.tasks)
    ensures Store.Find(old(db.tasks), TaskKey, id).Some? ==>
              && r == Ok(id)
              && db.tasks == Store.RemoveAt(old(db.tasks), Store.Find(old(db.tasks), TaskKey, id).value)
              && GetTask(db.tasks, id) == Err(NotFound("Task not found"))
  {
    var found := Store.Find(db.tasks, TaskKey, id);
    if found.None? {
      return Err(NotFound("Task not found"));
    }
    Store.RemoveAtForgetsKey(db.tasks, TaskKey, found.value);
    db.tasks := Store.RemoveAt(db.tasks, found.value);
    r := Ok(id);
  }

  // -------------------------------------------------------------- stats

  /** A completed task that has both timestamps: it enters the average
      completion time. */
  predicate IsTimedCompletion(t: Task) {
    t.status == Completed && t.startedAt.Some? && t.completedAt.Some?
  }

  /** Sum of `completed_at - started_at` over the tasks with both stamps. */
  function TotalDuration(ts: seq<Task>): int {
    if ts == [] then 0
    else
      var last := ts[|ts| - 1];
      TotalDuration(ts[..|ts| - 1])
      + (if last.startedAt.Some? && last.completedAt.Some? then last.completedAt.value - last.startedAt.value else 0)
  }

  /** An average kept as sum and count: `NoSamples` is the source's 0. */
  datatype Mean = NoSamples | MeanOf(totalSeconds: int, samples: nat)

  /** The average completion time of the completed tasks with both stamps. */
  function MeanCompletionTime(ts: seq<Task>): (m: Mean)
    ensures m.NoSamples? <==> forall t :: t in ts ==> !IsTimedCompletion(t)
    ensures m.MeanOf? ==> m.samples == |Filter(ts, IsTimedCompletion)| > 0
  {
    var timed := Filter(ts, IsTimedCompletion);
    if timed == [] then NoSamples
    else
      assert timed[0] in ts;
      MeanOf(TotalDuration(timed), |timed|)
  }

  datatype TaskStats = TaskStats(
    total: nat, pending: nat, inProgress: nat, completed: nat, failed: nat,
    avgCompletionTime: Mean)

  /** `GET /tasks/stats/summary`: the number of (optionally session-scoped)
      tasks, how many have each of the four statuses (at most the total
      between them), and the average completion time (0 when no completed
      task has both timestamps). */
  function GetTaskStats(tasks: seq<Task>, sessionId: Option<string>): (s: TaskStats)
    ensures s.total == |Filter(tasks, InSession(sessionId))|
    ensures s.pending == |Filter(Filter(tasks, InSession(sessionId)), HasStatus(Pending))|
    ensures s.inProgress == |Filter(Filter(tasks, InSession(sessionId)), HasStatus(InProgress))|
    ensures s.completed == |Filter(Filter(tasks, InSession(sessionId)), HasStatus(Completed))|
    ensures s.failed == |Filter(Filter(tasks, InSession(sessionId)), HasStatus(Failed))|
    ensures s.pending + s.inProgress + s.completed + s.failed <= s.total
    ensures s.avgCompletionTime.NoSamples? <==>
              forall t :: t in tasks && InSession(sessionId)(t) ==> !IsTimedCompletion(t)
  {
    var scoped := Filter(tasks, InSession(sessionId));
    StatusCountsPartition(scoped);
    TaskStats(
      |scoped|,
      |Filter(scoped, HasStatus(Pending))|,
      |Filter(scoped, HasStatus(InProgress))|,
      |Filter(scoped, HasStatus(Completed))|,
      |Filter(scoped, HasStatus(Failed))|,
      MeanCompletionTime(scoped))
  }
}
