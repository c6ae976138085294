// Scheduled tasks (api/services/scheduledTask.js, api/models/scheduledTask.js and
// the ScheduledTask schema): the pending, recurring and by-status queries, the
// complete and fail transitions through the generic audited update, and the list
// of recurring frequencies.

module ScheduledTasks {
  import opened Wrappers
  import opened Values
  import opened DocOrdering
  import opened Store
  import opened Schemas
  import opened Lifecycle
  import opened EntityServices

  const TaskEntity := "ScheduledTask"
  const TaskNotFound := "Task not found."

  const Pending := "PENDING"
  const Complete := "COMPLETE"
  const Failed := "FAILED"

  const TaskConfig := ServiceConfig(TaskEntity, Some(["key", "taskService", "taskMethod"]))

  // ---- frequencies -------------------------------------------------------------

  /** `getRecurringFrequencies()`. */
  const RecurringFrequencies: seq<string> := ["minutely", "hourly", "daily", "weekly", "monthly"]

  /** The values the schema accepts for `recurringFrequency` (the empty string for a
    * one-off task). */
  const FrequencyEnum: set<string> := {"minutely", "hourly", "daily", "weekly", "monthly", ""}

  /** The offered frequencies are five distinct values, and they are exactly the
    * schema's non-empty frequency values. */
  lemma FrequenciesMatchSchema()
    ensures |RecurringFrequencies| == 5
    ensures forall i, j :: 0 <= i < j < |RecurringFrequencies| ==> RecurringFrequencies[i] != RecurringFrequencies[j]
    ensures forall f :: f in FrequencyEnum && f != "" <==> f in RecurringFrequencies
  {
    assert RecurringFrequencies[0] == "minutely" && RecurringFrequencies[1] == "hourly";
    assert RecurringFrequencies[2] == "daily" && RecurringFrequencies[3] == "weekly" && RecurringFrequencies[4] == "monthly";
    assert "minutely"[0] == 'm' && "monthly"[1] == 'o' && "minutely"[1] == 'i';
    assert "hourly"[0] == 'h' && "daily"[0] == 'd' && "weekly"[0] == 'w';
  }

  // ---- queries ----------------------------------------------------------------------

  const ByScheduledDate: Ordering := [("scheduledDate", 1)]

  /** Status PENDING and a scheduled date (milliseconds) no later than `now`. */
  predicate IsDue(d: Doc, now: int)
  {
    MatchesField(d, "status", Str(Pending)) &&
    "scheduledDate" in d && d["scheduledDate"].Num? && d["scheduledDate"].n <= now
  }

  /** The due tasks, in their stored order. */
  function Due(docs: seq<Doc>, now: int): seq<Doc>
  {
    Select(docs, d => IsDue(d, now))
  }

  /** `getPendingTasks()` at time `now`. */
  function PendingTasks(docs: seq<Doc>, now: int): seq<Doc>
  {
    SortDocs(Due(docs, now), ByScheduledDate)
  }

  /** The scheduled date of a task that has one. */
  function ScheduledAt(d: Doc): int
  {
    if "scheduledDate" in d && d["scheduledDate"].Num? then d["scheduledDate"].n else 0
  }

  /** In a list ordered by scheduled date whose entries all carry one, the dates
    * never decrease. */
  lemma DatesAscend(s: seq<Doc>, i: int, j: int)
    requires Sorted(s, ByScheduledDate) && 0 <= i < j < |s|
    requires forall d: Doc :: d in s ==> "scheduledDate" in d && d["scheduledDate"].Num?
    ensures ScheduledAt(s[i]) <= ScheduledAt(s[j])
  {
    assert s[i] in s && s[j] in s;
    assert Le(s[i], s[j], ByScheduledDate);
    assert CompareDocs(s[i], s[j], ByScheduledDate) == CompareValues(s[i]["scheduledDate"], s[j]["scheduledDate"]);
  }

  /** The pending tasks are exactly the due ones, each as often as it is stored,
    * earliest scheduled first. */
  lemma PendingExact(docs: seq<Doc>, now: int)
    ensures var r := PendingTasks(docs, now);
      && (forall d :: d in r <==> d in docs && IsDue(d, now))
      && multiset(r) == multiset(Due(docs, now))
      && (forall i, j :: 0 <= i < j < |r| ==> ScheduledAt(r[i]) <= ScheduledAt(r[j]))
  {
    var due := Due(docs, now);
    var r: seq<Doc> := PendingTasks(docs, now);
    SortDocsMembers(due, ByScheduledDate);
    SortDocsSorted(due, ByScheduledDate);
    forall i: int, j: int | 0 <= i < j < |r| ensures ScheduledAt(r[i]) <= ScheduledAt(r[j]) {
      DatesAscend(r, i, j);
    }
  }

  /** `find({field: value}).sort({createdAt: -1})`. */
  function NewestMatching(docs: seq<Doc>, k: string, v: Value): seq<Doc>
  {
    SortDocs(Find(docs, map[k := v]), NewestFirst)
  }

  /** `getRecurringTasks()`. */
  function RecurringTasks(docs: seq<Doc>): seq<Doc>
  {
    NewestMatching(docs, "recurring", Bool(true))
  }

  /** `getTasksByStatus(status)`. */
  function TasksByStatus(docs: seq<Doc>, status: Value): seq<Doc>
  {
    NewestMatching(docs, "status", status)
  }

  /** The listing holds exactly the tasks whose field has the value, newest first. */
  lemma NewestMatchingExact(docs: seq<Doc>, k: string, v: Value)
    ensures var r := NewestMatching(docs, k, v);
      && (forall d :: d in r <==> d in docs && MatchesField(d, k, v))
      && multiset(r) == multiset(Find(docs, map[k := v]))
      && Sorted(r, NewestFirst)
  {
    SortDocsMembers(Find(docs, map[k := v]), NewestFirst);
    SortDocsSorted(Find(docs, map[k := v]), NewestFirst);
    forall d ensures Matches(d, map[k := v]) <==> MatchesField(d, k, v) {
      assert k in map[k := v];
    }
  }

  /** Recurring tasks are those flagged recurring; tasks by status match the exact
    * status; both newest first. */
  lemma RecurringAndStatusExact(docs: seq<Doc>, status: string)
    ensures forall d :: d in RecurringTasks(docs) <==> d in docs && MatchesField(d, "recurring", Bool(true))
    ensures forall d :: d in TasksByStatus(docs, Str(status)) <==> d in docs && MatchesField(d, "status", Str(status))
    ensures Sorted(RecurringTasks(docs), NewestFirst) && Sorted(TasksByStatus(docs, Str(status)), NewestFirst)
  {
    NewestMatchingExact(docs, "recurring", Bool(true));
    NewestMatchingExact(docs, "status", Str(status));
  }

  // ---- transitions -------------------------------------------------------------------

  /** What `completeTask` writes: the status and the time of the attempt. */
  function CompletePatch(now: int): Doc
  {
    map["status" := Str(Complete), "lastAttempt" := Num(now)]
  }

  /** `task.errors || []`. */
  function ErrorsOf(task: Doc): seq<Value>
  {
    if "errors" in task && task["errors"].Arr? then task["errors"].items else []
  }

  /** The stored attempt count; a record without one reads as the schema default 0. */
  function AttemptsOf(task: Doc): int
  {
    if "attempts" in task && task["attempts"].Num? then task["attempts"].n else 0
  }

  function ErrorEntry(error: Value, now: int): Value
  {
    Obj([("message", error), ("date", Num(now))])
  }

  /** What `failTask` writes, computed from the stored task. */
  function FailPatch(task: Doc, error: Value, now: int): Doc
  {
    map["status" := Str(Failed), "lastAttempt" := Num(now),
        "errors" := Arr(ErrorsOf(task) + [ErrorEntry(error, now)]),
        "attempts" := Num(AttemptsOf(task) + 1)]
  }

  /** A completed task is COMPLETE whatever its status was; nothing but the status,
    * the attempt time and the update time changes. */
  lemma CompleteFromAnyStatus(task: Doc, now: int)
    ensures var after := Patched(task, CompletePatch(now), {}, now);
      && "status" in after && after["status"] == Str(Complete)
      && "lastAttempt" in after && after["lastAttempt"] == Num(now)
      && (forall k :: k in task && k !in {"status", "lastAttempt", "updatedAt"} ==> k in after && after[k] == task[k])
  {
    assert "status" in CompletePatch(now) && "lastAttempt" in CompletePatch(now);
  }

  /** A failure appends exactly one error after all earlier ones, counts exactly one
    * more attempt, and leaves the task FAILED. */
  lemma FailAppendsOne(task: Doc, error: Value, now: int)
    ensures var after := Patched(task, FailPatch(task, error, now), {}, now);
      && "status" in after && after["status"] == Str(Failed)
      && ErrorsOf(after) == ErrorsOf(task) + [ErrorEntry(error, now)]
      && AttemptsOf(after) == AttemptsOf(task) + 1
      && (forall k :: k in task && k !in {"status", "lastAttempt", "errors", "attempts", "updatedAt"} ==> k in after && after[k] == task[k])
  {
    var p := FailPatch(task, error, now);
    assert "status" in p && "errors" in p && "attempts" in p;
  }

  /** Two failures in a row keep both messages in order and count two attempts. */
  lemma FailTwice(task: Doc, e1: Value, e2: Value, t1: int, t2: int)
    ensures var once := Patched(task, FailPatch(task, e1, t1), {}, t1);
      var twice := Patched(once, FailPatch(once, e2, t2), {}, t2);
      && ErrorsOf(twice) == ErrorsOf(task) + [ErrorEntry(e1, t1), ErrorEntry(e2, t2)]
      && AttemptsOf(twice) == AttemptsOf(task) + 2
  {
    var once := Patched(task, FailPatch(task, e1, t1), {}, t1);
    FailAppendsOne(task, e1, t1);
    FailAppendsOne(once, e2, t2);
  }

  // ---- the service ---------------------------------------------------------------------

  class ScheduledTaskService {
    const service: EntityService

    ghost predicate Valid()
      reads service.model
    {
      service.Valid() && service.config == TaskConfig
    }

    constructor (service: EntityService)
      ensures this.service == service
    {
      this.service := service;
    }

    /** Exactly the stored tasks that are due, each as often as it is stored,
      * earliest scheduled first. */
    method GetPendingTasks(now: int) returns (r: seq<Doc>)
      ensures forall d :: d in r <==> d in service.model.Documents() && IsDue(d, now)
      ensures multiset(r) == multiset(Due(service.model.Documents(), now))
      ensures forall i, j :: 0 <= i < j < |r| ==> ScheduledAt(r[i]) <= ScheduledAt(r[j])
    {
      r := PendingTasks(service.model.Documents(), now);
      PendingExact(service.model.Documents(), now);
    }

    /** Exactly the stored tasks flagged recurring, newest first. */
    method GetRecurringTasks() returns (r: seq<Doc>)
      ensures forall d :: d in r <==> d in service.model.Documents() && MatchesField(d, "recurring", Bool(true))
      ensures Sorted(r, NewestFirst)
    {
      r := RecurringTasks(service.model.Documents());
      NewestMatchingExact(service.model.Documents(), "recurring", Bool(true));
    }

    /** Exactly the stored tasks with that status, newest first. */
    method GetTasksByStatus(status: Value) returns (r: seq<Doc>)
      ensures forall d :: d in r <==> d in service.model.Documents() && MatchesField(d, "status", status)
      ensures Sorted(r, NewestFirst)
    {
      r := TasksByStatus(service.model.Documents(), status);
      NewestMatchingExact(service.model.Documents(), "status", status);
    }

    /** `completeTask(id)`: no check of the current status; a missing task is the
      * generic update's refusal. */
    method CompleteTask(id: Id, user: Option<Doc>, now: int) returns (r: Result<Doc>)
      requires Valid()
      modifies service.model, service.emitter
      ensures Valid()
      ensures id !in old(service.model.records) ==>
        r == Err("Unable to update " + TaskEntity + "!") &&
        service.model.records == old(service.model.records) && service.emitter.events == old(service.emitter.events)
      ensures id in old(service.model.records) ==>
        && r == Ok(Patched(old(service.model.records)[id], CompletePatch(now), {}, now))
        && service.model.records == old(service.model.records)[id := r.value]
        && service.emitter.events == old(service.emitter.events) +
             [Updated(TaskEntity, id, Some(old(service.model.records)[id]), r.value, user)]
    {
      SchemasByName();
      CastPatchDeclared(TaskSchema, CompletePatch(now));
      r := service.UpdateEntity(id, CompletePatch(now), user, now);
    }

    /** `failTask(id, error)`: the stored task's errors and attempts are extended
      * and written through the audited update. */
    method FailTask(id: Id, error: Value, user: Option<Doc>, now: int) returns (r: Result<Doc>)
      requires Valid()
      modifies service.model, service.emitter
      ensures Valid()
      ensures id !in old(service.model.records) ==>
        r == Err(TaskNotFound) &&
        service.model.records == old(service.model.records) && service.emitter.events == old(service.emitter.events)
      ensures id in old(service.model.records) ==>
        && r == Ok(Patched(old(service.model.records)[id], FailPatch(old(service.model.records)[id], error, now), {}, now))
        && service.model.records == old(service.model.records)[id := r.value]
        && service.emitter.events == old(service.emitter.events) +
             [Updated(TaskEntity, id, Some(old(service.model.records)[id]), r.value, user)]
    {
      var task := service.model.FindById(id);
      if task.None? {
        return Err(TaskNotFound);
      }
      SchemasByName();
      CastPatchDeclared(TaskSchema, FailPatch(task.value, error, now));
      r := service.UpdateEntity(id, FailPatch(task.value, error, now), user, now);
    }
  }
}
