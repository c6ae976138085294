// Database backup and restore operations (api/services/databaseBackup.js and the
// DatabaseBackup model): the searchable fields, the active operations, and the
// cancellation of an operation that has not finished.

module DatabaseBackups {
  import opened Wrappers
  import opened Strings
  import opened Values
  import opened DocOrdering
  import opened Store
  import opened Schemas
  import opened Lifecycle
  import opened EntityServices

  const BackupEntity := "DatabaseBackup"
  const OperationNotFound := "Operation not found."
  const NotCancellable := "Only pending or processing operations can be cancelled."

  /** `getSearchFields()`: the key, the name and the backup path. */
  const BackupConfig := ServiceConfig(BackupEntity, Some(["key", "name", "backupPath"]))

  /** A non-empty term finds exactly the operations whose key, name or backup path
    * matches it. */
  lemma SearchFindsPath(docs: seq<Doc>, term: string)
    requires term != ""
    ensures SearchDocs(docs, SearchFields(BackupConfig), Str(term)).Ok?
    ensures forall d :: d in SearchDocs(docs, SearchFields(BackupConfig), Str(term)).value <==> (d in docs &&
      (("key" in d && MatchesTerm(d["key"], term)) || ("name" in d && MatchesTerm(d["name"], term)) ||
       ("backupPath" in d && MatchesTerm(d["backupPath"], term))))
  {
    var fields := SearchFields(BackupConfig);
    assert fields == ["key", "name", "backupPath"];
    assert Truthy(Str(term));
    forall d ensures Hit(d, fields, term) <==> (("key" in d && MatchesTerm(d["key"], term)) ||
      ("name" in d && MatchesTerm(d["name"], term)) || ("backupPath" in d && MatchesTerm(d["backupPath"], term)))
    {
      assert fields[0] == "key" && fields[1] == "name" && fields[2] == "backupPath";
    }
  }

  const ActiveStatuses: set<Value> := {Str("pending"), Str("processing")}

  /** A status the operation may still be cancelled from. */
  predicate Cancellable(operation: Doc)
  {
    "status" in operation && operation["status"] in ActiveStatuses
  }

  /** `getActiveOperations()`: `status $in [pending, processing]`, newest first. */
  predicate Active(d: Doc)
  {
    "status" in d && (d["status"] in ActiveStatuses ||
      (d["status"].Arr? && (Str("pending") in d["status"].items || Str("processing") in d["status"].items)))
  }

  function ActiveOperations(docs: seq<Doc>): seq<Doc>
  {
    SortDocs(Select(docs, Active), NewestFirst)
  }

  /** The active operations are exactly those whose status is pending or
    * processing (or an array holding one of them), newest first; for a status that
    * is not an array, active and cancellable are the same. */
  lemma CancellableIsActive(docs: seq<Doc>)
    ensures forall d :: d in ActiveOperations(docs) <==> d in docs && Active(d)
    ensures forall d :: d in docs && Cancellable(d) ==> d in ActiveOperations(docs)
    ensures forall d: Doc :: "status" in d && !d["status"].Arr? ==> (Active(d) <==> Cancellable(d))
    ensures Sorted(ActiveOperations(docs), NewestFirst)
  {
    SortDocsMembers(Select(docs, Active), NewestFirst);
    SortDocsSorted(Select(docs, Active), NewestFirst);
  }

  const CancelPatch: Doc := map["status" := Str("cancelled")]

  /** What `cancelOperation` decides before it writes. */
  function CancelCheck(records: map<Id, Doc>, id: Id): (r: Result<Doc>)
    ensures r.Ok? <==> id in records && Cancellable(records[id])
    ensures id !in records ==> r == Err(OperationNotFound)
    ensures id in records && !Cancellable(records[id]) ==> r == Err(NotCancellable)
  {
    if id !in records then Err(OperationNotFound)
    else if !Cancellable(records[id]) then Err(NotCancellable)
    else Ok(CancelPatch)
  }

  /** A backup posted with only a name is stored `pending` by its schema, so it is
    * active and can be cancelled. */
  lemma NamedBackupCancellable(name: string, id: Id, now: int)
    ensures var saved := Stamped(Cast(BackupSchema, map["name" := Str(name)], now), id, now);
      Active(saved) && CancelCheck(map[id := saved], id).Ok?
  {
    var data := map["name" := Str(name)];
    var cast := Cast(BackupSchema, data, now);
    assert "status" in Paths(BackupSchema);
    assert "status" in Defaults(BackupSchema) && Defaults(BackupSchema)["status"] == Str("pending");
    assert "status" in cast && "status" !in data;
    assert cast["status"] == Str("pending");
  }

  /** A cancelled operation is no longer active, keeps every other field, and can
    * not be cancelled again. */
  lemma CancelEndsOperation(records: map<Id, Doc>, id: Id, now: int)
    requires CancelCheck(records, id).Ok?
    ensures var after := Patched(records[id], CancelPatch, {}, now);
      && !Active(after)
      && (forall k :: k in records[id] && k != "status" && k != "updatedAt" ==> k in after && after[k] == records[id][k])
      && CancelCheck(records[id := after], id) == Err(NotCancellable)
  {
    assert "status" in CancelPatch;
  }

  class DatabaseBackupService {
    const service: EntityService

    ghost predicate Valid()
      reads service.model
    {
      service.Valid() && service.config == BackupConfig
    }

    constructor (service: EntityService)
      ensures this.service == service
    {
      this.service := service;
    }

    /** Exactly the stored operations still pending or processing, newest first. */
    method GetActiveOperations() returns (r: seq<Doc>)
      ensures forall d :: d in r <==> d in service.model.Documents() && Active(d)
      ensures forall d :: d in service.model.Documents() && Cancellable(d) ==> d in r
      ensures Sorted(r, NewestFirst)
    {
      r := ActiveOperations(service.model.Documents());
      CancellableIsActive(service.model.Documents());
    }

    /** `cancelOperation(id)`: only the status changes, through the audited update. */
    method CancelOperation(id: Id, user: Option<Doc>, now: int) returns (r: Result<Doc>)
      requires Valid()
      modifies service.model, service.emitter
      ensures Valid()
      ensures CancelCheck(old(service.model.records), id).Err? ==>
        r == Err(CancelCheck(old(service.model.records), id).msg) &&
        service.model.records == old(service.model.records) && service.emitter.events == old(service.emitter.events)
      ensures CancelCheck(old(service.model.records), id).Ok? ==>
        && r == Ok(Patched(old(service.model.records)[id], CancelPatch, {}, now))
        && service.model.records == old(service.model.records)[id := r.value]
        && service.emitter.events == old(service.emitter.events) +
             [Updated(BackupEntity, id, Some(old(service.model.records)[id]), r.value, user)]
    {
      var check := CancelCheck(service.model.records, id);
      if check.Err? {
        return Err(check.msg);
      }
      SchemasByName();
      CastPatchDeclared(BackupSchema, CancelPatch);
      r := service.UpdateEntity(id, CancelPatch, user, now);
    }
  }
}
