// Data migrations (api/services/dataMigration.js): the progress summary of one
// migration and its cancellation, which only a pending or processing migration
// allows and which goes through the generic audited update.

module DataMigrations {
  import opened Wrappers
  import opened Values
  import opened Store
  import opened Schemas
  import opened Lifecycle
  import opened EntityServices

  const MigrationEntity := "DataMigration"
  const MigrationNotFound := "Migration not found."
  const NotCancellable := "Only pending or processing migrations can be cancelled."

  const MigrationConfig := ServiceConfig(MigrationEntity, Some(["key", "migrator", "label"]))

  /** The fields the progress summary copies. */
  const ProgressFields: set<string> :=
    {"status", "percentComplete", "totalRows", "totalRowsMigrated", "totalRowsFailed", "totalRowsSkipped", "complete"}

  /** `getMigrationProgress`'s summary; a field the record lacks is left out, as
    * an undefined property is when the summary is sent. */
  function Progress(migration: Doc): (p: Doc)
    ensures forall k :: k in p <==> k in migration && k in ProgressFields
    ensures forall k :: k in p ==> p[k] == migration[k]
  {
    map k | k in migration && k in ProgressFields :: migration[k]
  }

  function ProgressOf(records: map<Id, Doc>, id: Id): Result<Doc>
  {
    if id in records then Ok(Progress(records[id])) else Err(MigrationNotFound)
  }

  /** `['pending', 'processing'].includes(status)`. */
  predicate Cancellable(migration: Doc)
  {
    "status" in migration && migration["status"] in {Str("pending"), Str("processing")}
  }

  const CancelPatch: Doc := map["status" := Str("cancelled")]

  /** What `cancelMigration` decides before it writes: a missing migration, a
    * migration past cancelling, or the patch to apply. */
  function CancelCheck(records: map<Id, Doc>, id: Id): (r: Result<Doc>)
    ensures r.Ok? <==> id in records && Cancellable(records[id])
    ensures id !in records ==> r == Err(MigrationNotFound)
    ensures id in records && !Cancellable(records[id]) ==> r == Err(NotCancellable)
  {
    if id !in records then Err(MigrationNotFound)
    else if !Cancellable(records[id]) then Err(NotCancellable)
    else Ok(CancelPatch)
  }

  /** A cancelled migration reports the status `cancelled` and otherwise the same
    * progress as before; it can not be cancelled again. */
  lemma CancelShowsInProgress(migration: Doc, now: int)
    ensures var after := Patched(migration, CancelPatch, {}, now);
      && Progress(after) == Progress(migration)["status" := Str("cancelled")]
      && !Cancellable(after)
  {
    CancelledStatus(migration, now);
    CancelledProgress(migration, now);
  }

  lemma CancelledStatus(migration: Doc, now: int)
    ensures var after := Patched(migration, CancelPatch, {}, now);
      "status" in after && after["status"] == Str("cancelled") && !Cancellable(after)
  {
    assert "status" in CancelPatch;
  }

  lemma CancelledProgress(migration: Doc, now: int)
    ensures Progress(Patched(migration, CancelPatch, {}, now)) == Progress(migration)["status" := Str("cancelled")]
  {
    var after := Patched(migration, CancelPatch, {}, now);
    CancelledStatus(migration, now);
    assert "updatedAt" !in ProgressFields;
    forall k | k in ProgressFields && k != "status" ensures (k in after <==> k in migration) && (k in after ==> after[k] == migration[k]) {
    }
  }

  /** A second cancellation of the same migration is refused. */
  lemma CancelOnce(records: map<Id, Doc>, id: Id, now: int)
    requires CancelCheck(records, id).Ok?
    ensures CancelCheck(records[id := Patched(records[id], CancelPatch, {}, now)], id) == Err(NotCancellable)
  {
    CancelShowsInProgress(records[id], now);
  }

  class DataMigrationService {
    const service: EntityService

    ghost predicate Valid()
      reads service.model
    {
      service.Valid() && service.config == MigrationConfig
    }

    constructor (service: EntityService)
      ensures this.service == service
    {
      this.service := service;
    }

    method GetMigrationProgress(id: Id) returns (r: Result<Doc>)
      ensures r == ProgressOf(service.model.records, id)
    {
      var migration := service.model.FindById(id);
      if migration.None? {
        return Err(MigrationNotFound);
      }
      r := Ok(Progress(migration.value));
    }

    /** `cancelMigration(id)`: only the status changes, through the audited update. */
    method CancelMigration(id: Id, user: Option<Doc>, now: int) returns (r: Result<Doc>)
      requires Valid()
      modifies service.model, service.emitter
      ensures Valid()
      ensures CancelCheck(old(service.model.records), id).Err? ==>
        r == Err(CancelCheck(old(service.model.records), id).msg) &&
        service.model.records == old(service.model.records) && service.emitter.events == old(service.emitter.events)
      ensures CancelCheck(old(service.model.records), id).Ok? ==>
        && r == Ok(Patched(old(service.model.records)[id], CancelPatch, {}, now))
        && service.model.records == old(service.model.records)[id := r.value]
        && service.emitter.events == old(service.emitter.events) +
             [Updated(MigrationEntity, id, Some(old(service.model.records)[id]), r.value, user)]
    {
      var check := CancelCheck(service.model.records, id);
      if check.Err? {
        return Err(check.msg);
      }
      SchemasByName();
      CastPatchDeclared(MigrationSchema, CancelPatch);
      r := service.UpdateEntity(id, CancelPatch, user, now);
    }
  }
}
