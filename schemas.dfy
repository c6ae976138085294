// The schemas the services' models are registered with (api/schemas/*.js):
// the top-level paths each declares, its static defaults and its `Date.now`
// defaults, and what saving or updating through such a model does to the data.

module Schemas {
  import opened Values
  import opened Store

  /** A registered schema, by name. `Loose` is for a model whose service shapes its
    * records before they reach the store (events, users, e-mail templates). */
  datatype Schema = Loose | BackupSchema | MigrationSchema | TaskSchema | EmailSchema | RegistrationSchema | SessionSchema

  /** `mongoose.model(name, schema)`: the schema registered under a model name. */
  function SchemaOf(entityName: string): Schema
  {
    if entityName == "DatabaseBackup" then BackupSchema
    else if entityName == "DataMigration" then MigrationSchema
    else if entityName == "ScheduledTask" then TaskSchema
    else if entityName == "Email" then EmailSchema
    else if entityName == "EventRegistration" then RegistrationSchema
    else if entityName == "AuthSession" then SessionSchema
    else Loose
  }

  /** Each model name finds its own schema. */
  lemma SchemasByName()
    ensures SchemaOf("DatabaseBackup") == BackupSchema && SchemaOf("DataMigration") == MigrationSchema
    ensures SchemaOf("ScheduledTask") == TaskSchema && SchemaOf("Email") == EmailSchema
    ensures SchemaOf("EventRegistration") == RegistrationSchema && SchemaOf("AuthSession") == SessionSchema
  {
  }

  /** Events are stored as their service shapes them. */
  lemma EventsUnshaped()
    ensures SchemaOf("Event") == Loose
  {
    assert "Email"[1] != "Event"[1];
  }

  /** The declared paths. `_id` and the two timestamps are not listed: the store
    * sets them itself, and an update never sets `createdAt`. */
  function Paths(schema: Schema): set<string>
  {
    match schema
    case Loose => {}
    case BackupSchema =>
      {"key", "name", "type", "status", "backupPath", "totalCollections", "processedCollections", "totalDocuments",
       "processedDocuments", "backupSize", "compressionEnabled", "collections", "retentionDays", "errors", "metadata"}
    case MigrationSchema =>
      {"key", "migrator", "label", "status", "isDryRun", "complete", "currentPosition", "percentComplete", "totalRows",
       "totalRowsMigrated", "totalRowsFailed", "totalRowsSkipped", "startedAt", "completedAt", "params", "errors"}
    case TaskSchema =>
      {"key", "scheduledDate", "taskService", "taskMethod", "taskParams", "status", "claimId", "lastAttempt",
       "attempts", "recurring", "recurringFrequency", "errors", "metadata"}
    case EmailSchema =>
      {"key", "to", "from", "subject", "body", "bodyType", "emailType", "status", "messageId", "response",
       "errorMessage", "sentAt", "deliveredAt", "bouncedAt", "groupKey", "userId", "metadata", "isActive"}
    case RegistrationSchema => {"key", "eventId", "userId", "formData", "status", "registrationIp", "userAgent"}
    case SessionSchema => {"token", "userId", "lastLogin"}
  }

  /** The static defaults:
    * a new operation is a `pending` backup with an empty path, zero counters,
    * compression on, no collections, 30 days' retention, no errors and empty metadata;
    * a new migration is `pending`, neither a dry run nor complete, with zero counters,
    * no start or end time, empty parameters and no errors;
    * a new task is `PENDING`, unclaimed, never attempted, not recurring, with empty
    * parameters, no errors and empty metadata;
    * an e-mail is HTML, `pending` and active;
    * a registration has no form answers and is `confirmed`. */
  function Defaults(schema: Schema): map<string, Value>
  {
    match schema
    case Loose => map[]
    case BackupSchema =>
      map["type" := Str("backup"), "status" := Str("pending"), "backupPath" := Str(""),
          "totalCollections" := Num(0), "processedCollections" := Num(0), "totalDocuments" := Num(0),
          "processedDocuments" := Num(0), "backupSize" := Num(0), "compressionEnabled" := Bool(true),
          "collections" := Arr([]), "retentionDays" := Num(30), "errors" := Arr([]), "metadata" := Obj([])]
    case MigrationSchema =>
      map["status" := Str("pending"), "isDryRun" := Bool(false), "complete" := Bool(false),
          "currentPosition" := Num(0), "percentComplete" := Num(0), "totalRows" := Num(0),
          "totalRowsMigrated" := Num(0), "totalRowsFailed" := Num(0), "totalRowsSkipped" := Num(0),
          "startedAt" := Null, "completedAt" := Null, "params" := Obj([]), "errors" := Arr([])]
    case TaskSchema =>
      map["taskParams" := Obj([]), "status" := Str("PENDING"), "claimId" := Null, "lastAttempt" := Null,
          "attempts" := Num(0), "recurring" := Bool(false), "recurringFrequency" := Str(""),
          "errors" := Arr([]), "metadata" := Obj([])]
    case EmailSchema => map["bodyType" := Str("html"), "status" := Str("pending"), "isActive" := Bool(true)]
    case RegistrationSchema => map["formData" := Obj([]), "status" := Str("confirmed")]
    case SessionSchema => map[]
  }

  /** The paths defaulting to `Date.now`: a session's login time. */
  function Dated(schema: Schema): set<string>
  {
    if schema == SessionSchema then {"lastLogin"} else {}
  }

  /** The document `new Model(data)` holds when it is saved: under strict mode only
    * declared paths are kept, a missing path takes its default, and a `Date.now`
    * default the time of the save. */
  function Cast(schema: Schema, data: Doc, now: int): (d: Doc)
    ensures schema.Loose? ==> d == data
    ensures !schema.Loose? ==> d.Keys == Paths(schema) * (data.Keys + Defaults(schema).Keys + Dated(schema))
    ensures forall k :: k in d && k in data ==> d[k] == data[k]
    ensures !schema.Loose? ==> forall k :: k in d && k !in data && k in Defaults(schema) ==> d[k] == Defaults(schema)[k]
    ensures !schema.Loose? ==> forall k :: k in d && k !in data && k !in Defaults(schema) ==> d[k] == Num(now)
  {
    if schema.Loose? then data
    else
      var paths, defaults, dated := Paths(schema), Defaults(schema), Dated(schema);
      map k | k in paths && (k in data || k in defaults || k in dated) ::
        if k in data then data[k] else if k in defaults then defaults[k] else Num(now)
  }

  /** Data that holds only declared paths and every defaulted one. */
  predicate Conforms(schema: Schema, data: Doc)
  {
    schema.Loose? ||
    (data.Keys <= Paths(schema) && Defaults(schema).Keys * Paths(schema) <= data.Keys && Dated(schema) * Paths(schema) <= data.Keys)
  }

  /** Conforming data is saved as it is. */
  lemma CastConforming(schema: Schema, data: Doc, now: int)
    requires Conforms(schema, data)
    ensures Cast(schema, data, now) == data
  {
    if !schema.Loose? {
      assert Cast(schema, data, now).Keys == data.Keys;
    }
  }

  /** A cast document conforms, so casting it again, at any time, changes nothing:
    * `Date.now` defaults are fixed by the first save. */
  lemma CastIdempotent(schema: Schema, data: Doc, now: int, later: int)
    ensures Conforms(schema, Cast(schema, data, now))
    ensures Cast(schema, Cast(schema, data, now), later) == Cast(schema, data, now)
  {
    CastConforming(schema, Cast(schema, data, now), later);
  }

  /** The `$set` of an update after strict mode: undeclared paths are dropped. */
  function CastPatch(schema: Schema, assign: Doc): (d: Doc)
    ensures d.Keys <= assign.Keys
    ensures forall k :: k in d ==> d[k] == assign[k]
    ensures forall k :: k in assign ==> (k in d <==> schema.Loose? || k in Paths(schema))
  {
    if schema.Loose? then assign else map k | k in assign && k in Paths(schema) :: assign[k]
  }

  /** An update that sets declared paths only is applied as sent. */
  lemma {:induction false} CastPatchDeclared(schema: Schema, assign: Doc)
    requires schema.Loose? || assign.Keys <= Paths(schema)
    ensures CastPatch(schema, assign) == assign
  {
    assert CastPatch(schema, assign).Keys == assign.Keys;
  }

  /** A strict update never touches an undeclared path: a record without `foo`
    * gains none, and one holding it keeps its value. */
  lemma PatchKeepsUndeclared(schema: Schema, doc: Doc, assign: Doc, now: int, k: string)
    requires !schema.Loose? && k !in Paths(schema) && k != "updatedAt"
    ensures var after := Patched(doc, CastPatch(schema, assign), {}, now);
      (k in after <==> k in doc) && (k in doc ==> after[k] == doc[k])
  {
  }
}
