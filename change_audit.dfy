// The audit listener (api/listeners/changelog.js): it turns each lifecycle
// announcement into an audit entry, records for updates only the fields whose
// JSON serialisation changed, and skips the audit log's own entity type.

module ChangeAudit {
  import opened Wrappers
  import opened Strings
  import opened Values
  import opened Store
  import opened Lifecycle

  /** One changed field; `from` is none when the field did not exist before. */
  datatype Change = Change(field: string, from: Option<Value>, to: Value)

  datatype Action = Create | Update | Delete

  datatype AuditEntry = AuditEntry(
    entityType: string,
    entityId: string,
    action: Action,
    userId: Value,
    userName: string,
    changes: seq<Change>,
    snapshot: Doc)

  /** Bookkeeping fields an update never reports. */
  const ExcludedFields: seq<string> := ["_id", "__v", "updatedAt", "createdAt"]

  /** Entity types whose changes are never audited. */
  const ExcludedEntityTypes: seq<string> := ["ChangeLog"]

  /** `keys` is the document's own enumeration of its fields: each once, all of them. */
  predicate KeyOrder(d: Doc, keys: seq<string>)
  {
    (forall i :: 0 <= i < |keys| ==> keys[i] in d) &&
    (forall k :: k in d ==> k in keys) &&
    (forall i, j :: 0 <= i < j < |keys| ==> keys[i] != keys[j])
  }

  function Lookup(d: Doc, k: string): Option<Value>
  {
    if k in d then Some(d[k]) else None
  }

  /** The field differs in JSON: absent before, or serialised differently. */
  predicate Differs(before: Doc, after: Doc, k: string)
    requires k in after
  {
    Lookup(before, k) != Some(after[k])
  }

  /** The changes found while walking `keys`, in walking order. */
  function ChangesOver(before: Doc, after: Doc, keys: seq<string>): seq<Change>
    requires forall i :: 0 <= i < |keys| ==> keys[i] in after
  {
    if |keys| == 0 then []
    else
      var front := ChangesOver(before, after, keys[..|keys| - 1]);
      var k := keys[|keys| - 1];
      if k in ExcludedFields || !Differs(before, after, k) then front
      else front + [Change(k, Lookup(before, k), after[k])]
  }

  /** computeChanges: nothing when either version is missing. */
  function ChangesBetween(before: Option<Doc>, after: Option<Doc>, afterKeys: seq<string>): seq<Change>
    requires after.Some? ==> KeyOrder(after.value, afterKeys)
  {
    if before.None? || after.None? then [] else ChangesOver(before.value, after.value, afterKeys)
  }

  /** computeChanges as the source runs it: one pass over the fields of `after`. */
  method ComputeChanges(before: Option<Doc>, after: Option<Doc>, afterKeys: seq<string>) returns (changes: seq<Change>)
    requires after.Some? ==> KeyOrder(after.value, afterKeys)
    ensures changes == ChangesBetween(before, after, afterKeys)
  {
    changes := [];
    if before.None? || after.None? {
      return;
    }
    var b, a := before.value, after.value;
    var i := 0;
    while i < |afterKeys|
      invariant 0 <= i <= |afterKeys|
      invariant changes == ChangesOver(b, a, afterKeys[..i])
    {
      var k := afterKeys[i];
      assert afterKeys[..i + 1][..i] == afterKeys[..i];
      if k !in ExcludedFields {
        var oldVal := Lookup(b, k);
        if oldVal != Some(a[k]) {
          changes := changes + [Change(k, oldVal, a[k])];
        }
      }
      i := i + 1;
    }
    assert afterKeys[..|afterKeys|] == afterKeys;
  }

  function Fields(changes: seq<Change>): seq<string>
  {
    seq(|changes|, i requires 0 <= i < |changes| => changes[i].field)
  }

  /** A field is reported exactly when it is a non-bookkeeping field of `after` whose
    * value differs from before; each report carries both versions; each field is
    * reported once, in the document's field order. */
  lemma {:induction false} ChangesCharacterised(before: Doc, after: Doc, keys: seq<string>)
    requires forall i :: 0 <= i < |keys| ==> keys[i] in after
    requires forall i, j :: 0 <= i < j < |keys| ==> keys[i] != keys[j]
    ensures var cs := ChangesOver(before, after, keys);
      (forall k :: k in Fields(cs) <==> k in keys && k !in ExcludedFields && Differs(before, after, k)) &&
      (forall c :: c in cs ==> c.field in after && c.from == Lookup(before, c.field) && c.to == after[c.field]) &&
      (forall i, j :: 0 <= i < j < |cs| ==> cs[i].field != cs[j].field)
  {
    if |keys| > 0 {
      var front := keys[..|keys| - 1];
      ChangesCharacterised(before, after, front);
      var cs0 := ChangesOver(before, after, front);
      var k := keys[|keys| - 1];
      assert keys == front + [k];
      assert k !in front;
      assert k !in Fields(cs0);
      var cs := ChangesOver(before, after, keys);
      if k !in ExcludedFields && Differs(before, after, k) {
        assert cs == cs0 + [Change(k, Lookup(before, k), after[k])];
        assert Fields(cs) == Fields(cs0) + [k];
        forall i | 0 <= i < |cs0| ensures cs0[i].field != k {
          assert Fields(cs0)[i] == cs0[i].field;
        }
      } else {
        assert cs == cs0;
      }
    }
  }

  /** Versions that agree on every reported field produce no changes, so an update
    * that only moves `updatedAt` is never audited. */
  lemma {:induction false} NoChangesWhenAgreeing(before: Doc, after: Doc, keys: seq<string>)
    requires forall i :: 0 <= i < |keys| ==> keys[i] in after
    requires forall k :: k in after && k !in ExcludedFields ==> k in before && before[k] == after[k]
    ensures ChangesOver(before, after, keys) == []
  {
    if |keys| > 0 {
      NoChangesWhenAgreeing(before, after, keys[..|keys| - 1]);
    }
  }

  lemma NoSelfChanges(d: Doc, keys: seq<string>)
    requires KeyOrder(d, keys)
    ensures ChangesBetween(Some(d), Some(d), keys) == []
  {
    NoChangesWhenAgreeing(d, d, keys);
  }

  // ---- audit entries -----------------------------------------------------------------

  /** `toPlainObject`: a missing document snapshots as an empty one. */
  function ToPlainObject(d: Option<Doc>): Doc
  {
    if d.None? then map[] else d.value
  }

  function OrEmpty(d: Doc, k: string): string
  {
    if FieldTruthy(d, k) then JsString(d[k]) else ""
  }

  /** `userName`: the trimmed full name of the acting user, "System" without one. */
  function ActorName(user: Option<Doc>): string
  {
    if user.None? then "System"
    else Trim(OrEmpty(user.value, "firstName") + " " + OrEmpty(user.value, "lastName"))
  }

  /** `userId`: the acting user's id, else null. */
  function ActorId(user: Option<Doc>): Value
  {
    if user.Some? && FieldTruthy(user.value, "_id") then user.value["_id"] else Null
  }

  function IdText(d: Doc): string
  {
    if "_id" in d then JsString(d["_id"]) else "undefined"
  }

  /** The entry a listener writes for an announcement, if any. */
  function EntryFor(e: Event, afterKeys: seq<string>): Option<AuditEntry>
    requires e.Updated? ==> KeyOrder(e.after, afterKeys)
  {
    if e.entityType in ExcludedEntityTypes then None
    else match e
      case Created(t, entity, user) =>
        Some(AuditEntry(t, IdText(entity), Create, ActorId(user), ActorName(user), [], ToPlainObject(Some(entity))))
      case Updated(t, id, before, after, user) =>
        var changes := ChangesBetween(before, Some(after), afterKeys);
        if |changes| == 0 then None
        else Some(AuditEntry(t, NatToString(id), Update, ActorId(user), ActorName(user), changes, ToPlainObject(Some(after))))
      case Deleted(t, entity, user) =>
        Some(AuditEntry(t, IdText(entity), Delete, ActorId(user), ActorName(user), [], ToPlainObject(Some(entity))))
  }

  /** What the listener does with an announcement: excluded types and empty diffs
    * write nothing, everything else writes exactly one entry; user-less
    * announcements are attributed to "System". */
  lemma EntryForShape(e: Event, afterKeys: seq<string>)
    requires e.Updated? ==> KeyOrder(e.after, afterKeys)
    ensures e.entityType in ExcludedEntityTypes ==> EntryFor(e, afterKeys).None?
    ensures e.entityType !in ExcludedEntityTypes && !e.Updated? ==> EntryFor(e, afterKeys).Some?
    ensures e.entityType !in ExcludedEntityTypes && e.Updated? ==>
      (EntryFor(e, afterKeys).Some? <==> |ChangesBetween(e.before, Some(e.after), afterKeys)| > 0)
    ensures EntryFor(e, afterKeys).Some? ==>
      var entry := EntryFor(e, afterKeys).value;
      entry.entityType == e.entityType &&
      entry.action == (if e.Created? then Create else if e.Updated? then Update else Delete) &&
      (e.user.None? ==> entry.userName == "System" && entry.userId == Null)
  {
  }

  /** The audit log as the listener fills it. */
  class AuditLog {
    var entries: seq<AuditEntry>

    constructor ()
      ensures entries == []
    {
      entries := [];
    }

    /** One listener invocation; `written` is false when storing the entry failed,
      * a failure the listener logs and swallows. */
    method Handle(e: Event, afterKeys: seq<string>, written: bool)
      requires e.Updated? ==> KeyOrder(e.after, afterKeys)
      modifies this
      ensures entries == old(entries) +
        (if written && EntryFor(e, afterKeys).Some? then [EntryFor(e, afterKeys).value] else [])
    {
      if e.entityType in ExcludedEntityTypes {
        return;
      }
      var entry: AuditEntry;
      match e {
        case Created(t, entity, user) =>
          entry := AuditEntry(t, IdText(entity), Create, ActorId(user), ActorName(user), [], ToPlainObject(Some(entity)));
        case Updated(t, id, before, after, user) =>
          var changes := ComputeChanges(before, Some(after), afterKeys);
          if |changes| == 0 {
            return;
          }
          entry := AuditEntry(t, NatToString(id), Update, ActorId(user), ActorName(user), changes, ToPlainObject(Some(after)));
        case Deleted(t, entity, user) =>
          entry := AuditEntry(t, IdText(entity), Delete, ActorId(user), ActorName(user), [], ToPlainObject(Some(entity)));
      }
      if written {
        entries := entries + [entry];
      }
    }
  }
}
