// The API key administration page (frontend/src/Pages/Admin/ApiKeys.jsx): the
// per-resource scope table, reading a key's stored scopes back into it,
// toggling one permission, and the body sent when a key is created or edited.

module ApiKeysPage {
  import opened Wrappers
  import opened Values
  import RequestParams

  /** The resources a key can be scoped to, in the order the table lists them. */
  const EntityTypes: seq<string> := [
    "adminNotification", "analytics", "changeLog", "databaseBackup", "dataMigration", "email",
    "emailTemplate", "event", "eventRegistration", "note", "scheduledTask", "siteOption", "user"]

  predicate IsEntityType(k: string) { k in EntityTypes }

  datatype Scope = Scope(read: bool, write: bool)

  const NoAccess := Scope(false, false)

  type Scopes = map<string, Scope>

  /** `buildDefaultScopes()` as a value: every resource, no permission. */
  function DefaultScopes(): (s: Scopes)
    ensures forall k :: k in s <==> IsEntityType(k)
    ensures forall k :: k in s ==> s[k] == NoAccess
  {
    map k | k in EntityTypes :: NoAccess
  }

  /** `buildDefaultScopes()`: one loop over the resources. */
  method BuildDefaultScopes() returns (scopes: Scopes)
    ensures scopes == DefaultScopes()
  {
    scopes := map[];
    var i := 0;
    while i < |EntityTypes|
      invariant 0 <= i <= |EntityTypes|
      invariant forall k :: k in scopes <==> k in EntityTypes[..i]
      invariant forall k :: k in scopes ==> scopes[k] == NoAccess
    {
      scopes := scopes[EntityTypes[i] := NoAccess];
      i := i + 1;
    }
    assert EntityTypes[..i] == EntityTypes;
  }

  // ---- reading stored scopes ------------------------------------------------------------

  /** `value.read` on a stored entry; reading a property of `null` throws, which
    * is `None` in the caller. */
  function Member(v: Value, k: string): Value
  {
    if v.Obj? && ObjGet(v.entries, k).Some? then ObjGet(v.entries, k).value else Null
  }

  /** `{read: !!value.read, write: !!value.write}`. */
  function Coerce(v: Value): Scope
  {
    Scope(Truthy(Member(v, "read")), Truthy(Member(v, "write")))
  }

  /** One stored entry applied to the table: a key naming no resource is skipped. */
  function Step(scopes: Option<Scopes>, e: (string, Value)): (r: Option<Scopes>)
    ensures scopes.Some? && r.Some? ==> r.value.Keys == scopes.value.Keys + (if IsEntityType(e.0) then {e.0} else {})
  {
    match scopes
    case None => None
    case Some(table) =>
      if !IsEntityType(e.0) then Some(table)
      else if e.1 == Null then None
      else Some(table[e.0 := Coerce(e.1)])
  }

  /** The table after the stored entries have been applied in order; `None` when
    * one of them makes the handler throw (a known resource stored as `null`). */
  function ApplyEntries(entries: seq<(string, Value)>): (r: Option<Scopes>)
    ensures r.Some? ==> r.value.Keys == DefaultScopes().Keys
  {
    if |entries| == 0 then Some(DefaultScopes())
    else Step(ApplyEntries(entries[..|entries| - 1]), entries[|entries| - 1])
  }

  /** `scopesFromApi(apiScopes)`: a missing value gives the defaults; an object's
    * entries are applied; anything else has no entries naming a resource. */
  function ScopesFrom(apiScopes: Value): Option<Scopes>
  {
    if !Truthy(apiScopes) || !apiScopes.Obj? then Some(DefaultScopes())
    else ApplyEntries(apiScopes.entries)
  }

  /** `scopesFromApi(apiScopes)`, entry by entry. */
  method ScopesFromApi(apiScopes: Value) returns (scopes: Option<Scopes>)
    ensures scopes == ScopesFrom(apiScopes)
  {
    var defaults := BuildDefaultScopes();
    if !Truthy(apiScopes) || !apiScopes.Obj? {
      return Some(defaults);
    }
    var entries := apiScopes.entries;
    scopes := Some(defaults);
    var i := 0;
    while i < |entries|
      invariant 0 <= i <= |entries|
      invariant scopes == ApplyEntries(entries[..i])
    {
      var before := scopes;
      var key := entries[i].0;
      var value := entries[i].1;
      if scopes.Some? && IsEntityType(key) {
        if value == Null {
          scopes := None;
        } else {
          scopes := Some(scopes.value[key := Coerce(value)]);
        }
      }
      assert scopes == Step(before, entries[i]);
      assert entries[..i + 1][..i] == entries[..i];
      i := i + 1;
    }
    assert entries[..|entries|] == entries;
  }

  /** No stored entry names a resource with a `null` value. */
  predicate Readable(entries: seq<(string, Value)>)
  {
    forall i :: 0 <= i < |entries| && IsEntityType(entries[i].0) ==> entries[i].1 != Null
  }

  /** Stored scopes read back as: each resource's last stored entry coerced to two
    * booleans, and no access for a resource with no entry; other keys are ignored. */
  lemma {:induction false} ApplyEntriesSpec(entries: seq<(string, Value)>)
    requires Readable(entries)
    ensures ApplyEntries(entries).Some?
    ensures forall k :: IsEntityType(k) ==>
      ApplyEntries(entries).value[k] == if ObjGet(entries, k).Some? then Coerce(ObjGet(entries, k).value) else NoAccess
  {
    if |entries| > 0 {
      var front := entries[..|entries| - 1];
      assert Readable(front) by {
        forall i | 0 <= i < |front| && IsEntityType(front[i].0) ensures front[i].1 != Null {
          assert front[i] == entries[i];
        }
      }
      ApplyEntriesSpec(front);
    }
  }

  /** A stored resource entry set to `null` makes reading the key fail. */
  lemma {:induction false} NullEntryThrows(entries: seq<(string, Value)>, i: int)
    requires 0 <= i < |entries| && IsEntityType(entries[i].0) && entries[i].1 == Null
    ensures ApplyEntries(entries).None?
  {
    if i < |entries| - 1 {
      assert entries[..|entries| - 1][i] == entries[i];
      NullEntryThrows(entries[..|entries| - 1], i);
    }
  }

  // ---- toggling a permission -----------------------------------------------------------

  datatype Permission = Read | Write

  function Flip(s: Scope, p: Permission): Scope
  {
    match p
    case Read => s.(read := !s.read)
    case Write => s.(write := !s.write)
  }

  /** `handleScopeChange(entityKey, permission)`; the table only offers its own rows. */
  function ScopeChange(scopes: Scopes, entityKey: string, p: Permission): (r: Scopes)
    requires entityKey in scopes
    ensures r.Keys == scopes.Keys
    ensures forall k :: k in scopes && k != entityKey ==> r[k] == scopes[k]
    ensures p == Read ==> r[entityKey].read == !scopes[entityKey].read && r[entityKey].write == scopes[entityKey].write
    ensures p == Write ==> r[entityKey].write == !scopes[entityKey].write && r[entityKey].read == scopes[entityKey].read
  {
    scopes[entityKey := Flip(scopes[entityKey], p)]
  }

  /** Toggling the same box twice restores the table. */
  lemma ToggleTwice(scopes: Scopes, entityKey: string, p: Permission)
    requires entityKey in scopes
    ensures ScopeChange(ScopeChange(scopes, entityKey, p), entityKey, p) == scopes
  {
    var once := ScopeChange(scopes, entityKey, p);
    var twice := ScopeChange(once, entityKey, p);
    assert twice[entityKey] == scopes[entityKey];
  }

  // ---- the submitted body --------------------------------------------------------------

  /** The scopes sent: the rows with a permission, in table order. */
  function ScopesPayload(scopes: Scopes, keys: seq<string>): (r: seq<(string, Scope)>)
    requires forall i :: 0 <= i < |keys| ==> keys[i] in scopes
    ensures forall i :: 0 <= i < |r| ==> r[i].0 in keys && r[i].1 == scopes[r[i].0] && (r[i].1.read || r[i].1.write)
  {
    if |keys| == 0 then []
    else
      var front := ScopesPayload(scopes, keys[..|keys| - 1]);
      var k := keys[|keys| - 1];
      if scopes[k].read || scopes[k].write then front + [(k, scopes[k])] else front
  }

  /** `{read, write}` as stored. */
  function ScopeValue(s: Scope): Value
  {
    Obj([("read", Bool(s.read)), ("write", Bool(s.write))])
  }

  function PayloadValue(payload: seq<(string, Scope)>): (v: Value)
    ensures v.Obj? && |v.entries| == |payload|
    ensures forall i :: 0 <= i < |payload| ==> v.entries[i] == (payload[i].0, ScopeValue(payload[i].1))
  {
    Obj(seq(|payload|, i requires 0 <= i < |payload| => (payload[i].0, ScopeValue(payload[i].1))))
  }

  /** A row is sent exactly when it has a permission. */
  lemma {:induction false} PayloadLookup(scopes: Scopes, keys: seq<string>, k: string)
    requires forall i :: 0 <= i < |keys| ==> keys[i] in scopes
    requires k in keys
    ensures var v := PayloadValue(ScopesPayload(scopes, keys));
      && (ObjGet(v.entries, k).Some? <==> scopes[k].read || scopes[k].write)
      && (ObjGet(v.entries, k).Some? ==> ObjGet(v.entries, k).value == ScopeValue(scopes[k]))
  {
    var payload := ScopesPayload(scopes, keys);
    var v := PayloadValue(payload);
    var last := keys[|keys| - 1];
    var front := keys[..|keys| - 1];
    var fp := ScopesPayload(scopes, front);
    var fv := PayloadValue(fp);
    if k != last {
      assert k in front;
      PayloadLookup(scopes, front, k);
    } else if !(scopes[k].read || scopes[k].write) {
      assert payload == fp;
      if k in front {
        PayloadLookup(scopes, front, k);
      } else {
        NotListedNotSent(scopes, front, k);
      }
    }
    if (scopes[last].read || scopes[last].write) {
      assert v.entries[..|v.entries| - 1] == fv.entries;
    } else {
      assert v == fv;
    }
  }

  lemma {:induction false} NotListedNotSent(scopes: Scopes, keys: seq<string>, k: string)
    requires forall i :: 0 <= i < |keys| ==> keys[i] in scopes
    requires k !in keys
    ensures ObjGet(PayloadValue(ScopesPayload(scopes, keys)).entries, k).None?
  {
    var entries := PayloadValue(ScopesPayload(scopes, keys)).entries;
    forall i | 0 <= i < |entries| ensures entries[i].0 != k {
    }
  }

  /** Every entry of the body is a resource row with a non-null value. */
  lemma PayloadReadable(scopes: Scopes)
    requires scopes.Keys == DefaultScopes().Keys
    ensures Readable(PayloadValue(ScopesPayload(scopes, EntityTypes)).entries)
  {
  }

  /** One row of the table read back from the body it was saved in. */
  lemma ReadBackRow(scopes: Scopes, k: string)
    requires scopes.Keys == DefaultScopes().Keys
    requires IsEntityType(k)
    ensures ApplyEntries(PayloadValue(ScopesPayload(scopes, EntityTypes)).entries).Some?
    ensures ApplyEntries(PayloadValue(ScopesPayload(scopes, EntityTypes)).entries).value[k] == scopes[k]
  {
    var entries := PayloadValue(ScopesPayload(scopes, EntityTypes)).entries;
    PayloadReadable(scopes);
    ApplyEntriesSpec(entries);
    PayloadLookup(scopes, EntityTypes, k);
    if ObjGet(entries, k).Some? {
      CoerceScopeValue(scopes[k]);
    }
  }

  /** A stored `{read, write}` reads back as the same two flags. */
  lemma CoerceScopeValue(s: Scope)
    ensures Coerce(ScopeValue(s)) == s
  {
    var entries := ScopeValue(s).entries;
    assert ObjGet(entries, "write") == Some(Bool(s.write));
    assert ObjGet(entries, "read") == Some(Bool(s.read)) by {
      assert entries[..1] == [("read", Bool(s.read))];
    }
  }

  /** Editing a saved key shows exactly the table it was saved from: the rows left
    * out of the body read back as no access, and the others as they were. */
  lemma SavedScopesReadBack(scopes: Scopes)
    requires scopes.Keys == DefaultScopes().Keys
    ensures ScopesFrom(PayloadValue(ScopesPayload(scopes, EntityTypes))) == Some(scopes)
  {
    var entries := PayloadValue(ScopesPayload(scopes, EntityTypes)).entries;
    PayloadReadable(scopes);
    ApplyEntriesSpec(entries);
    var back := ApplyEntries(entries).value;
    forall k | k in scopes ensures back[k] == scopes[k] {
      ReadBackRow(scopes, k);
    }
    assert back == scopes;
  }

  /** The expiry choices: a number of days, or none. */
  const ExpirationOptions: seq<Option<nat>> := [Some(1), Some(3), Some(7), Some(30), Some(90), Some(180), Some(365), None]

  const MillisPerDay := 86400000

  /** `data.expiresAt`: absent on an edit, `null` for no expiry, else `now` plus
    * the chosen number of days. */
  datatype Expiry = Omitted | NullExpiry | At(ms: int)

  datatype KeyBody = KeyBody(name: string, scopes: Value, expiresAt: Expiry)

  /** The body of `handleSubmit()`. */
  function SubmitBody(name: string, scopes: Scopes, editing: bool, expiration: Option<nat>, now: int): (b: KeyBody)
    requires forall i :: 0 <= i < |EntityTypes| ==> EntityTypes[i] in scopes
    ensures b.name == name
    ensures editing <==> b.expiresAt.Omitted?
    ensures b.expiresAt.NullExpiry? <==> !editing && expiration.None?
    ensures b.expiresAt.At? ==> expiration.Some? && b.expiresAt.ms == now + expiration.value * MillisPerDay
  {
    var body := KeyBody(name, PayloadValue(ScopesPayload(scopes, EntityTypes)), Omitted);
    if editing then body
    else if expiration.Some? then body.(expiresAt := At(now + expiration.value * MillisPerDay))
    else body.(expiresAt := NullExpiry)
  }

  /** A key created with a chosen number of days expires that many days later; the
    * expiry is never moved by an edit. */
  lemma ExpiryRules(name: string, scopes: Scopes, expiration: Option<nat>, now: int)
    requires scopes.Keys == DefaultScopes().Keys
    ensures SubmitBody(name, scopes, true, expiration, now).expiresAt == Omitted
    ensures expiration.Some? ==> SubmitBody(name, scopes, false, expiration, now).expiresAt.ms >= now
    ensures expiration.Some? && expiration.value > 0 ==> SubmitBody(name, scopes, false, expiration, now).expiresAt.ms > now
  {
  }

  // ---- the dialog ---------------------------------------------------------------------------

  /** A listed key as the dialog reads it. */
  datatype StoredKey = StoredKey(id: Value, name: string, scopes: Value)

  /** What the create or update call gives back: a throw or a response. */
  datatype SaveOutcome = SaveThrew | SaveAnswered(response: Value)

  function Prop(v: Value, k: string): Option<Value>
  {
    if v.Obj? then ObjGet(v.entries, k) else None
  }

  /** The create/edit dialog's state. */
  class KeyDialog {
    var isOpen: bool
    var editing: Option<StoredKey>
    var formName: string
    var formExpiration: Option<nat>
    var formScopes: Scopes
    var saving: bool

    ghost predicate Valid()
      reads this
    {
      formScopes.Keys == DefaultScopes().Keys
    }

    constructor()
      ensures Valid() && !isOpen && editing.None? && formName == "" && formExpiration.None?
      ensures formScopes == DefaultScopes() && !saving
    {
      isOpen := false;
      editing := None;
      formName := "";
      formExpiration := None;
      formScopes := DefaultScopes();
      saving := false;
    }

    /** `openAddModal()`: a blank form with no permission. */
    method OpenAdd()
      modifies this
      ensures Valid() && isOpen && editing.None? && formName == "" && formExpiration.None?
      ensures formScopes == DefaultScopes() && saving == old(saving)
    {
      editing := None;
      formName := "";
      formExpiration := None;
      formScopes := BuildDefaultScopes();
      isOpen := true;
    }

    /** `openEditModal(apiKey)`: the key, its name and a blank expiry are set first,
      * then the key's stored scopes and the open dialog; when reading the scopes
      * throws, the first three updates have already been queued and still apply,
      * while the table and the open flag stay as they were. */
    method OpenEdit(apiKey: StoredKey)
      requires Valid()
      modifies this
      ensures Valid() && saving == old(saving)
      ensures editing == Some(apiKey) && formName == apiKey.name && formExpiration.None?
      ensures ScopesFrom(apiKey.scopes).Some? ==> isOpen && formScopes == ScopesFrom(apiKey.scopes).value
      ensures ScopesFrom(apiKey.scopes).None? ==> isOpen == old(isOpen) && formScopes == old(formScopes)
    {
      editing := Some(apiKey);
      formName := apiKey.name;
      formExpiration := None;
      var scopes := ScopesFromApi(apiKey.scopes);
      if scopes.Some? {
        formScopes := scopes.value;
        isOpen := true;
      }
    }

    /** A click on one permission box of the table. */
    method ToggleScope(entityKey: string, p: Permission)
      requires Valid() && IsEntityType(entityKey)
      modifies this
      ensures Valid() && formScopes == ScopeChange(old(formScopes), entityKey, p)
      ensures isOpen == old(isOpen) && editing == old(editing) && formName == old(formName)
      ensures formExpiration == old(formExpiration) && saving == old(saving)
    {
      formScopes := ScopeChange(formScopes, entityKey, p);
    }

    /** `handleSubmit()`: returns the body sent and the message shown; the dialog
      * closes only when the answer is not an error. */
    method Submit(outcome: SaveOutcome, now: int) returns (body: KeyBody, toast: Value)
      requires Valid()
      modifies this
      ensures Valid() && !saving && formScopes == old(formScopes) && formName == old(formName)
      ensures body == SubmitBody(old(formName), old(formScopes), old(editing).Some?, old(formExpiration), now)
      ensures outcome.SaveThrew? ==>
        toast == Str("Failed to save API key.") && isOpen == old(isOpen) && editing == old(editing)
      ensures outcome.SaveAnswered? && Prop(outcome.response, "error").Some? && Truthy(Prop(outcome.response, "error").value) ==>
        isOpen == old(isOpen) && editing == old(editing) &&
        toast == (var m := Prop(outcome.response, "message");
                  if m.Some? && Truthy(m.value) then m.value else Prop(outcome.response, "error").value)
      ensures outcome.SaveAnswered? && !(Prop(outcome.response, "error").Some? && Truthy(Prop(outcome.response, "error").value)) ==>
        !isOpen && editing.None? &&
        toast == Str(if old(editing).Some? then "API key updated successfully." else "API key created successfully.")
    {
      saving := true;
      body := SubmitBody(formName, formScopes, editing.Some?, formExpiration, now);
      match outcome {
        case SaveThrew =>
          toast := Str("Failed to save API key.");
        case SaveAnswered(response) =>
          var error := Prop(response, "error");
          if error.Some? && Truthy(error.value) {
            var m := Prop(response, "message");
            toast := if m.Some? && Truthy(m.value) then m.value else error.value;
          } else {
            toast := Str(if editing.Some? then "API key updated successfully." else "API key created successfully.");
            isOpen := false;
            editing := None;
          }
      }
      saving := false;
    }
  }

  // ---- the list request ---------------------------------------------------------------------

  /** The list asks for sort `-createdAt`: a `-` is not the server's descending
    * marker and `-createdAt` is not a sortable field, so the server's default
    * newest-first order applies, and with no limit given only ten keys come back. */
  lemma ListRequestFallsBack()
    ensures var r := RequestParams.ParseParams(map["sort" := Str("-createdAt")]);
      r.Ok? && r.value.sort == RequestParams.DefaultSort && r.value.limit == RequestParams.Limit(10)
  {
    var params := map["sort" := Str("-createdAt")];
    assert !RequestParams.IsValidSortKey("-createdAt");
    assert RequestParams.ParseParams(params).Ok?;
    RequestParams.SingleColumnSort(params, "-createdAt");
  }
}
