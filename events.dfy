// Events: the schema's slug derivation and validation (api/schemas/Event.js)
// and the event service's QR-path bookkeeping and queries
// (api/services/event.js).  An event is inserted through `save()`, so defaults,
// strict mode, validators and the pre-save hook run; it is updated through
// `findByIdAndUpdate`, so none of them do.  The unique indexes on `key` and on
// the sparse `eventSlug` are part of the collection's invariant.

module Events {
  import opened Wrappers
  import opened Strings
  import opened Values
  import opened DocOrdering
  import opened Store
  import opened Schemas
  import opened Lifecycle
  import opened EntityServices

  // ---- slugify ------------------------------------------------------------------

  predicate IsSlugChar(c: char) { IsLower(c) || IsDigit(c) }

  /** Every maximal run of characters outside a–z and 0–9 becomes one `-`. */
  function Collapse(s: string): string
  {
    if |s| == 0 then []
    else
      var front := Collapse(s[..|s| - 1]);
      var c := s[|s| - 1];
      if IsSlugChar(c) then front + [c]
      else if |front| > 0 && front[|front| - 1] == '-' then front
      else front + ['-']
  }

  function TrimDashStart(s: string): (r: string)
    ensures |r| <= |s| && r == s[|s| - |r|..]
    ensures |r| == 0 || r[0] != '-'
  {
    if |s| > 0 && s[0] == '-' then TrimDashStart(s[1..]) else s
  }

  function TrimDashEnd(s: string): (r: string)
    ensures |r| <= |s| && r == s[..|r|]
    ensures |r| == 0 || r[|r| - 1] != '-'
  {
    if |s| > 0 && s[|s| - 1] == '-' then TrimDashEnd(s[..|s| - 1]) else s
  }

  /** Lower-case, collapse every run of other characters to `-`, strip the dashes
    * at both ends. */
  function Slugify(s: string): string
  {
    TrimDashEnd(TrimDashStart(Collapse(ToLower(s))))
  }

  predicate SlugAlphabet(s: string)
  {
    forall i :: 0 <= i < |s| ==> IsSlugChar(s[i]) || s[i] == '-'
  }

  predicate NoDoubleDash(s: string)
  {
    forall i :: 0 <= i < |s| - 1 ==> s[i] != '-' || s[i + 1] != '-'
  }

  /** What a slug looks like: a–z, 0–9 and single dashes between them. */
  predicate IsSlug(s: string)
  {
    SlugAlphabet(s) && NoDoubleDash(s) && (|s| == 0 || (s[0] != '-' && s[|s| - 1] != '-'))
  }

  lemma {:induction false} CollapseShape(s: string)
    ensures SlugAlphabet(Collapse(s)) && NoDoubleDash(Collapse(s))
  {
    if |s| > 0 {
      CollapseShape(s[..|s| - 1]);
    }
  }

  lemma SliceShape(s: string, a: int, b: int)
    requires SlugAlphabet(s) && NoDoubleDash(s) && 0 <= a <= b <= |s|
    ensures SlugAlphabet(s[a..b]) && NoDoubleDash(s[a..b])
  {
    forall i | 0 <= i < b - a - 1 ensures s[a..b][i] != '-' || s[a..b][i + 1] != '-' {
      assert s[a..b][i] == s[a + i] && s[a..b][i + 1] == s[a + i + 1];
    }
  }

  /** The slug holds only a–z, 0–9 and `-`, never two dashes in a row, and no dash
    * at either end. */
  lemma SlugifyShape(s: string)
    ensures IsSlug(Slugify(s))
  {
    var c := Collapse(ToLower(s));
    CollapseShape(ToLower(s));
    var t := TrimDashStart(c);
    SliceShape(c, |c| - |t|, |c|);
    var u := TrimDashEnd(t);
    SliceShape(t, 0, |u|);
    if |u| > 0 {
      assert u[0] == t[0];
    }
  }

  lemma {:induction false} CollapseSlug(t: string)
    requires SlugAlphabet(t) && NoDoubleDash(t)
    ensures Collapse(t) == t
  {
    if |t| > 0 {
      var p := t[..|t| - 1];
      SliceShape(t, 0, |t| - 1);
      CollapseSlug(p);
      if |p| > 0 && !IsSlugChar(t[|t| - 1]) {
        assert p[|p| - 1] == t[|t| - 2];
      }
      assert t == p + [t[|t| - 1]];
    }
  }

  /** Slugifying a slug leaves it as it is. */
  lemma SlugifyIdempotent(s: string)
    ensures Slugify(Slugify(s)) == Slugify(s)
  {
    var t := Slugify(s);
    SlugifyShape(s);
    LowerSlug(t);
    CollapseSlug(t);
    assert TrimDashStart(t) == t;
    assert TrimDashEnd(t) == t;
    assert Slugify(t) == TrimDashEnd(TrimDashStart(Collapse(ToLower(t))));
  }

  /** Lower-casing leaves a–z, 0–9 and `-` alone. */
  lemma LowerSlug(t: string)
    requires SlugAlphabet(t)
    ensures ToLower(t) == t
  {
    forall i | 0 <= i < |t| ensures ToLower(t)[i] == t[i] {
      assert !IsUpper(t[i]);
    }
  }

  // ---- the pre-save hook ------------------------------------------------------------

  /** The document with `eventSlug` set to `slug` and every other field as it was. */
  function WithSlug(d: Doc, slug: string): (r: Doc)
    ensures "eventSlug" in r && r["eventSlug"] == Str(slug)
    ensures forall k :: k != "eventSlug" ==> (k in r <==> k in d)
    ensures forall k :: k in d && k != "eventSlug" ==> r[k] == d[k]
  {
    d["eventSlug" := Str(slug)]
  }

  /** The hook as written: a new event with a name and no truthy slug gets the
    * slug of its name, even when that slug is empty. */
  function PreSaveAsWritten(d: Doc): (r: Doc)
    ensures FieldTruthy(d, "eventSlug") ==> r == d
    ensures forall k :: k != "eventSlug" ==> (k in r <==> k in d)
    ensures forall k :: k in d && k != "eventSlug" ==> r[k] == d[k]
  {
    if "eventName" in d && !FieldTruthy(d, "eventSlug") then WithSlug(d, Slugify(JsString(d["eventName"])))
    else d
  }

  lemma {:induction false} CollapseNoSlugChars(t: string)
    requires forall i :: 0 <= i < |t| ==> !IsSlugChar(t[i])
    ensures Collapse(t) == if |t| == 0 then [] else "-"
  {
    if |t| > 0 {
      var p := t[..|t| - 1];
      assert forall i :: 0 <= i < |p| ==> p[i] == t[i];
      CollapseNoSlugChars(p);
    }
  }

  /** A name with no letter or digit has the empty slug. */
  lemma NoSlugName(s: string)
    requires forall i :: 0 <= i < |s| ==> !IsSlugChar(LowerChar(s[i]))
    ensures Slugify(s) == ""
  {
    CollapseNoSlugChars(ToLower(s));
    if |s| > 0 {
      assert TrimDashStart("-") == [] by {
        assert "-"[1..] == [];
      }
    }
  }

  /** The hook as intended: an event whose name yields no slug stays without one,
    * so such events never collide on the sparse unique index. */
  function PreSave(d: Doc): (r: Doc)
    ensures FieldTruthy(d, "eventSlug") ==> r == d
    ensures forall k :: k != "eventSlug" ==> (k in r <==> k in d)
    ensures forall k :: k in d && k != "eventSlug" ==> r[k] == d[k]
    ensures "eventSlug" in r && r["eventSlug"] == Str("") ==> "eventSlug" in d && d["eventSlug"] == Str("")
    ensures "eventName" in d && !FieldTruthy(d, "eventSlug") && Slugify(JsString(d["eventName"])) != "" ==>
      "eventSlug" in r && r["eventSlug"] == Str(Slugify(JsString(d["eventName"])))
  {
    if "eventName" in d && !FieldTruthy(d, "eventSlug") && Slugify(JsString(d["eventName"])) != "" then
      WithSlug(d, Slugify(JsString(d["eventName"])))
    else d
  }

  /** A slug the hook derives is a slug. */
  lemma PreSaveSlug(d: Doc)
    requires "eventName" in d && !FieldTruthy(d, "eventSlug")
    ensures PreSave(d) == d || (PreSave(d)["eventSlug"].Str? && IsSlug(PreSave(d)["eventSlug"].s) && PreSave(d)["eventSlug"] != Str(""))
  {
    var name := Slugify(JsString(d["eventName"]));
    SlugifyShape(JsString(d["eventName"]));
    if name != "" {
      assert PreSave(d) == d["eventSlug" := Str(name)];
    } else {
      assert PreSave(d) == d;
    }
  }

  // ---- defaults and strict mode ------------------------------------------------------

  const EventPaths: set<string> := {
    "key", "eventName", "eventSlug", "eventDate", "eventDescription", "eventLogo", "eventFlyers",
    "eventWaivers", "registrationFields", "registrationOpen", "registrationFee", "eventPageQR",
    "eventRegistrationQR", "isActive", "_id", "createdAt", "updatedAt"}

  /** Strict mode: only declared paths are written. */
  function Strict(data: Doc): (r: Doc)
    ensures forall k :: k in r <==> k in data && k in EventPaths
    ensures forall k :: k in r ==> r[k] == data[k]
  {
    map k | k in data && k in EventPaths :: data[k]
  }

  /** The schema's defaults; `key` is a fresh identifier supplied by the caller. */
  function EventDefaults(key: string): map<string, Value>
  {
    map[
      "key" := Str(key), "eventDescription" := Str(""), "eventLogo" := Str(""),
      "eventFlyers" := Arr([]), "eventWaivers" := Arr([]), "registrationFields" := Arr([]),
      "registrationOpen" := Bool(false), "registrationFee" := Num(0), "eventPageQR" := Str(""),
      "eventRegistrationQR" := Str(""), "isActive" := Bool(true)]
  }

  function EntriesDefault(entries: seq<(string, Value)>, k: string, v: Value): seq<(string, Value)>
  {
    if ObjGet(entries, k).Some? then entries else entries + [(k, v)]
  }

  /** A registration field's defaults: not required, no placeholder, no options,
    * sort position 0. */
  function FieldWithDefaults(entries: seq<(string, Value)>): seq<(string, Value)>
  {
    EntriesDefault(EntriesDefault(EntriesDefault(EntriesDefault(
      entries, "required", Bool(false)), "placeholder", Str("")), "options", Arr([])), "sortOrder", Num(0))
  }

  function ItemsWithDefaults(items: seq<Value>): (r: seq<Value>)
    ensures |r| == |items|
  {
    seq(|items|, i requires 0 <= i < |items| => if items[i].Obj? then Obj(FieldWithDefaults(items[i].entries)) else items[i])
  }

  /** What `new Event(data)` holds before validation. */
  function WithDefaults(data: Doc, key: string): Doc
  {
    var d := EventDefaults(key) + Strict(data);
    if d["registrationFields"].Arr? then d["registrationFields" := Arr(ItemsWithDefaults(d["registrationFields"].items))]
    else d
  }

  lemma EntriesDefaultGet(entries: seq<(string, Value)>, k: string, v: Value, q: string)
    ensures ObjGet(EntriesDefault(entries, k, v), q) ==
      if q == k && ObjGet(entries, k).None? then Some(v) else ObjGet(entries, q)
  {
    if ObjGet(entries, k).None? {
      assert (entries + [(k, v)])[..|entries|] == entries;
    }
  }

  lemma FieldDefaultGet(entries: seq<(string, Value)>, q: string)
    ensures q !in {"required", "placeholder", "options", "sortOrder"} ==>
      ObjGet(FieldWithDefaults(entries), q) == ObjGet(entries, q)
    ensures q == "required" ==>
      ObjGet(FieldWithDefaults(entries), q) == if ObjGet(entries, q).Some? then ObjGet(entries, q) else Some(Bool(false))
    ensures q == "sortOrder" ==>
      ObjGet(FieldWithDefaults(entries), q) == if ObjGet(entries, q).Some? then ObjGet(entries, q) else Some(Num(0))
  {
    var e1 := EntriesDefault(entries, "required", Bool(false));
    var e2 := EntriesDefault(e1, "placeholder", Str(""));
    var e3 := EntriesDefault(e2, "options", Arr([]));
    EntriesDefaultGet(entries, "required", Bool(false), q);
    EntriesDefaultGet(e1, "placeholder", Str(""), q);
    EntriesDefaultGet(e2, "options", Arr([]), q);
    EntriesDefaultGet(e3, "sortOrder", Num(0), q);
  }

  /** A registration field without `required` is optional and one without
    * `sortOrder` sorts at 0; given values are kept. */
  lemma FieldDefaultsFilled(entries: seq<(string, Value)>)
    ensures ObjGet(FieldWithDefaults(entries), "required") ==
      if ObjGet(entries, "required").Some? then ObjGet(entries, "required") else Some(Bool(false))
    ensures ObjGet(FieldWithDefaults(entries), "sortOrder") ==
      if ObjGet(entries, "sortOrder").Some? then ObjGet(entries, "sortOrder") else Some(Num(0))
    ensures forall q :: q !in {"required", "placeholder", "options", "sortOrder"} ==>
      ObjGet(FieldWithDefaults(entries), q) == ObjGet(entries, q)
  {
    FieldDefaultGet(entries, "required");
    FieldDefaultGet(entries, "sortOrder");
    forall q | q !in {"required", "placeholder", "options", "sortOrder"}
      ensures ObjGet(FieldWithDefaults(entries), q) == ObjGet(entries, q)
    {
      FieldDefaultGet(entries, q);
    }
  }

  /** A new event keeps every declared value it is given and takes the schema's
    * default for every other defaulted path: no fee, registration closed, active. */
  lemma DefaultsFilled(data: Doc, key: string)
    ensures var d := WithDefaults(data, key);
      (forall k :: k in d ==> k in EventPaths) &&
      (forall k :: k in data && k in EventPaths && k != "registrationFields" ==> k in d && d[k] == data[k]) &&
      (forall k :: k in EventDefaults(key) && k !in data ==> k in d && d[k] == EventDefaults(key)[k]) &&
      d["registrationFields"] == (
        var given := if "registrationFields" in data then data["registrationFields"] else Arr([]);
        if given.Arr? then Arr(ItemsWithDefaults(given.items)) else given)
  {
    BaseDefaults(data, key);
    DefaultPathsDeclared(key);
    FieldsDefaulted(data, key);
    var base := EventDefaults(key) + Strict(data);
    if "registrationFields" !in data {
      assert base["registrationFields"] == Arr([]) && ItemsWithDefaults([]) == [];
    }
  }

  /** Only the registration fields differ from the defaults with the given values laid over them. */
  lemma FieldsDefaulted(data: Doc, key: string)
    ensures var base := EventDefaults(key) + Strict(data); var d := WithDefaults(data, key);
      && "registrationFields" in base
      && d.Keys == base.Keys
      && (forall k :: k in base && k != "registrationFields" ==> d[k] == base[k])
      && d["registrationFields"] == (if base["registrationFields"].Arr? then Arr(ItemsWithDefaults(base["registrationFields"].items)) else base["registrationFields"])
  {
    DefaultPathsDeclared(key);
  }

  /** The defaults with the declared values given laid over them. */
  lemma BaseDefaults(data: Doc, key: string)
    ensures var b := EventDefaults(key) + Strict(data);
      && "registrationFields" in b
      && (forall k :: k in b ==> k in EventPaths)
      && (forall k :: k in data && k in EventPaths ==> k in b && b[k] == data[k])
      && (forall k :: k in EventDefaults(key) && k !in data ==> k in b && b[k] == EventDefaults(key)[k])
  {
    DefaultPathsDeclared(key);
  }

  lemma DefaultPathsDeclared(key: string)
    ensures EventDefaults(key).Keys <= EventPaths
    ensures "registrationFields" in EventDefaults(key) && EventDefaults(key)["registrationFields"] == Arr([])
  {
  }

  // ---- validation -----------------------------------------------------------------------

  const FieldTypes: set<string> := {"text", "email", "phone", "number", "date", "select", "checkbox", "textarea", "radio"}

  const ValidationFailedPrefix := "Event validation failed: "

  datatype Issue = Issue(path: string, message: string)

  function Get(d: Doc, k: string): Option<Value>
  {
    if k in d then Some(d[k]) else None
  }

  /** A required string path is set: present, not null, not empty. */
  predicate TextGiven(v: Option<Value>)
  {
    v.Some? && v.value != Null && v.value != Str("")
  }

  function RequiredMessage(path: string): string
  {
    "Path `" + path + "` is required."
  }

  function ItemIssues(i: nat, item: Value): (r: seq<Issue>)
  {
    if !item.Obj? then []
    else
      var prefix := "registrationFields." + NatToString(i) + ".";
      var e := item.entries;
      (if TextGiven(ObjGet(e, "name")) then [] else [Issue(prefix + "name", RequiredMessage("name"))]) +
      (if TextGiven(ObjGet(e, "label")) then [] else [Issue(prefix + "label", RequiredMessage("label"))]) +
      (if !TextGiven(ObjGet(e, "type")) then [Issue(prefix + "type", RequiredMessage("type"))]
       else if JsString(ObjGet(e, "type").value) !in FieldTypes then
         [Issue(prefix + "type", "`" + JsString(ObjGet(e, "type").value) + "` is not a valid enum value for path `type`.")]
       else [])
  }

  function ItemsIssues(items: seq<Value>): seq<Issue>
  {
    if |items| == 0 then []
    else ItemsIssues(items[..|items| - 1]) + ItemIssues(|items| - 1, items[|items| - 1])
  }

  function FeeIssues(d: Doc): seq<Issue>
  {
    if "registrationFee" in d && d["registrationFee"].Num? && d["registrationFee"].n < 0 then
      [Issue("registrationFee", "Path `registrationFee` (" + IntToString(d["registrationFee"].n) +
        ") is less than minimum allowed value (0).")]
    else []
  }

  /** Every failed validator of a new event, in the schema's path order. */
  function EventIssues(d: Doc): seq<Issue>
  {
    (if TextGiven(Get(d, "key")) then [] else [Issue("key", RequiredMessage("key"))]) +
    (if TextGiven(Get(d, "eventName")) then [] else [Issue("eventName", RequiredMessage("eventName"))]) +
    (if "eventDate" in d && d["eventDate"] != Null then [] else [Issue("eventDate", RequiredMessage("eventDate"))]) +
    (if "registrationFields" in d && d["registrationFields"].Arr? then ItemsIssues(d["registrationFields"].items) else []) +
    FeeIssues(d)
  }

  function ValidationMessage(issues: seq<Issue>): string
  {
    ValidationFailedPrefix + Join(seq(|issues|, i requires 0 <= i < |issues| => issues[i].path + ": " + issues[i].message), ", ")
  }

  /** A registration field the schema accepts: name and label set, and a type of
    * one of the nine kinds. */
  predicate ValidField(v: Value)
  {
    v.Obj? ==>
      TextGiven(ObjGet(v.entries, "name")) && TextGiven(ObjGet(v.entries, "label")) &&
      TextGiven(ObjGet(v.entries, "type")) && JsString(ObjGet(v.entries, "type").value) in FieldTypes
  }

  /** An event the schema accepts. */
  predicate ValidEvent(d: Doc)
  {
    TextGiven(Get(d, "key")) && TextGiven(Get(d, "eventName")) && "eventDate" in d && d["eventDate"] != Null &&
    ("registrationFields" in d && d["registrationFields"].Arr? ==>
      forall i :: 0 <= i < |d["registrationFields"].items| ==> ValidField(d["registrationFields"].items[i])) &&
    ("registrationFee" in d && d["registrationFee"].Num? ==> d["registrationFee"].n >= 0)
  }

  lemma ItemIssuesNone(i: nat, item: Value)
    ensures ItemIssues(i, item) == [] <==> ValidField(item)
  {
  }

  lemma {:induction false} ItemsIssuesNone(items: seq<Value>)
    ensures ItemsIssues(items) == [] <==> forall i :: 0 <= i < |items| ==> ValidField(items[i])
  {
    if |items| > 0 {
      var front := items[..|items| - 1];
      var last := items[|items| - 1];
      ItemsIssuesNone(front);
      ItemIssuesNone(|items| - 1, last);
      IssuesJoin(ItemsIssues(front), ItemIssues(|items| - 1, last));
      AllValidSplit(items, front, last);
    }
  }

  /** Two lists of issues together are empty exactly when both are. */
  lemma IssuesJoin(a: seq<Issue>, b: seq<Issue>)
    ensures a + b == [] <==> a == [] && b == []
  {
    assert |a + b| == |a| + |b|;
  }

  /** Every field is valid exactly when every field before the last one is and the
    * last one is too. */
  lemma AllValidSplit(items: seq<Value>, front: seq<Value>, last: Value)
    requires items == front + [last]
    ensures (forall i :: 0 <= i < |items| ==> ValidField(items[i])) <==>
      (forall i :: 0 <= i < |front| ==> ValidField(front[i])) && ValidField(last)
  {
    assert forall i :: 0 <= i < |front| ==> items[i] == front[i];
    assert items[|front|] == last;
  }

  /** The validators pass exactly on the events the schema accepts. */
  lemma EventIssuesNone(d: Doc)
    ensures EventIssues(d) == [] <==> ValidEvent(d)
  {
    if "registrationFields" in d && d["registrationFields"].Arr? {
      ItemsIssuesNone(d["registrationFields"].items);
    }
  }

  // ---- unique indexes and QR paths ---------------------------------------------------------

  /** No two records share a value at `k`; records without `k` are not indexed. */
  ghost predicate UniqueIndex(records: map<Id, Doc>, k: string)
  {
    forall i, j :: i in records && j in records && i != j && k in records[i] && k in records[j] ==>
      records[i][k] != records[j][k]
  }

  /** Some record other than `self` holds `v` at `k`. */
  predicate Clash(records: map<Id, Doc>, k: string, v: Value, self: int)
  {
    exists id :: id in records && id != self && k in records[id] && records[id][k] == v
  }

  function DuplicateKey(k: string): string
  {
    "E11000 duplicate key error index: " + k + "_1"
  }

  lemma UniqueAfterWrite(records: map<Id, Doc>, id: Id, d: Doc, k: string)
    requires UniqueIndex(records, k)
    requires k in d ==> !Clash(records, k, d[k], id)
    ensures UniqueIndex(records[id := d], k)
  {
  }

  function PagePath(id: Id, timestamp: int): string
  {
    "/uploads/events/qrcodes/event-page-" + NatToString(id) + "-" + IntToString(timestamp) + ".png"
  }

  function RegistrationPath(id: Id, timestamp: int): string
  {
    "/uploads/events/qrcodes/event-registration-" + NatToString(id) + "-" + IntToString(timestamp) + ".png"
  }

  function QRPaths(id: Id, timestamp: int): Doc
  {
    map["eventPageQR" := Str(PagePath(id, timestamp)), "eventRegistrationQR" := Str(RegistrationPath(id, timestamp))]
  }

  /** A patch that does not name `k` leaves `k` as it was. */
  lemma PatchedKeeps(doc: Doc, assign: Doc, now: int, k: string)
    requires k !in assign && k != "updatedAt"
    ensures k in Patched(doc, assign, {}, now) <==> k in doc
    ensures k in doc ==> Patched(doc, assign, {}, now)[k] == doc[k]
  {
  }

  // ---- insert and update -------------------------------------------------------------------

  /** The record `save()` writes for new event data, or the error it throws:
    * validation first, then the hook, then the unique indexes. The service
    * saves through the hook as intended. */
  function InsertPlan(records: map<Id, Doc>, data: Doc, key: string): (r: Result<Doc>)
    ensures r.Ok? ==> ValidEvent(WithDefaults(data, key)) && r.value == PreSave(WithDefaults(data, key))
    ensures r.Ok? ==> "key" in r.value && !Clash(records, "key", r.value["key"], -1)
    ensures r.Ok? && "eventSlug" in r.value ==> !Clash(records, "eventSlug", r.value["eventSlug"], -1)
    ensures !ValidEvent(WithDefaults(data, key)) ==> r.Err? && r.msg == ValidationMessage(EventIssues(WithDefaults(data, key)))
  {
    var d := WithDefaults(data, key);
    EventIssuesNone(d);
    if EventIssues(d) != [] then Err(ValidationMessage(EventIssues(d)))
    else IndexCheck(records, PreSave(d))
  }

  /** The same save with the hook as written. */
  function InsertPlanAsWritten(records: map<Id, Doc>, data: Doc, key: string): (r: Result<Doc>)
    ensures r.Ok? ==> ValidEvent(WithDefaults(data, key)) && r.value == PreSaveAsWritten(WithDefaults(data, key))
    ensures !ValidEvent(WithDefaults(data, key)) ==> r.Err? && r.msg == ValidationMessage(EventIssues(WithDefaults(data, key)))
  {
    var d := WithDefaults(data, key);
    EventIssuesNone(d);
    if EventIssues(d) != [] then Err(ValidationMessage(EventIssues(d)))
    else IndexCheck(records, PreSaveAsWritten(d))
  }

  /** The unique indexes on a record about to be stored: `key`, then `eventSlug`
    * when the record has one (that index is sparse). */
  function IndexCheck(records: map<Id, Doc>, s: Doc): (r: Result<Doc>)
    requires "key" in s
    ensures r.Ok? <==> !Clash(records, "key", s["key"], -1) && ("eventSlug" in s ==> !Clash(records, "eventSlug", s["eventSlug"], -1))
    ensures r.Ok? ==> r.value == s
    ensures r.Err? ==> r.msg == DuplicateKey(if Clash(records, "key", s["key"], -1) then "key" else "eventSlug")
  {
    if Clash(records, "key", s["key"], -1) then Err(DuplicateKey("key"))
    else if "eventSlug" in s && Clash(records, "eventSlug", s["eventSlug"], -1) then Err(DuplicateKey("eventSlug"))
    else Ok(s)
  }

  /** An event whose name holds no letter or digit and which has no slug. */
  predicate Slugless(d: Doc)
  {
    "key" in d && "eventName" in d && d["eventName"].Str? && "eventSlug" !in d &&
    forall i :: 0 <= i < |d["eventName"].s| ==> !IsSlugChar(LowerChar(d["eventName"].s[i]))
  }

  /** The hook as written gives such an event the empty slug; the intended hook
    * leaves it as it is. */
  lemma SluglessHooks(d: Doc)
    requires Slugless(d)
    ensures "eventSlug" in PreSaveAsWritten(d) && PreSaveAsWritten(d)["eventSlug"] == Str("")
    ensures PreSaveAsWritten(d)["key"] == d["key"]
    ensures PreSave(d) == d
  {
    NoSlugName(d["eventName"].s);
  }

  /** A stored record holding the slug of a new one refuses it, once its key passes. */
  lemma SlugRefused(records: map<Id, Doc>, id: Id, stored: Doc, s: Doc)
    requires "key" in s && !Clash(records[id := stored], "key", s["key"], -1)
    requires "eventSlug" in stored && "eventSlug" in s && stored["eventSlug"] == s["eventSlug"]
    ensures IndexCheck(records[id := stored], s) == Err(DuplicateKey("eventSlug"))
  {
    assert id in records[id := stored] && id != -1;
  }

  /** As written, the first event whose name holds no letter or digit is stored with
    * the empty slug, and a second one, with a fresh key, is then refused by the
    * unique index on `eventSlug`. */
  lemma EmptySlugsCollide(records: map<Id, Doc>, first: Doc, k1: string, second: Doc, k2: string, id: Id, now: int)
    requires Slugless(WithDefaults(first, k1)) && Slugless(WithDefaults(second, k2))
    requires InsertPlanAsWritten(records, first, k1).Ok? && ValidEvent(WithDefaults(second, k2))
    requires !Clash(records[id := Stamped(InsertPlanAsWritten(records, first, k1).value, id, now)], "key",
                    WithDefaults(second, k2)["key"], -1)
    ensures var saved := InsertPlanAsWritten(records, first, k1).value;
      && "eventSlug" in saved && saved["eventSlug"] == Str("")
      && InsertPlanAsWritten(records[id := Stamped(saved, id, now)], second, k2) == Err(DuplicateKey("eventSlug"))
  {
    var d2 := WithDefaults(second, k2);
    var saved := InsertPlanAsWritten(records, first, k1).value;
    SluglessHooks(WithDefaults(first, k1));
    SluglessHooks(d2);
    EventIssuesNone(d2);
    SlugRefused(records, id, Stamped(saved, id, now), PreSaveAsWritten(d2));
  }

  /** With the hook as intended, such events are stored without a slug, so the
    * second one is saved as well. */
  lemma SluglessNamesCoexist(records: map<Id, Doc>, first: Doc, k1: string, second: Doc, k2: string, id: Id, now: int)
    requires Slugless(WithDefaults(first, k1)) && Slugless(WithDefaults(second, k2))
    requires InsertPlan(records, first, k1).Ok? && ValidEvent(WithDefaults(second, k2))
    requires !Clash(records[id := Stamped(InsertPlan(records, first, k1).value, id, now)], "key",
                    WithDefaults(second, k2)["key"], -1)
    ensures var saved := InsertPlan(records, first, k1).value;
      && "eventSlug" !in saved
      && InsertPlan(records[id := Stamped(saved, id, now)], second, k2) == Ok(WithDefaults(second, k2))
  {
    var d2 := WithDefaults(second, k2);
    SluglessHooks(WithDefaults(first, k1));
    SluglessHooks(d2);
    EventIssuesNone(d2);
  }

  /** QR paths are written only for a saved event with a slug. */
  function WithQRCodes(saved: Doc, id: Id, timestamp: int, now: int): (r: Doc)
    ensures FieldTruthy(saved, "eventSlug") ==>
      "eventPageQR" in r && "eventRegistrationQR" in r &&
      r["eventPageQR"] == Str(PagePath(id, timestamp)) && r["eventRegistrationQR"] == Str(RegistrationPath(id, timestamp))
    ensures !FieldTruthy(saved, "eventSlug") ==> r == saved
  {
    assert "eventPageQR" in QRPaths(id, timestamp) && "eventRegistrationQR" in QRPaths(id, timestamp);
    if FieldTruthy(saved, "eventSlug") then Patched(saved, QRPaths(id, timestamp), {}, now) else saved
  }

  /** The codes are regenerated when the record existed, the updated record has a
    * slug, and the slug differs from the old one. */
  predicate Regenerates(before: Option<Doc>, after: Doc)
  {
    before.Some? && FieldTruthy(after, "eventSlug") &&
    ("eventSlug" !in before.value || before.value["eventSlug"] != after["eventSlug"])
  }

  /** An update that sets a non-empty slug other than the stored one. */
  predicate SlugReplaced(before: Doc, assign: Doc)
  {
    "eventSlug" in assign && Truthy(assign["eventSlug"]) &&
    ("eventSlug" !in before || before["eventSlug"] != assign["eventSlug"])
  }

  /** An update that does not name the slug never regenerates the codes, and one
    * that sets a new non-empty slug always does. */
  lemma RegeneratesOnSlugChange(before: Doc, assign: Doc, now: int)
    ensures "eventSlug" !in assign ==> !Regenerates(Some(before), Patched(before, assign, {}, now))
    ensures SlugReplaced(before, assign) ==> Regenerates(Some(before), Patched(before, assign, {}, now))
  {
    if "eventSlug" !in assign {
      PatchedKeeps(before, assign, now, "eventSlug");
    }
  }

  /** Whether an update would give `id` a key or slug another record holds. */
  predicate UpdateClashes(records: map<Id, Doc>, id: Id, assign: Doc)
  {
    ("key" in assign && Clash(records, "key", assign["key"], id)) ||
    ("eventSlug" in assign && Clash(records, "eventSlug", assign["eventSlug"], id))
  }

  // ---- queries --------------------------------------------------------------------------

  const ByDate: Ordering := [("eventDate", 1)]

  /** `getEventByKeyOrSlug(s)`: the event with key `s`, else the one with the
    * lower-cased slug, else the error. */
  function EventByKeyOrSlug(records: map<Id, Doc>, docs: seq<Doc>, s: string): Result<Doc>
  {
    match LookupEntity(records, docs, "event", "key", Str(s))
    case Ok(d) => Ok(d)
    case Err(_) => LookupEntity(records, docs, "event", "eventSlug", Str(ToLower(s)))
  }

  /** A key match always wins; a slug is tried only when no key matches; the
    * lookup fails with 'No event found' exactly when neither matches. */
  lemma KeyBeforeSlug(records: map<Id, Doc>, docs: seq<Doc>, s: string)
    ensures var r := EventByKeyOrSlug(records, docs, s);
      ((exists d :: d in docs && MatchesField(d, "key", Str(s))) ==> r.Ok? && MatchesField(r.value, "key", Str(s))) &&
      (r.Ok? ==> r.value in docs && (MatchesField(r.value, "key", Str(s)) || MatchesField(r.value, "eventSlug", Str(ToLower(s))))) &&
      (r.Err? <==> forall d :: d in docs ==> !MatchesField(d, "key", Str(s)) && !MatchesField(d, "eventSlug", Str(ToLower(s)))) &&
      (r.Err? ==> r.msg == "No event found")
  {
    LookupByField(records, docs, "event", "key", Str(s));
    LookupByField(records, docs, "event", "eventSlug", Str(ToLower(s)));
  }

  const OpenQuery: Doc := map["registrationOpen" := Bool(true), "isActive" := Bool(true)]

  function OpenRegistrationEvents(docs: seq<Doc>): seq<Doc>
  {
    SortDocs(Find(docs, OpenQuery), ByDate)
  }

  /** Exactly the open, active events, each as often as it is stored, earliest first. */
  lemma OpenRegistrationExact(docs: seq<Doc>)
    ensures var r := OpenRegistrationEvents(docs);
      (forall d :: d in r <==> d in docs && MatchesField(d, "registrationOpen", Bool(true)) && MatchesField(d, "isActive", Bool(true))) &&
      multiset(r) == multiset(Find(docs, OpenQuery)) &&
      Sorted(r, ByDate)
  {
    SortDocsMembers(Find(docs, OpenQuery), ByDate);
    SortDocsSorted(Find(docs, OpenQuery), ByDate);
    forall d ensures Matches(d, OpenQuery) <==> MatchesField(d, "registrationOpen", Bool(true)) && MatchesField(d, "isActive", Bool(true)) {
      assert "registrationOpen" in OpenQuery && "isActive" in OpenQuery;
    }
  }

  /** An active event on or after `now`; event dates are milliseconds. */
  predicate Upcoming(d: Doc, now: int)
  {
    "eventDate" in d && d["eventDate"].Num? && d["eventDate"].n >= now && MatchesField(d, "isActive", Bool(true))
  }

  function NextEvent(docs: seq<Doc>, now: int): Option<Doc>
  {
    First(SortDocs(Select(docs, d => Upcoming(d, now)), ByDate))
  }

  /** In a list ordered by date whose every entry has a numeric date, the first
    * date is the smallest. */
  lemma FirstIsEarliest(s: seq<Doc>, j: int)
    requires Sorted(s, ByDate) && 0 <= j < |s|
    requires forall d: Doc :: d in s ==> "eventDate" in d && d["eventDate"].Num?
    ensures s[0]["eventDate"].n <= s[j]["eventDate"].n
  {
    assert s[0] in s && s[j] in s;
    if j > 0 {
      assert Le(s[0], s[j], ByDate);
      assert CompareDocs(s[0], s[j], ByDate) == CompareValues(s[0]["eventDate"], s[j]["eventDate"]);
    }
  }

  /** The next event is the upcoming event with the earliest date, and there is
    * none exactly when no event is upcoming. */
  lemma NextEventEarliest(docs: seq<Doc>, now: int)
    ensures NextEvent(docs, now).None? <==> forall d :: d in docs ==> !Upcoming(d, now)
    ensures NextEvent(docs, now).Some? ==>
      var e := NextEvent(docs, now).value;
      e in docs && Upcoming(e, now) &&
      forall d: Doc :: d in docs && Upcoming(d, now) ==> e["eventDate"].n <= d["eventDate"].n
  {
    var hits: seq<Doc> := Select(docs, d => Upcoming(d, now));
    var sorted: seq<Doc> := SortDocs(hits, ByDate);
    SortDocsMembers(hits, ByDate);
    SortDocsSorted(hits, ByDate);
    assert forall d :: d in sorted <==> d in docs && Upcoming(d, now);
    if |sorted| > 0 {
      assert sorted[0] in sorted;
      forall d: Doc | d in docs && Upcoming(d, now) ensures sorted[0]["eventDate"].n <= d["eventDate"].n {
        var j :| 0 <= j < |sorted| && sorted[j] == d;
        FirstIsEarliest(sorted, j);
      }
    } else {
      forall d | d in docs ensures !Upcoming(d, now) {
        assert d !in sorted;
      }
    }
  }

  const SearchFieldNames: seq<string> := ["key", "eventName", "eventDescription"]

  const EventConfig: ServiceConfig := ServiceConfig("Event", Some(SearchFieldNames))

  // ---- the service ---------------------------------------------------------------------

  class EventService {
    const service: EntityService

    ghost predicate Valid()
      reads service.model
    {
      service.Valid() && service.config == EventConfig &&
      UniqueIndex(service.model.records, "key") && UniqueIndex(service.model.records, "eventSlug")
    }

    constructor (service: EntityService)
      requires service.config == EventConfig
      ensures this.service == service
    {
      this.service := service;
    }

    /** `insertEntity(data, {user})`: save (defaults, validation, hook, indexes),
      * announce the saved event, then write the QR paths when it has a slug. */
    method InsertEvent(data: Doc, key: string, timestamp: int, user: Option<Doc>, now: int) returns (r: Result<Doc>)
      requires Valid()
      modifies service.model, service.emitter
      ensures Valid()
      ensures r.Err? ==>
        r == InsertPlan(old(service.model.records), data, key) &&
        service.model.records == old(service.model.records) && service.emitter.events == old(service.emitter.events)
      ensures r.Ok? ==>
        InsertPlan(old(service.model.records), data, key).Ok? &&
        var saved := Stamped(InsertPlan(old(service.model.records), data, key).value, old(service.model.nextId), now);
        r.value == WithQRCodes(saved, old(service.model.nextId), timestamp, now) &&
        service.model.records == old(service.model.records)[old(service.model.nextId) := r.value] &&
        service.emitter.events == old(service.emitter.events) + [Created("Event", saved, user)]
    {
      var plan := InsertPlan(service.model.records, data, key);
      if plan.Err? {
        return plan;
      }
      var stored := Save(plan.value, timestamp, user, now);
      r := Ok(stored);
    }

    /** Stores a prepared event that clashes with no stored key or slug. */
    method Save(doc: Doc, timestamp: int, user: Option<Doc>, now: int) returns (stored: Doc)
      requires Valid()
      requires "key" in doc && !Clash(service.model.records, "key", doc["key"], -1)
      requires "eventSlug" in doc ==> !Clash(service.model.records, "eventSlug", doc["eventSlug"], -1)
      modifies service.model, service.emitter
      ensures Valid()
      ensures stored == WithQRCodes(Stamped(doc, old(service.model.nextId), now), old(service.model.nextId), timestamp, now)
      ensures service.model.records == old(service.model.records)[old(service.model.nextId) := stored]
      ensures service.emitter.events == old(service.emitter.events) + [Created("Event", Stamped(doc, old(service.model.nextId), now), user)]
    {
      ghost var records0: map<Id, Doc> := service.model.records;
      var id: Id := service.model.nextId;
      EventsUnshaped();
      var saved := service.InsertEntity(doc, user, now);
      stored := saved;
      if FieldTruthy(saved, "eventSlug") {
        stored := AddCodes(id, saved, timestamp, now);
        Overwrite(records0, id, saved, stored);
      }
      SaveKeepsIndex(records0, id, doc, stored, timestamp, now, "key");
      SaveKeepsIndex(records0, id, doc, stored, timestamp, now, "eventSlug");
    }

    /** `findByIdAndUpdate(id, qrPaths, {new: true})` on a stored event; no announcement. */
    method AddCodes(id: Id, doc: Doc, timestamp: int, now: int) returns (r: Doc)
      requires service.model.Valid() && id in service.model.records && service.model.records[id] == doc
      modifies service.model
      ensures service.model.Valid() && service.model.nextId == old(service.model.nextId)
      ensures r == Patched(doc, QRPaths(id, timestamp), {}, now)
      ensures service.model.records == old(service.model.records)[id := r]
    {
      var u := service.model.UpdateById(id, QRPaths(id, timestamp), {}, now);
      r := u.value;
    }

    /** `updateEntity(id, data, {user})`: the generic update (strict mode, no
      * validators, no hook), then new QR paths when the slug changed. */
    method UpdateEvent(id: Id, data: Doc, timestamp: int, user: Option<Doc>, now: int) returns (r: Result<Doc>)
      requires Valid()
      modifies service.model, service.emitter
      ensures Valid() && service.model.nextId == old(service.model.nextId)
      ensures id !in old(service.model.records) ==>
        r == Err("Unable to update Event!") &&
        service.model.records == old(service.model.records) && service.emitter.events == old(service.emitter.events)
      ensures id in old(service.model.records) && UpdateClashes(old(service.model.records), id, Strict(data)) ==>
        r.Err? && (r.msg == DuplicateKey("key") || r.msg == DuplicateKey("eventSlug")) &&
        service.model.records == old(service.model.records) && service.emitter.events == old(service.emitter.events)
      ensures id in old(service.model.records) && !UpdateClashes(old(service.model.records), id, Strict(data)) ==>
        var before := old(service.model.records)[id];
        var after := Patched(before, Strict(data), {}, now);
        r == Ok(if Regenerates(Some(before), after) then Patched(after, QRPaths(id, timestamp), {}, now) else after) &&
        service.model.records == old(service.model.records)[id := r.value] &&
        service.emitter.events == old(service.emitter.events) + [Updated("Event", id, Some(before), after, user)]
    ensures r.Ok? ==> (id in old(service.model.records) &&
                       ("createdAt" in r.value <==> "createdAt" in old(service.model.records)[id]) &&
                       ("createdAt" in r.value ==> r.value["createdAt"] == old(service.model.records)[id]["createdAt"]))
    {
      var assign := Strict(data);
      if id !in service.model.records {
        r := service.UpdateEntity(id, assign, user, now);
        return;
      }
      if "key" in assign && Clash(service.model.records, "key", assign["key"], id) {
        return Err(DuplicateKey("key"));
      }
      if "eventSlug" in assign && Clash(service.model.records, "eventSlug", assign["eventSlug"], id) {
        return Err(DuplicateKey("eventSlug"));
      }
      var revised := Revise(id, assign, timestamp, user, now);
      r := Ok(revised);
    }

    /** Applies a clash-free update to a stored event. */
    method Revise(id: Id, assign: Doc, timestamp: int, user: Option<Doc>, now: int) returns (final: Doc)
      requires Valid() && id in service.model.records && !UpdateClashes(service.model.records, id, assign)
      modifies service.model, service.emitter
      ensures Valid() && service.model.nextId == old(service.model.nextId)
      ensures var before := old(service.model.records)[id];
        var after := Patched(before, assign, {}, now);
        final == (if Regenerates(Some(before), after) then Patched(after, QRPaths(id, timestamp), {}, now) else after) &&
        service.model.records == old(service.model.records)[id := final] &&
        service.emitter.events == old(service.emitter.events) + [Updated("Event", id, Some(before), after, user)]
    {
      ghost var records0: map<Id, Doc> := service.model.records;
      var before := service.model.records[id];
      EventsUnshaped();
      CastPatchDeclared(Loose, assign);
      var updated := service.UpdateEntity(id, assign, user, now);
      var after := updated.value;
      final := Recode(id, before, after, timestamp, now);
      Overwrite(records0, id, after, final);
      KeepsIndexes(records0, id, assign, final, after, timestamp, now);
    }

    /** The QR paths written after an update that changed the slug. */
    method Recode(id: Id, before: Doc, after: Doc, timestamp: int, now: int) returns (final: Doc)
      requires service.model.Valid() && id in service.model.records && service.model.records[id] == after
      modifies service.model
      ensures service.model.Valid() && service.model.nextId == old(service.model.nextId)
      ensures final == if Regenerates(Some(before), after) then Patched(after, QRPaths(id, timestamp), {}, now) else after
      ensures service.model.records == old(service.model.records)[id := final]
    {
      final := after;
      if Regenerates(Some(before), after) {
        final := AddCodes(id, after, timestamp, now);
      } else {
        assert service.model.records[id := final] == service.model.records;
      }
    }

    /** A stored event whose key is `s`, or failing that one whose slug is `s` in
      * lower case; 'No event found' exactly when neither exists. */
    method GetEventByKeyOrSlug(s: string) returns (r: Result<Doc>)
      ensures (exists d :: d in service.model.Documents() && MatchesField(d, "key", Str(s))) ==>
        r.Ok? && MatchesField(r.value, "key", Str(s))
      ensures r.Ok? ==> (r.value in service.model.Documents() &&
        (MatchesField(r.value, "key", Str(s)) || MatchesField(r.value, "eventSlug", Str(ToLower(s)))))
      ensures r.Err? <==> forall d :: d in service.model.Documents() ==>
        !MatchesField(d, "key", Str(s)) && !MatchesField(d, "eventSlug", Str(ToLower(s)))
      ensures r.Err? ==> r.msg == "No event found"
    {
      r := EventByKeyOrSlug(service.model.records, service.model.Documents(), s);
      KeyBeforeSlug(service.model.records, service.model.Documents(), s);
    }

    /** Exactly the stored events open for registration and active, earliest first. */
    method GetOpenRegistrationEvents() returns (r: seq<Doc>)
      ensures forall d :: d in r <==> (d in service.model.Documents() &&
        MatchesField(d, "registrationOpen", Bool(true)) && MatchesField(d, "isActive", Bool(true)))
      ensures multiset(r) == multiset(Find(service.model.Documents(), OpenQuery))
      ensures Sorted(r, ByDate)
    {
      r := OpenRegistrationEvents(service.model.Documents());
      OpenRegistrationExact(service.model.Documents());
    }

    /** The stored upcoming active event with the earliest date, if there is one. */
    method GetNextEvent(now: int) returns (r: Option<Doc>)
      ensures r.None? <==> forall d :: d in service.model.Documents() ==> !Upcoming(d, now)
      ensures r.Some? ==> (r.value in service.model.Documents() && Upcoming(r.value, now) &&
        forall d: Doc :: d in service.model.Documents() && Upcoming(d, now) ==> r.value["eventDate"].n <= d["eventDate"].n)
    {
      r := NextEvent(service.model.Documents(), now);
      NextEventEarliest(service.model.Documents(), now);
    }

    /** The free-text search looks in the key, the name and the description and
      * lists the events it finds newest first. */
    method SearchEvents(s: Value) returns (r: Result<seq<Doc>>)
      requires Valid()
      ensures r.Err? <==> !Truthy(s) || !s.Str?
      ensures !Truthy(s) ==> r == Err("Search term is required!")
      ensures r.Ok? ==> forall d :: d in r.value <==> (d in service.model.Documents() &&
        exists f :: f in ["key", "eventName", "eventDescription"] && f in d && MatchesTerm(d[f], s.s))
      ensures r.Ok? ==> Sorted(r.value, NewestFirst)
    {
      r := service.SearchEntities(s);
      if r.Ok? {
        forall d ensures d in r.value <==> d in service.model.Documents() && Hit(d, SearchFieldNames, s.s) {
          assert d in r.value <==> d in multiset(r.value);
        }
      }
    }
  }

  /** A new event that clashes with no stored key or slug keeps the index on `k`. */
  lemma SaveKeepsIndex(records: map<Id, Doc>, id: Id, doc: Doc, stored: Doc, timestamp: int, now: int, k: string)
    requires id !in records && UniqueIndex(records, k) && (k == "key" || k == "eventSlug")
    requires k in doc ==> !Clash(records, k, doc[k], -1)
    requires stored == WithQRCodes(Stamped(doc, id, now), id, timestamp, now)
    ensures UniqueIndex(records[id := stored], k)
  {
    PatchedKeeps(Stamped(doc, id, now), QRPaths(id, timestamp), now, k);
    UniqueAfterWrite(records, id, stored, k);
  }

  /** `createdAt` is a declared path, so strict mode keeps it in an update body, but
    * the timestamps make it immutable: an update naming it keeps the creation time. */
  lemma CreationTimeKept(before: Doc, data: Doc, now: int)
    requires "createdAt" in before && "createdAt" in data
    ensures "createdAt" in Strict(data)
    ensures Patched(before, Strict(data), {}, now)["createdAt"] == before["createdAt"]
  {
  }

  /** A clash-free update keeps both indexes. */
  lemma KeepsIndexes(records: map<Id, Doc>, id: Id, assign: Doc, final: Doc, after: Doc, timestamp: int, now: int)
    requires id in records && UniqueIndex(records, "key") && UniqueIndex(records, "eventSlug")
    requires !UpdateClashes(records, id, assign)
    requires after == Patched(records[id], assign, {}, now)
    requires final == after || final == Patched(after, QRPaths(id, timestamp), {}, now)
    ensures UniqueIndex(records[id := final], "key") && UniqueIndex(records[id := final], "eventSlug")
  {
    KeepsIndex(records, id, assign, final, after, timestamp, now, "key");
    KeepsIndex(records, id, assign, final, after, timestamp, now, "eventSlug");
  }

  /** An update that passed the clash check keeps the index on `k`. */
  lemma KeepsIndex(records: map<Id, Doc>, id: Id, assign: Doc, final: Doc, after: Doc, timestamp: int, now: int, k: string)
    requires id in records && UniqueIndex(records, k) && (k == "key" || k == "eventSlug")
    requires !UpdateClashes(records, id, assign)
    requires after == Patched(records[id], assign, {}, now)
    requires final == after || final == Patched(after, QRPaths(id, timestamp), {}, now)
    ensures UniqueIndex(records[id := final], k)
  {
    PatchedKeeps(after, QRPaths(id, timestamp), now, k);
    if k !in assign {
      PatchedKeeps(records[id], assign, now, k);
    }
    UniqueAfterWrite(records, id, final, k);
  }
}
