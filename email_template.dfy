// Configurable e-mail templates (api/services/emailTemplate.js and
// api/models/emailTemplate.js): a stored template is keyed by its type and an
// optional event; resolution prefers an active per-event template, then an
// active global one, then the built-in table; `{{name}}` placeholders are
// filled in literally.  The built-in table (wording and HTML) is a parameter.

module EmailTemplates {
  import opened Wrappers
  import opened Strings
  import opened Values
  import opened Store

  datatype DefaultTemplate = DefaultTemplate(labelText: string, description: string, subject: string, body: string, variables: seq<string>)

  /** Where a resolved template came from: `event`, `database` or `default`. */
  datatype Source = EventSource | DatabaseSource | DefaultSource

  datatype Resolved = Resolved(subject: Value, body: Value, variables: Value, source: Source, templateId: Value)

  // ---- the model's lookups ---------------------------------------------------------

  /** `eventId || null`. */
  function EventKey(eventId: Value): Value
  {
    if Truthy(eventId) then eventId else Null
  }

  /** The stored event reference of a template (absent reads as null). */
  function EventOf(d: Doc): Value
  {
    if "eventId" in d then d["eventId"] else Null
  }

  function PairQuery(templateType: Value, eventId: Value): Doc
  {
    map["templateType" := templateType, "eventId" := EventKey(eventId)]
  }

  function ActiveQuery(templateType: Value, eventId: Value): Doc
  {
    PairQuery(templateType, eventId)["isActive" := Bool(true)]
  }

  lemma ActiveQueryMatch(d: Doc, templateType: Value, eventId: Value)
    ensures Matches(d, ActiveQuery(templateType, eventId)) <==>
      MatchesField(d, "templateType", templateType) && MatchesField(d, "eventId", EventKey(eventId)) &&
      MatchesField(d, "isActive", Bool(true))
  {
    var q := ActiveQuery(templateType, eventId);
    assert "templateType" in q && "eventId" in q && "isActive" in q;
  }

  lemma PairQueryMatch(d: Doc, templateType: Value, eventId: Value)
    ensures Matches(d, PairQuery(templateType, eventId)) <==>
      MatchesField(d, "templateType", templateType) && MatchesField(d, "eventId", EventKey(eventId))
  {
    var q := PairQuery(templateType, eventId);
    assert "templateType" in q && "eventId" in q;
  }

  /** `getTemplate(templateType, eventId)`: the first active template of that type for
    * that event (or for none). */
  function GetTemplate(docs: seq<Doc>, templateType: Value, eventId: Value): (r: Option<Doc>)
    ensures r.Some? ==> r.value in docs && Matches(r.value, ActiveQuery(templateType, eventId))
    ensures r.None? ==> forall d :: d in docs ==> !Matches(d, ActiveQuery(templateType, eventId))
  {
    var found := Find(docs, ActiveQuery(templateType, eventId));
    if |found| == 0 then None else assert found[0] in found; Some(found[0])
  }

  /** A template that has been deactivated (reset) is never returned. */
  lemma GetTemplateIsActive(docs: seq<Doc>, templateType: Value, eventId: Value)
    requires GetTemplate(docs, templateType, eventId).Some?
    ensures var d := GetTemplate(docs, templateType, eventId).value;
      "isActive" in d && (d["isActive"] == Bool(true) || (d["isActive"].Arr? && Bool(true) in d["isActive"].items))
  {
    ActiveQueryMatch(GetTemplate(docs, templateType, eventId).value, templateType, eventId);
  }

  /** `getTemplatesByType(templateType)`: every active template of that type. */
  function GetTemplatesByType(docs: seq<Doc>, templateType: Value): (r: seq<Doc>)
    ensures forall d :: d in r <==> d in docs && MatchesField(d, "templateType", templateType) && MatchesField(d, "isActive", Bool(true))
  {
    var q := map["templateType" := templateType, "isActive" := Bool(true)];
    assert "templateType" in q && "isActive" in q;
    Find(docs, q)
  }

  /** `getEmailTemplateByKey(key)`. */
  function TemplateByKey(docs: seq<Doc>, key: Value): (r: Option<Doc>)
    ensures r.Some? ==> r.value in docs && MatchesField(r.value, "key", key)
    ensures r.None? ==> forall d :: d in docs ==> !MatchesField(d, "key", key)
  {
    var q := map["key" := key];
    assert "key" in q;
    var found := Find(docs, q);
    if |found| == 0 then None else assert found[0] in found; Some(found[0])
  }

  // ---- resolution --------------------------------------------------------------------

  /** `DEFAULT_TEMPLATES[name]`. */
  function DefaultFor(defaults: seq<(string, DefaultTemplate)>, name: string): (r: Option<DefaultTemplate>)
    ensures r.Some? <==> exists i :: 0 <= i < |defaults| && defaults[i].0 == name
  {
    if |defaults| == 0 then None
    else if defaults[0].0 == name then Some(defaults[0].1)
    else DefaultFor(defaults[1..], name)
  }

  /** `template.variables || []`. */
  function VariablesOf(d: Doc): Value
  {
    if FieldTruthy(d, "variables") then d["variables"] else Arr([])
  }

  function FromRecord(d: Doc, source: Source): Resolved
  {
    Resolved(if "subject" in d then d["subject"] else Null, if "body" in d then d["body"] else Null,
             VariablesOf(d), source, if "_id" in d then d["_id"] else Null)
  }

  /** `getResolvedTemplate(templateType, eventId)`. */
  function ResolveTemplate(docs: seq<Doc>, defaults: seq<(string, DefaultTemplate)>, templateType: Value, eventId: Value): Option<Resolved>
  {
    if Truthy(eventId) && GetTemplate(docs, templateType, eventId).Some? then
      Some(FromRecord(GetTemplate(docs, templateType, eventId).value, EventSource))
    else if GetTemplate(docs, templateType, Null).Some? then
      Some(FromRecord(GetTemplate(docs, templateType, Null).value, DatabaseSource))
    else match DefaultFor(defaults, JsString(templateType))
      case None => None
      case Some(t) => Some(Resolved(Str(t.subject), Str(t.body), Arr(seq(|t.variables|, i requires 0 <= i < |t.variables| => Str(t.variables[i]))), DefaultSource, Null))
  }

  /** Resolution order: an active template for the event, else an active global
    * template, else the built-in one, else nothing; each source is chosen exactly
    * when every source before it is missing. */
  lemma ResolutionPrecedence(docs: seq<Doc>, defaults: seq<(string, DefaultTemplate)>, templateType: Value, eventId: Value)
    ensures var r := ResolveTemplate(docs, defaults, templateType, eventId);
      && (r.Some? && r.value.source == EventSource <==>
            Truthy(eventId) && exists d :: d in docs && Matches(d, ActiveQuery(templateType, eventId)))
      && (r.Some? && r.value.source == DatabaseSource <==>
            !(Truthy(eventId) && exists d :: d in docs && Matches(d, ActiveQuery(templateType, eventId))) &&
            exists d :: d in docs && Matches(d, ActiveQuery(templateType, Null)))
      && (r.Some? && r.value.source == DefaultSource <==>
            !(Truthy(eventId) && exists d :: d in docs && Matches(d, ActiveQuery(templateType, eventId))) &&
            !(exists d :: d in docs && Matches(d, ActiveQuery(templateType, Null))) &&
            DefaultFor(defaults, JsString(templateType)).Some?)
  {
    var e := GetTemplate(docs, templateType, eventId);
    var g := GetTemplate(docs, templateType, Null);
  }

  /** A falsy event id skips the per-event lookup: it resolves as the global request. */
  lemma FalsyEventIsGlobal(docs: seq<Doc>, defaults: seq<(string, DefaultTemplate)>, templateType: Value, eventId: Value)
    requires !Truthy(eventId)
    ensures ResolveTemplate(docs, defaults, templateType, eventId) == ResolveTemplate(docs, defaults, templateType, Null)
  {
  }

  // ---- substituteVariables -------------------------------------------------------------

  /** `p` occurs in `s` at position `i`. */
  predicate OccursAt(s: string, p: string, i: int)
  {
    0 <= i && i + |p| <= |s| && s[i..i + |p|] == p
  }

  ghost predicate NoOccurrence(s: string, p: string)
  {
    forall i :: !OccursAt(s, p, i)
  }

  /** A global replace of a literal pattern: matches are taken left to right and do
    * not overlap. */
  function ReplaceAll(s: string, p: string, r: string): string
    requires |p| > 0
    decreases |s|
  {
    if |s| < |p| then s
    else if s[..|p|] == p then r + ReplaceAll(s[|p|..], p, r)
    else [s[0]] + ReplaceAll(s[1..], p, r)
  }

  /** No occurrence in `s` past its first character means none in `s[1..]`. */
  lemma Shifted(s: string, t: string, p: string, i: int)
    requires |s| > 0 && t == s[1..] && 0 <= i
    requires !OccursAt(s, p, i + 1)
    ensures !OccursAt(t, p, i)
  {
    if i + |p| <= |t| {
      assert t[i..i + |p|] == s[i + 1..i + 1 + |p|];
    }
  }

  /** Text without the pattern comes back unchanged. */
  lemma {:induction false} ReplaceAllAbsent(s: string, p: string, r: string)
    requires |p| > 0 && NoOccurrence(s, p)
    ensures ReplaceAll(s, p, r) == s
    decreases |s|
  {
    if |s| >= |p| {
      assert !OccursAt(s, p, 0);
      assert s[..|p|] == s[0..|p|];
      forall i ensures !OccursAt(s[1..], p, i) {
        if i >= 0 {
          Shifted(s, s[1..], p, i);
        }
      }
      ReplaceAllAbsent(s[1..], p, r);
    }
  }

  /** The text before the first occurrence is kept, that occurrence is replaced, and
    * the rest is processed the same way. */
  lemma {:induction false} ReplaceFirst(a: string, b: string, p: string, r: string)
    requires |p| > 0
    requires forall i :: 0 <= i < |a| ==> !OccursAt(a + p + b, p, i)
    ensures ReplaceAll(a + p + b, p, r) == a + r + ReplaceAll(b, p, r)
    decreases |a|
  {
    if |a| == 0 {
      assert a + p + b == p + b;
      ReplaceHit(p, b, r);
    } else {
      var s := a + p + b;
      var t := a[1..] + p + b;
      assert s == [a[0]] + t;
      assert !OccursAt(s, p, 0);
      ReplaceMiss(s, p, r);
      forall i | 0 <= i < |a[1..]| ensures !OccursAt(t, p, i) {
        Shifted(s, t, p, i);
      }
      ReplaceFirst(a[1..], b, p, r);
      assert a == [a[0]] + a[1..];
    }
  }

  /** An occurrence at the start is replaced and the scan goes on after it. */
  lemma ReplaceHit(p: string, b: string, r: string)
    requires |p| > 0
    ensures ReplaceAll(p + b, p, r) == r + ReplaceAll(b, p, r)
  {
    var s := p + b;
    assert s[..|p|] == p && s[|p|..] == b;
  }

  /** Without an occurrence at the start, the first character is kept. */
  lemma ReplaceMiss(s: string, p: string, r: string)
    requires |p| > 0 && |s| > 0 && !OccursAt(s, p, 0)
    ensures ReplaceAll(s, p, r) == [s[0]] + ReplaceAll(s[1..], p, r)
  {
    if |s| >= |p| {
      assert s[..|p|] == s[0..|p|];
    }
  }

  /** `{{key}}`. */
  function Placeholder(key: string): (p: string)
    ensures |p| == |key| + 4
  {
    "{{" + key + "}}"
  }

  /** `value || ''`, as the replacement text. */
  function Replacement(v: Value): string
  {
    if Truthy(v) then JsString(v) else ""
  }

  /** The variables replaced one key after another, in the order given. */
  function Substitute(template: string, variables: seq<(string, Value)>): string
  {
    if |variables| == 0 then template
    else
      var last := variables[|variables| - 1];
      ReplaceAll(Substitute(template, variables[..|variables| - 1]), Placeholder(last.0), Replacement(last.1))
  }

  /** `substituteVariables(template, variables)`. */
  method SubstituteVariables(template: string, variables: seq<(string, Value)>) returns (result: string)
    ensures result == Substitute(template, variables)
  {
    result := template;
    var i := 0;
    while i < |variables|
      invariant 0 <= i <= |variables|
      invariant result == Substitute(template, variables[..i])
    {
      assert variables[..i + 1][..i] == variables[..i];
      result := ReplaceAll(result, Placeholder(variables[i].0), Replacement(variables[i].1));
      i := i + 1;
    }
    assert variables[..|variables|] == variables;
  }

  /** A template without any of the supplied placeholders is returned unchanged (in
    * particular with no variables at all). */
  lemma {:induction false} SubstituteUnchanged(template: string, variables: seq<(string, Value)>)
    requires forall i :: 0 <= i < |variables| ==> NoOccurrence(template, Placeholder(variables[i].0))
    ensures Substitute(template, variables) == template
  {
    if |variables| > 0 {
      SubstituteUnchanged(template, variables[..|variables| - 1]);
      ReplaceAllAbsent(template, Placeholder(variables[|variables| - 1].0), Replacement(variables[|variables| - 1].1));
    }
  }

  /** One variable: the first placeholder is replaced by the value, or by nothing when
    * the value is falsy. */
  lemma SubstituteOne(a: string, b: string, key: string, v: Value)
    requires forall i :: 0 <= i < |a| ==> !OccursAt(a + Placeholder(key) + b, Placeholder(key), i)
    ensures Substitute(a + Placeholder(key) + b, [(key, v)]) ==
      a + (if Truthy(v) then JsString(v) else "") + ReplaceAll(b, Placeholder(key), Replacement(v))
  {
    assert [(key, v)][..0] == [];
    ReplaceFirst(a, b, Placeholder(key), Replacement(v));
  }

  // ---- validateTemplate ----------------------------------------------------------------

  /** Length of the leading run of word characters. */
  function WordRun(s: string): (n: nat)
    ensures n <= |s| && forall i :: 0 <= i < n ==> IsWordChar(s[i])
    ensures n < |s| ==> !IsWordChar(s[n])
  {
    if |s| == 0 || !IsWordChar(s[0]) then 0 else 1 + WordRun(s[1..])
  }

  /** `^\{\{\w+\}\}$`. */
  predicate IsPlaceholder(m: string)
  {
    |m| >= 5 && m[..2] == "{{" && m[|m| - 2..] == "}}" && forall i :: 2 <= i < |m| - 2 ==> IsWordChar(m[i])
  }

  /** A match of `\{\{(\w+)\}\}` starts here, of this length. */
  function MatchHere(s: string): Option<nat>
  {
    if |s| >= 2 && s[..2] == "{{" then
      var n := WordRun(s[2..]);
      if n > 0 && 2 + n + 2 <= |s| && s[2 + n..4 + n] == "}}" then Some(n + 4) else None
    else None
  }

  /** `body.match(/\{\{(\w+)\}\}/g)`: the matches, left to right. */
  function Placeholders(s: string): seq<string>
    decreases |s|
  {
    if |s| == 0 then []
    else match MatchHere(s)
      case Some(n) => [s[..n]] + Placeholders(s[n..])
      case None => Placeholders(s[1..])
  }

  lemma MatchIsPlaceholder(s: string)
    requires MatchHere(s).Some?
    ensures IsPlaceholder(s[..MatchHere(s).value])
  {
    var n := WordRun(s[2..]);
    var m := s[..n + 4];
    assert m[..2] == s[..2];
    assert m[|m| - 2..] == s[2 + n..4 + n];
    forall i | 2 <= i < |m| - 2 ensures IsWordChar(m[i]) {
      assert m[i] == s[2..][i - 2];
    }
  }

  /** Every match of the global pattern also matches the anchored one. */
  lemma {:induction false} PlaceholdersWellFormed(s: string)
    ensures forall m :: m in Placeholders(s) ==> IsPlaceholder(m)
    decreases |s|
  {
    if |s| > 0 {
      match MatchHere(s)
      case Some(n) =>
        MatchIsPlaceholder(s);
        PlaceholdersWellFormed(s[n..]);
      case None =>
        PlaceholdersWellFormed(s[1..]);
    }
  }

  /** The matches the anchored test rejects. */
  function Malformed(ms: seq<string>): (r: seq<string>)
    ensures forall m :: m in r ==> m in ms && !IsPlaceholder(m)
  {
    if |ms| == 0 then []
    else if IsPlaceholder(ms[0]) then Malformed(ms[1..])
    else [ms[0]] + Malformed(ms[1..])
  }

  lemma {:induction false} NoneMalformed(ms: seq<string>)
    requires forall m :: m in ms ==> IsPlaceholder(m)
    ensures Malformed(ms) == []
  {
    if |ms| > 0 {
      assert ms[0] in ms;
      NoneMalformed(ms[1..]);
    }
  }

  /** The errors `validateTemplate` collects, in order; a truthy body that is not text
    * has no `match` and throws. */
  function TemplateErrors(data: Doc): Result<seq<string>>
  {
    var missing :=
      (if !FieldTruthy(data, "templateType") then ["templateType is required"] else []) +
      (if !FieldTruthy(data, "subject") then ["subject is required"] else []) +
      (if !FieldTruthy(data, "body") then ["body is required"] else []);
    if !FieldTruthy(data, "body") then Ok(missing)
    else if !data["body"].Str? then Err("TypeError: body.match is not a function")
    else
      var invalid := Malformed(Placeholders(data["body"].s));
      Ok(missing + (if |invalid| > 0 then ["Invalid variable syntax: " + Join(invalid, ", ")] else []))
  }

  /** `validateTemplate(templateData)`: `isValid` and the error list. */
  method ValidateTemplate(data: Doc) returns (r: Result<(bool, seq<string>)>)
    ensures r.Ok? <==> TemplateErrors(data).Ok?
    ensures r.Ok? ==> r.value.1 == TemplateErrors(data).value && (r.value.0 <==> |r.value.1| == 0)
    ensures r.Err? ==> r.msg == TemplateErrors(data).msg
  {
    var errors: seq<string> := [];
    if !FieldTruthy(data, "templateType") {
      errors := errors + ["templateType is required"];
    }
    if !FieldTruthy(data, "subject") {
      errors := errors + ["subject is required"];
    }
    if !FieldTruthy(data, "body") {
      errors := errors + ["body is required"];
    }
    if FieldTruthy(data, "body") {
      if !data["body"].Str? {
        return Err("TypeError: body.match is not a function");
      }
      var invalid := Malformed(Placeholders(data["body"].s));
      if |invalid| > 0 {
        errors := errors + ["Invalid variable syntax: " + Join(invalid, ", ")];
      }
    }
    r := Ok((|errors| == 0, errors));
  }

  /** A template is valid exactly when its type, subject and body are all present:
    * the variable-syntax check never reports anything. */
  lemma ValidIffComplete(data: Doc)
    requires TemplateErrors(data).Ok?
    ensures TemplateErrors(data).value == [] <==>
      FieldTruthy(data, "templateType") && FieldTruthy(data, "subject") && FieldTruthy(data, "body")
    ensures forall e :: e in TemplateErrors(data).value ==> e in {"templateType is required", "subject is required", "body is required"}
  {
    if FieldTruthy(data, "body") {
      PlaceholdersWellFormed(data["body"].s);
      NoneMalformed(Placeholders(data["body"].s));
    }
  }

  // ---- the stored templates ------------------------------------------------------------

  /** What an event reference query can compare: null, or an id. */
  predicate Scalar(v: Value)
  {
    v.Null? || v.Str? || v.Num?
  }

  /** A stored template: a text type and an id-or-null event reference. */
  predicate WellFiled(d: Doc)
  {
    "templateType" in d && d["templateType"].Str? && Scalar(EventOf(d))
  }

  /** Both templates are filed under the same (type, event) pair. */
  predicate SamePair(a: Doc, b: Doc)
  {
    "templateType" in a && "templateType" in b && a["templateType"] == b["templateType"] && EventOf(a) == EventOf(b)
  }

  /** At most one template per (type, event) pair: the schema's unique index. */
  predicate UniquePairs(records: map<Id, Doc>)
  {
    forall i, j :: i in records && j in records && SamePair(records[i], records[j]) ==> i == j
  }

  lemma PairMatch(d: Doc, templateType: string, eventId: Value)
    requires WellFiled(d) && Scalar(EventKey(eventId))
    ensures Matches(d, PairQuery(Str(templateType), eventId)) <==>
      d["templateType"] == Str(templateType) && EventOf(d) == EventKey(eventId)
  {
    PairQueryMatch(d, Str(templateType), eventId);
  }

  const ValidationFailedPrefix: string := "Template validation failed: "
  const TypeNotText: string := "EmailTemplate validation failed: templateType: Cast to string failed"
  const EventNotId: string := "Cast to ObjectId failed for value at path \"eventId\""
  const ModifiedByRequired: string := "EmailTemplate validation failed: modifiedBy: Path `modifiedBy` is required."

  /** `templateData.eventId`, absent reading as undefined. */
  function EventOfData(data: Doc): Value
  {
    if "eventId" in data then data["eventId"] else Null
  }

  /** The fields `saveTemplate` writes over the template filed under the pair. */
  function TemplateUpdate(data: Doc, modifiedBy: Value): (u: Doc)
    ensures "templateType" !in u && "eventId" !in u && "_id" !in u
  {
    map["subject" := if "subject" in data then data["subject"] else Null,
        "body" := if "body" in data then data["body"] else Null,
        "variables" := if FieldTruthy(data, "variables") then data["variables"] else Arr([]),
        "modifiedBy" := modifiedBy, "isActive" := Bool(true)]
  }

  /** The template `saveTemplate` creates when none is filed under the pair; `key` is
    * the generated identifier the schema's default supplies. */
  function NewTemplate(data: Doc, templateType: string, eventId: Value, modifiedBy: Value, key: string): Doc
  {
    TemplateUpdate(data, modifiedBy)["templateType" := Str(templateType)]["eventId" := EventKey(eventId)]["key" := Str(key)]
  }

  /** The error `saveTemplate` stops on before touching the store, if any. */
  function SaveError(data: Doc, modifiedBy: Value): Option<string>
  {
    match TemplateErrors(data)
    case Err(m) => Some(m)
    case Ok(errors) =>
      if |errors| > 0 then Some(ValidationFailedPrefix + Join(errors, ", "))
      else if !data["templateType"].Str? then Some(TypeNotText)
      else if !Scalar(EventKey(EventOfData(data))) then Some(EventNotId)
      else if modifiedBy == Null then Some(ModifiedByRequired)
      else None
  }

  /** A save that passes these checks has a text type, a subject and a body. */
  lemma SaveableData(data: Doc, modifiedBy: Value)
    requires SaveError(data, modifiedBy).None?
    ensures "templateType" in data && data["templateType"].Str? && Scalar(EventKey(EventOfData(data)))
    ensures FieldTruthy(data, "subject") && FieldTruthy(data, "body") && modifiedBy != Null
  {
    ValidIffComplete(data);
  }

  /** Replacing a record by one filed under the same pair keeps the pairs unique. */
  lemma {:induction false} RefileKeepsUnique(records: map<Id, Doc>, id: Id, d: Doc)
    requires UniquePairs(records) && id in records
    requires "templateType" in d && "templateType" in records[id]
    requires d["templateType"] == records[id]["templateType"] && EventOf(d) == EventOf(records[id])
    ensures UniquePairs(records[id := d])
  {
    var after := records[id := d];
    forall i, j | i in after && j in after && SamePair(after[i], after[j]) ensures i == j {
      assert SamePair(records[i], records[j]);
    }
  }

  /** Adding a record under a pair no record uses keeps the pairs unique. */
  lemma {:induction false} FileNewKeepsUnique(records: map<Id, Doc>, id: Id, d: Doc)
    requires UniquePairs(records) && id !in records
    requires forall i :: i in records ==> !SamePair(records[i], d)
    ensures UniquePairs(records[id := d])
  {
    var after := records[id := d];
    forall i, j | i in after && j in after && SamePair(after[i], after[j]) ensures i == j {
      if i != id && j != id {
        assert after[i] == records[i] && after[j] == records[j];
      }
    }
  }

  /** The saved template holds the subject and body sent and who saved it. */
  predicate Carries(saved: Doc, data: Doc, modifiedBy: Value)
    requires "subject" in data && "body" in data
  {
    "subject" in saved && "body" in saved && "modifiedBy" in saved &&
    saved["subject"] == data["subject"] && saved["body"] == data["body"] && saved["modifiedBy"] == modifiedBy
  }

  lemma RefiledCarries(existing: Doc, data: Doc, modifiedBy: Value, now: int)
    requires "subject" in data && "body" in data
    ensures Carries(Patched(existing, TemplateUpdate(data, modifiedBy), {}, now), data, modifiedBy)
  {
    var u := TemplateUpdate(data, modifiedBy);
    assert u["subject"] == data["subject"] && u["body"] == data["body"] && u["modifiedBy"] == modifiedBy;
  }

  lemma NewTemplateCarries(data: Doc, templateType: string, eventId: Value, modifiedBy: Value, key: string, id: Id, now: int)
    requires "subject" in data && "body" in data
    ensures var d := NewTemplate(data, templateType, eventId, modifiedBy, key);
      && "templateType" in d && d["templateType"] == Str(templateType) && EventOf(d) == EventKey(eventId)
      && "isActive" in d && d["isActive"] == Bool(true)
      && Carries(Stamped(d, id, now), data, modifiedBy)
  {
    var d := NewTemplate(data, templateType, eventId, modifiedBy, key);
    assert d["subject"] == data["subject"] && d["body"] == data["body"] && d["modifiedBy"] == modifiedBy;
  }

  /** Every record is filed under a text type and a scalar event, one per pair. */
  predicate FiledRecords(records: map<Id, Doc>)
  {
    UniquePairs(records) && forall id :: id in records ==> WellFiled(records[id])
  }

  /** An update that leaves the type and the event alone keeps the record's pair. */
  lemma RewriteFiled(existing: Doc, assign: Doc, now: int)
    requires WellFiled(existing)
    requires "templateType" !in assign && "eventId" !in assign
    ensures WellFiled(Patched(existing, assign, {}, now)) && SamePair(Patched(existing, assign, {}, now), existing)
  {
    var d := Patched(existing, assign, {}, now);
    assert d["templateType"] == existing["templateType"];
    assert EventOf(d) == EventOf(existing);
  }

  /** Storing a new record keeps the pair it was given. */
  lemma StampFiled(d: Doc, id: Id, now: int)
    requires WellFiled(d)
    ensures WellFiled(Stamped(d, id, now)) && SamePair(Stamped(d, id, now), d)
  {
    var s := Stamped(d, id, now);
    assert s["templateType"] == d["templateType"];
    assert EventOf(s) == EventOf(d);
  }

  lemma RefileKeepsFiled(records: map<Id, Doc>, id: Id, d: Doc)
    requires FiledRecords(records) && id in records
    requires WellFiled(d) && SamePair(d, records[id])
    ensures FiledRecords(records[id := d])
  {
    RefileKeepsUnique(records, id, d);
  }

  lemma FileNewKeepsFiled(records: map<Id, Doc>, id: Id, d: Doc)
    requires FiledRecords(records) && id !in records
    requires WellFiled(d) && forall i :: i in records ==> !SamePair(records[i], d)
    ensures FiledRecords(records[id := d])
  {
    FileNewKeepsUnique(records, id, d);
  }

  /** The store after a save: the template the pair query found is overwritten in
    * place, or, when it found none, a new template is filed under the next id. */
  predicate Saved(before: map<Id, Doc>, nextBefore: Id, found: Option<Doc>, data: Doc, modifiedBy: Value, key: string,
                  now: int, saved: Doc, after: map<Id, Doc>, nextAfter: Id)
    requires "templateType" in data && data["templateType"].Str?
  {
    if found.Some? then
      && "_id" in found.value && found.value["_id"].Num? && found.value["_id"].n >= 0
      && saved == Patched(found.value, TemplateUpdate(data, modifiedBy), {}, now)
      && after == before[found.value["_id"].n := saved] && nextAfter == nextBefore
    else
      && saved == Stamped(NewTemplate(data, data["templateType"].s, EventOfData(data), modifiedBy, key), nextBefore, now)
      && after == before[nextBefore := saved] && nextAfter == nextBefore + 1
  }

  /** The store after a reset: the found template is marked inactive in place. */
  predicate Deactivated(before: map<Id, Doc>, found: Doc, now: int, after: map<Id, Doc>)
  {
    && "_id" in found && found["_id"].Num? && found["_id"].n >= 0
    && found["_id"].n in before && before[found["_id"].n] == found
    && after == before[found["_id"].n := Patched(found, map["isActive" := Bool(false)], {}, now)]
  }

  class TemplateStore {
    const templates: Collection

    ghost predicate Valid()
      reads templates
    {
      templates.Valid() && FiledRecords(templates.records)
    }

    constructor (templates: Collection)
      ensures this.templates == templates
    {
      this.templates := templates;
    }

    /** What a query finds is a stored template that meets it. */
    lemma FoundStored(q: Doc)
      requires templates.FindOne(q).Some?
      ensures templates.FindOne(q).value in templates.Documents() && Matches(templates.FindOne(q).value, q)
    {
      var found := Find(templates.Documents(), q);
      assert found[0] in found;
    }

    /** The only stored template a pair query can find is the one filed under it. */
    lemma OnlyFiled(templateType: string, eventId: Value, id: Id)
      requires Valid() && Scalar(EventKey(eventId)) && id in templates.records
      requires templates.records[id]["templateType"] == Str(templateType) && EventOf(templates.records[id]) == EventKey(eventId)
      ensures forall d :: d in templates.Documents() && Matches(d, PairQuery(Str(templateType), eventId)) ==> d == templates.records[id]
    {
      forall d | d in templates.Documents() && Matches(d, PairQuery(Str(templateType), eventId))
        ensures d == templates.records[id]
      {
        DocumentHasId(templates, d);
        PairMatch(d, templateType, eventId);
        assert SamePair(d, templates.records[id]);
      }
    }

    /** `saveTemplate(templateData, modifiedBy)`: after the checks, the template filed
      * under the pair is overwritten and reactivated, or created; either way it is the
      * one `getTemplate` now finds for that pair, and no other template changes. */
    method SaveTemplate(data: Doc, modifiedBy: Value, key: string, now: int) returns (r: Result<Doc>)
      requires Valid()
      modifies templates
      ensures Valid()
      ensures SaveError(data, modifiedBy).Some? ==>
        r == Err(SaveError(data, modifiedBy).value) && templates.records == old(templates.records) &&
        templates.nextId == old(templates.nextId)
      ensures SaveError(data, modifiedBy).None? ==> r.Ok?
      ensures r.Ok? ==> "templateType" in data && data["templateType"].Str?
      ensures r.Ok? ==> GetTemplate(templates.Documents(), data["templateType"], EventOfData(data)) == Some(r.value)
      ensures r.Ok? ==> "subject" in r.value && "body" in r.value && "modifiedBy" in r.value
      ensures r.Ok? ==> r.value["subject"] == data["subject"] && r.value["body"] == data["body"] && r.value["modifiedBy"] == modifiedBy
      ensures r.Ok? ==> Saved(old(templates.records), old(templates.nextId), old(templates.FindOne(PairQuery(data["templateType"], EventOfData(data)))),
        data, modifiedBy, key, now, r.value, templates.records, templates.nextId)
    {
      var problem := CheckTemplate(data, modifiedBy);
      if problem.Some? {
        return Err(problem.value);
      }
      SaveableData(data, modifiedBy);
      var saved := Upsert(data, modifiedBy, key, now);
      r := Ok(saved);
    }

    /** The write `saveTemplate` makes once its checks pass. */
    method Upsert(data: Doc, modifiedBy: Value, key: string, now: int) returns (saved: Doc)
      requires Valid()
      requires "templateType" in data && data["templateType"].Str? && Scalar(EventKey(EventOfData(data)))
      requires "subject" in data && "body" in data
      modifies templates
      ensures Valid()
      ensures GetTemplate(templates.Documents(), data["templateType"], EventOfData(data)) == Some(saved)
      ensures "subject" in saved && "body" in saved && "modifiedBy" in saved
      ensures saved["subject"] == data["subject"] && saved["body"] == data["body"] && saved["modifiedBy"] == modifiedBy
      ensures Saved(old(templates.records), old(templates.nextId), old(templates.FindOne(PairQuery(data["templateType"], EventOfData(data)))),
        data, modifiedBy, key, now, saved, templates.records, templates.nextId)
    {
      var templateType := data["templateType"].s;
      var eventId := EventOfData(data);
      var existing := templates.FindOne(PairQuery(Str(templateType), eventId));
      var update := TemplateUpdate(data, modifiedBy);
      if existing.Some? {
        FoundStored(PairQuery(Str(templateType), eventId));
        DocumentHasId(templates, existing.value);
        saved := Refile(existing.value["_id"].n, update, templateType, eventId, now);
        RefiledCarries(existing.value, data, modifiedBy, now);
      } else {
        var d := NewTemplate(data, templateType, eventId, modifiedBy, key);
        NewTemplateCarries(data, templateType, eventId, modifiedBy, key, templates.nextId, now);
        saved := FileNew(d, templateType, eventId, now);
      }
    }

    /** The checks `saveTemplate` makes before the store: `validateTemplate`, then the
      * casts and the `required` rule the schema applies on save. */
    method CheckTemplate(data: Doc, modifiedBy: Value) returns (problem: Option<string>)
      ensures problem == SaveError(data, modifiedBy)
    {
      var checked := ValidateTemplate(data);
      if checked.Err? {
        return Some(checked.msg);
      }
      if !checked.value.0 {
        return Some(ValidationFailedPrefix + Join(checked.value.1, ", "));
      }
      ValidIffComplete(data);
      if !data["templateType"].Str? {
        return Some(TypeNotText);
      }
      if !Scalar(EventKey(EventOfData(data))) {
        return Some(EventNotId);
      }
      if modifiedBy == Null {
        return Some(ModifiedByRequired);
      }
      return None;
    }

    /** Overwrite the template a pair query found. */
    method Refile(id: Id, assign: Doc, templateType: string, eventId: Value, now: int) returns (saved: Doc)
      requires Valid() && Scalar(EventKey(eventId))
      requires id in templates.records && Matches(templates.records[id], PairQuery(Str(templateType), eventId))
      requires "templateType" !in assign && "eventId" !in assign && "_id" !in assign
      requires "isActive" in assign && assign["isActive"] == Bool(true)
      modifies templates
      ensures Valid() && templates.nextId == old(templates.nextId)
      ensures saved == Patched(old(templates.records)[id], assign, {}, now)
      ensures templates.records == old(templates.records)[id := saved]
      ensures GetTemplate(templates.Documents(), Str(templateType), eventId) == Some(saved)
    {
      PairMatch(templates.records[id], templateType, eventId);
      saved := Rewrite(id, assign, now);
      Found(templateType, eventId, id);
    }

    /** `$set: assign` on a stored template, leaving its pair alone. */
    method Rewrite(id: Id, assign: Doc, now: int) returns (saved: Doc)
      requires Valid() && id in templates.records
      requires "templateType" !in assign && "eventId" !in assign
      modifies templates
      ensures Valid() && templates.nextId == old(templates.nextId)
      ensures saved == Patched(old(templates.records)[id], assign, {}, now)
      ensures templates.records == old(templates.records)[id := saved]
    {
      saved := Patched(templates.records[id], assign, {}, now);
      RewriteFiled(templates.records[id], assign, now);
      RefileKeepsFiled(templates.records, id, saved);
      var r := templates.UpdateById(id, assign, {}, now);
    }

    /** Create a template under a pair no stored template uses. */
    method FileNew(d: Doc, templateType: string, eventId: Value, now: int) returns (saved: Doc)
      requires Valid() && Scalar(EventKey(eventId))
      requires templates.FindOne(PairQuery(Str(templateType), eventId)).None?
      requires "templateType" in d && d["templateType"] == Str(templateType) && EventOf(d) == EventKey(eventId)
      requires "isActive" in d && d["isActive"] == Bool(true)
      modifies templates
      ensures Valid() && templates.nextId == old(templates.nextId) + 1
      ensures saved == Stamped(d, old(templates.nextId), now)
      ensures templates.records == old(templates.records)[old(templates.nextId) := saved]
      ensures GetTemplate(templates.Documents(), Str(templateType), eventId) == Some(saved)
    {
      var id := templates.nextId;
      saved := Stamped(d, id, now);
      StampFiled(d, id, now);
      forall i | i in templates.records ensures !SamePair(templates.records[i], saved) {
        var other := templates.records[i];
        assert other in templates.Documents();
        PairMatch(other, templateType, eventId);
        assert !Matches(other, PairQuery(Str(templateType), eventId));
      }
      FileNewKeepsFiled(templates.records, id, saved);
      var created := templates.Create(d, now);
      Found(templateType, eventId, id);
    }

    /** An active template filed under a pair is what `getTemplate` returns for it. */
    lemma Found(templateType: string, eventId: Value, id: Id)
      requires Valid() && Scalar(EventKey(eventId)) && id in templates.records
      requires templates.records[id]["templateType"] == Str(templateType) && EventOf(templates.records[id]) == EventKey(eventId)
      requires "isActive" in templates.records[id] && templates.records[id]["isActive"] == Bool(true)
      ensures GetTemplate(templates.Documents(), Str(templateType), eventId) == Some(templates.records[id])
    {
      var d := templates.records[id];
      OnlyFiled(templateType, eventId, id);
      assert d in templates.Documents();
      ActiveQueryMatch(d, Str(templateType), eventId);
      PairQueryMatch(d, Str(templateType), eventId);
      var g := GetTemplate(templates.Documents(), Str(templateType), eventId);
      if g.Some? {
        ActiveQueryMatch(g.value, Str(templateType), eventId);
        PairQueryMatch(g.value, Str(templateType), eventId);
      }
    }

    /** `resetTemplate(templateType, eventId)`: deactivate the template filed under the
      * pair, after which `getTemplate` finds nothing for it and resolution falls back;
      * nothing else changes. */
    method ResetTemplate(templateType: string, eventId: Value, now: int) returns (r: bool)
      requires Valid() && Scalar(EventKey(eventId))
      modifies templates
      ensures Valid() && templates.nextId == old(templates.nextId)
      ensures r <==> old(templates.FindOne(PairQuery(Str(templateType), eventId))).Some?
      ensures !r ==> templates.records == old(templates.records)
      ensures r ==> Deactivated(old(templates.records), old(templates.FindOne(PairQuery(Str(templateType), eventId))).value, now, templates.records)
      ensures GetTemplate(templates.Documents(), Str(templateType), eventId).None?
    {
      var existing := templates.FindOne(PairQuery(Str(templateType), eventId));
      if existing.None? {
        Unfiled(templateType, eventId);
        return false;
      }
      FoundStored(PairQuery(Str(templateType), eventId));
      DocumentHasId(templates, existing.value);
      Deactivate(existing.value["_id"].n, templateType, eventId, now);
      r := true;
    }

    /** With nothing filed under a pair, `getTemplate` finds nothing for it either. */
    lemma Unfiled(templateType: string, eventId: Value)
      requires templates.FindOne(PairQuery(Str(templateType), eventId)).None?
      ensures GetTemplate(templates.Documents(), Str(templateType), eventId).None?
    {
      var g := GetTemplate(templates.Documents(), Str(templateType), eventId);
      if g.Some? {
        ActiveQueryMatch(g.value, Str(templateType), eventId);
        PairQueryMatch(g.value, Str(templateType), eventId);
        assert g.value in Find(templates.Documents(), PairQuery(Str(templateType), eventId));
      }
    }

    /** Mark the template a pair query found inactive. */
    method Deactivate(id: Id, templateType: string, eventId: Value, now: int)
      requires Valid() && Scalar(EventKey(eventId))
      requires id in templates.records && Matches(templates.records[id], PairQuery(Str(templateType), eventId))
      modifies templates
      ensures Valid() && templates.nextId == old(templates.nextId)
      ensures templates.records == old(templates.records)[id := Patched(old(templates.records)[id], map["isActive" := Bool(false)], {}, now)]
      ensures GetTemplate(templates.Documents(), Str(templateType), eventId).None?
    {
      PairMatch(templates.records[id], templateType, eventId);
      var after := Rewrite(id, map["isActive" := Bool(false)], now);
      Gone(templateType, eventId, id);
    }

    /** An inactive template filed under a pair hides every other for it. */
    lemma Gone(templateType: string, eventId: Value, id: Id)
      requires Valid() && Scalar(EventKey(eventId)) && id in templates.records
      requires templates.records[id]["templateType"] == Str(templateType) && EventOf(templates.records[id]) == EventKey(eventId)
      requires "isActive" in templates.records[id] && templates.records[id]["isActive"] == Bool(false)
      ensures GetTemplate(templates.Documents(), Str(templateType), eventId).None?
    {
      OnlyFiled(templateType, eventId, id);
      var g := GetTemplate(templates.Documents(), Str(templateType), eventId);
      if g.Some? {
        ActiveQueryMatch(g.value, Str(templateType), eventId);
        PairQueryMatch(g.value, Str(templateType), eventId);
      }
    }

    /** `getAllTemplateTypes()`: one summary per built-in type, in table order. */
    method GetAllTemplateTypes(defaults: seq<(string, DefaultTemplate)>) returns (result: seq<Summary>)
      ensures result == Summaries(templates.Documents(), defaults)
    {
      result := [];
      var i := 0;
      while i < |defaults|
        invariant 0 <= i <= |defaults|
        invariant result == Summaries(templates.Documents(), defaults[..i])
      {
        assert defaults[..i + 1][..i] == defaults[..i];
        result := result + [SummaryOf(templates.Documents(), defaults[i])];
        i := i + 1;
      }
      assert defaults[..|defaults|] == defaults;
    }
  }

  datatype Summary = Summary(templateType: string, labelText: string, description: string, variables: seq<string>,
                             hasCustomTemplate: bool, customTemplateId: Value)

  /** The summary of one built-in type: `label || templateType`, and whether an active
    * global template overrides it. */
  function SummaryOf(docs: seq<Doc>, entry: (string, DefaultTemplate)): Summary
  {
    var custom := GetTemplate(docs, Str(entry.0), Null);
    Summary(entry.0, if entry.1.labelText != "" then entry.1.labelText else entry.0, entry.1.description, entry.1.variables,
            custom.Some?, if custom.Some? && "_id" in custom.value then custom.value["_id"] else Null)
  }

  function Summaries(docs: seq<Doc>, defaults: seq<(string, DefaultTemplate)>): seq<Summary>
  {
    if |defaults| == 0 then []
    else Summaries(docs, defaults[..|defaults| - 1]) + [SummaryOf(docs, defaults[|defaults| - 1])]
  }

  lemma {:induction false} SummariesPointwise(docs: seq<Doc>, defaults: seq<(string, DefaultTemplate)>)
    ensures |Summaries(docs, defaults)| == |defaults|
    ensures forall i :: 0 <= i < |defaults| ==> Summaries(docs, defaults)[i] == SummaryOf(docs, defaults[i])
  {
    if |defaults| > 0 {
      var front := defaults[..|defaults| - 1];
      SummariesPointwise(docs, front);
      assert Summaries(docs, defaults) == Summaries(docs, front) + [SummaryOf(docs, defaults[|defaults| - 1])];
      forall i | 0 <= i < |front| ensures Summaries(docs, defaults)[i] == SummaryOf(docs, defaults[i]) {
        assert front[i] == defaults[i];
      }
    }
  }

  /** One summary per built-in type, in order; a type is marked customised exactly
    * when an active global template of that type is stored, and its label falls back
    * to the type name. */
  lemma SummariesCharacterised(docs: seq<Doc>, defaults: seq<(string, DefaultTemplate)>)
    ensures var r := Summaries(docs, defaults);
      && |r| == |defaults|
      && (forall i :: 0 <= i < |r| ==> r[i].templateType == defaults[i].0 && r[i].variables == defaults[i].1.variables)
      && (forall i :: 0 <= i < |r| ==> r[i].labelText == defaults[i].1.labelText || (defaults[i].1.labelText == "" && r[i].labelText == defaults[i].0))
      && (forall i :: 0 <= i < |r| ==>
            (r[i].hasCustomTemplate <==> exists d :: d in docs && Matches(d, ActiveQuery(Str(defaults[i].0), Null))))
  {
    SummariesPointwise(docs, defaults);
  }
}
