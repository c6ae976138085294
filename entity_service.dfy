// The generic create/read/update/delete/list/search service every managed
// resource is built from (api/services/abstracts/BaseEntityService.js).  The
// per-resource part is a small configuration: the resource's name and its
// searchable fields; the service works on that resource's collection and
// announces every change on the shared lifecycle channel.

module EntityServices {
  import opened Wrappers
  import opened Strings
  import opened Values
  import opened DocOrdering
  import opened RequestParams
  import opened Store
  import opened Lifecycle
  import opened Schemas

  /** A resource's model name and its searchable fields. */
  datatype ServiceConfig = ServiceConfig(entityName: string, searchFieldsOverride: Option<seq<string>>)

  /** The base service is only ever built as part of a concrete resource service. */
  datatype Construction = Direct | Subclass(config: ServiceConfig)

  function Construct(c: Construction): (r: Result<ServiceConfig>)
    ensures r.Err? <==> c.Direct?
    ensures r.Ok? ==> r.value == c.config
  {
    if c.Direct? then Err("BaseEntityService is abstract and cannot be instantiated directly")
    else Ok(c.config)
  }

  /** Fields a free-text search looks in: `key` unless the resource names others. */
  function SearchFields(config: ServiceConfig): (r: seq<string>)
    ensures config.searchFieldsOverride.None? ==> r == ["key"]
  {
    if config.searchFieldsOverride.Some? then config.searchFieldsOverride.value else ["key"]
  }

  // ---- reads, as functions of the collection's documents -------------------------

  /** `getEntityBy(field, value)`: by id, by key, or by any other field. */
  function LookupEntity(records: map<Id, Doc>, docs: seq<Doc>, nameLower: string, field: string, value: Value): Result<Doc>
  {
    if field == "id" then
      if value.Num? && value.n >= 0 && value.n in records then Ok(records[value.n])
      else if value.Num? && value.n >= 0 then Err("No " + nameLower + " found")
      else Err("Cast to ObjectId failed")
    else
      var found := First(Find(docs, map[field := value]));
      if found.None? then Err("No " + nameLower + " found") else Ok(found.value)
  }

  lemma LookupByField(records: map<Id, Doc>, docs: seq<Doc>, nameLower: string, field: string, value: Value)
    requires field != "id"
    ensures var r := LookupEntity(records, docs, nameLower, field, value);
      (r.Ok? <==> exists d :: d in docs && MatchesField(d, field, value)) &&
      (r.Ok? ==> r.value in docs && MatchesField(r.value, field, value)) &&
      (r.Err? ==> r.msg == "No " + nameLower + " found")
  {
    var q := map[field := value];
    var found := Find(docs, q);
    forall d | d in docs ensures Matches(d, q) <==> MatchesField(d, field, value) {
      assert field in q && q[field] == value;
      if MatchesField(d, field, value) {
        forall k | k in q ensures MatchesField(d, k, q[k]) {
          assert k == field;
        }
      }
    }
    if |found| > 0 {
      assert found[0] in found;
    } else {
      forall d | d in docs ensures !MatchesField(d, field, value) {
        assert d !in found;
      }
    }
  }

  /** Skip and limit of a normalised request: an unlimited request skips nothing. */
  function SkipOf(n: Normalized): int
  {
    if n.limit.Limit? then n.page * n.limit.n else 0
  }

  /** `limit || 99999999`. */
  function LimitOfWindow(n: Normalized): int
  {
    if n.limit.Limit? && n.limit.n != 0 then n.limit.n else 99999999
  }

  /** `getEntities(params)`: match, then sort, then skip `page * limit`, then limit. */
  function ListEntities(docs: seq<Doc>, params: Doc): Result<seq<Doc>>
  {
    match ParseParams(params)
    case Err(m) => Err(m)
    case Ok(n) =>
      match OrderingOf(n.sort)
      case Err(m) => Err(m)
      case Ok(keys) => Window(SortDocs(Find(docs, n.query), keys), SkipOf(n), LimitOfWindow(n))
  }

  lemma SliceSorted(s: seq<Doc>, keys: Ordering, a: int, b: int)
    requires ValidOrdering(keys) && Sorted(s, keys) && 0 <= a <= b <= |s|
    ensures Sorted(s[a..b], keys)
  {
    forall i, j | 0 <= i < j < b - a ensures Le(s[a..b][i], s[a..b][j], keys) {
      assert s[a..b][i] == s[a + i] && s[a..b][j] == s[a + j];
    }
  }

  /** A window of an ordered list is ordered and holds only elements of the list. */
  lemma WindowOfSorted(ordered: seq<Doc>, keys: Ordering, skip: int, limit: int)
    requires ValidOrdering(keys) && Sorted(ordered, keys)
    requires Window(ordered, skip, limit).Ok?
    ensures Sorted(Window(ordered, skip, limit).value, keys)
    ensures forall d :: d in Window(ordered, skip, limit).value ==> d in ordered
  {
    if skip < |ordered| {
      SliceSorted(ordered, keys, skip, if skip + limit < |ordered| then skip + limit else |ordered|);
    }
  }

  /** A listed page holds only matching documents, at most `limit` of them, in the
    * requested order, and it is exactly the window of the ordered matches; an
    * unlimited request lists every match (up to the 99999999 fallback limit). */
  lemma ListEntitiesShape(docs: seq<Doc>, params: Doc, n: Normalized, keys: Ordering)
    requires ParseParams(params) == Ok(n) && OrderingOf(n.sort) == Ok(keys)
    requires ListEntities(docs, params).Ok?
    ensures var page := ListEntities(docs, params).value;
      var ordered := SortDocs(Find(docs, n.query), keys);
      (forall d :: d in page ==> d in docs && Matches(d, n.query)) &&
      |page| <= LimitOfWindow(n) &&
      Sorted(page, keys) &&
      page == Window(ordered, SkipOf(n), LimitOfWindow(n)).value &&
      (n.limit == NoLimit && |ordered| <= 99999999 ==> page == ordered)
  {
    var matches := Find(docs, n.query);
    var ordered := SortDocs(matches, keys);
    assert ListEntities(docs, params) == Window(ordered, SkipOf(n), LimitOfWindow(n));
    SortDocsSorted(matches, keys);
    SortDocsMembers(matches, keys);
    WindowOfSorted(ordered, keys, SkipOf(n), LimitOfWindow(n));
    if n.limit == NoLimit && |ordered| <= 99999999 {
      WholeWindow(ordered, 99999999);
    }
  }

  /** A window from the start that is at least as long as the list is the whole list. */
  lemma WholeWindow(docs: seq<Doc>, limit: int)
    requires 0 < limit && |docs| <= limit
    ensures Window(docs, 0, limit) == Ok(docs)
  {
    if 0 < |docs| {
      assert docs[0..|docs|] == docs;
    }
  }

  /** A document whose search field holds the term, case-insensitively. */
  predicate Hit(d: Doc, fields: seq<string>, term: string)
  {
    exists f :: f in fields && f in d && MatchesTerm(d[f], term)
  }

  /** The documents a search for `term` finds, in their stored order. */
  function Hits(docs: seq<Doc>, fields: seq<string>, term: string): seq<Doc>
  {
    Select(docs, d => Hit(d, fields, term))
  }

  /** `searchEntities({s})`: case-insensitive match on any search field, newest first. */
  function SearchDocs(docs: seq<Doc>, fields: seq<string>, s: Value): (r: Result<seq<Doc>>)
    ensures r.Err? <==> !Truthy(s) || !s.Str?
    ensures !Truthy(s) ==> r == Err("Search term is required!")
    ensures r.Ok? ==> forall d :: d in r.value <==> d in docs && Hit(d, fields, s.s)
    ensures r.Ok? ==> multiset(r.value) == multiset(Hits(docs, fields, s.s))
    ensures r.Ok? ==> Sorted(r.value, NewestFirst)
  {
    if !Truthy(s) then Err("Search term is required!")
    else if !s.Str? then Err("$regex has to be a string")
    else
      var hits := Hits(docs, fields, s.s);
      SortDocsMembers(hits, NewestFirst);
      SortDocsSorted(hits, NewestFirst);
      Ok(SortDocs(hits, NewestFirst))
  }

  // ---- the service -----------------------------------------------------------------

  class EntityService {
    const config: ServiceConfig
    const model: Collection
    const emitter: Emitter

    ghost predicate Valid()
      reads model
    {
      model.Valid()
    }

    constructor (config: ServiceConfig, model: Collection, emitter: Emitter)
      ensures this.config == config && this.model == model && this.emitter == emitter
    {
      this.config := config;
      this.model := model;
      this.emitter := emitter;
    }

    function EntityName(): string { config.entityName }

    function EntityNameLower(): string { ToLower(config.entityName) }

    /** The schema of the model the service works on. */
    function Schema(): Schema { SchemaOf(config.entityName) }

    /** `insertEntity(data, {user})`: store the record as the schema casts it, then
      * announce its creation. */
    method InsertEntity(data: Doc, user: Option<Doc>, now: int) returns (saved: Doc)
      requires Valid()
      modifies model, emitter
      ensures Valid()
      ensures saved == Stamped(Cast(Schema(), data, now), old(model.nextId), now)
      ensures model.records == old(model.records)[old(model.nextId) := saved]
      ensures model.nextId == old(model.nextId) + 1
      ensures emitter.events == old(emitter.events) + [Created(EntityName(), saved, user)]
    {
      saved := model.Create(Cast(Schema(), data, now), now);
      emitter.Emit(Created(EntityName(), saved, user));
    }

    /** `updateEntity(id, data, {user})`: read the record before, apply the update
      * with the paths the schema declares, announce both versions; a missing record
      * is refused and nothing is announced. */
    method UpdateEntity(id: Id, data: Doc, user: Option<Doc>, now: int) returns (r: Result<Doc>)
      requires Valid()
      modifies model, emitter
      ensures Valid() && model.nextId == old(model.nextId)
      ensures id !in old(model.records) ==>
        r == Err("Unable to update " + EntityName() + "!") &&
        model.records == old(model.records) && emitter.events == old(emitter.events)
      ensures id in old(model.records) ==>
        r == Ok(Patched(old(model.records)[id], CastPatch(Schema(), data), {}, now)) &&
        model.records == old(model.records)[id := r.value] &&
        emitter.events == old(emitter.events) + [Updated(EntityName(), id, Some(old(model.records)[id]), r.value, user)]
    {
      var before := model.FindById(id);
      var after := model.UpdateById(id, CastPatch(Schema(), data), {}, now);
      if after.None? {
        return Err("Unable to update " + EntityName() + "!");
      }
      emitter.Emit(Updated(EntityName(), id, before, after.value, user));
      r := Ok(after.value);
    }

    /** `deleteEntity(id, {user})`. */
    method DeleteEntity(id: Id, user: Option<Doc>) returns (r: Result<Doc>)
      requires Valid()
      modifies model, emitter
      ensures Valid() && model.nextId == old(model.nextId)
      ensures id !in old(model.records) ==>
        r == Err("Unable to delete " + EntityName() + "!") &&
        model.records == old(model.records) && emitter.events == old(emitter.events)
      ensures id in old(model.records) ==>
        r == Ok(old(model.records)[id]) && model.records == old(model.records) - {id} &&
        emitter.events == old(emitter.events) + [Deleted(EntityName(), r.value, user)]
    {
      var deleted := model.DeleteById(id);
      if deleted.None? {
        return Err("Unable to delete " + EntityName() + "!");
      }
      emitter.Emit(Deleted(EntityName(), deleted.value, user));
      r := Ok(deleted.value);
    }

    /** By id: the record stored under that id; by any other field: a document
      * holding the value there, refused exactly when none does. */
    method GetEntityBy(field: string, value: Value) returns (r: Result<Doc>)
      ensures field == "id" ==>
        (r.Ok? <==> value.Num? && value.n >= 0 && value.n in model.records) &&
        (r.Ok? ==> r.value == model.records[value.n]) &&
        (r.Err? ==> r.msg == if value.Num? && value.n >= 0 then "No " + EntityNameLower() + " found" else "Cast to ObjectId failed")
      ensures field != "id" ==>
        (r.Ok? <==> exists d :: d in model.Documents() && MatchesField(d, field, value)) &&
        (r.Ok? ==> r.value in model.Documents() && MatchesField(r.value, field, value)) &&
        (r.Err? ==> r.msg == "No " + EntityNameLower() + " found")
    {
      r := LookupEntity(model.records, model.Documents(), EntityNameLower(), field, value);
      if field != "id" {
        LookupByField(model.records, model.Documents(), EntityNameLower(), field, value);
      }
    }

    /** A page of the collection: malformed parameters are refused with their own
      * message; a page holds matching stored documents, at most `limit`, in the
      * requested order; it is the window of the ordered matches after `page * limit`,
      * and an unlimited request lists every match. */
    method GetEntities(params: Doc) returns (r: Result<seq<Doc>>)
      ensures ParseParams(params).Err? ==> r == Err(ParseParams(params).msg)
      ensures ParseParams(params).Ok? && OrderingOf(ParseParams(params).value.sort).Err? ==>
        r == Err(OrderingOf(ParseParams(params).value.sort).msg)
      ensures ParseParams(params).Ok? && OrderingOf(ParseParams(params).value.sort).Ok? && r.Ok? ==>
        var n := ParseParams(params).value;
        var keys := OrderingOf(n.sort).value;
        var matches := Find(model.Documents(), n.query);
        (forall d :: d in r.value ==> d in model.Documents() && Matches(d, n.query)) &&
        |r.value| <= LimitOfWindow(n) && Sorted(r.value, keys) &&
        r == Window(SortDocs(matches, keys), SkipOf(n), LimitOfWindow(n)) &&
        (n.limit == NoLimit && |matches| <= 99999999 ==> r.value == SortDocs(matches, keys))
    {
      r := ListEntities(model.Documents(), params);
      if ParseParams(params).Ok? && OrderingOf(ParseParams(params).value.sort).Ok? && r.Ok? {
        ListEntitiesShape(model.Documents(), params, ParseParams(params).value, OrderingOf(ParseParams(params).value.sort).value);
      }
    }

    /** A search lists, newest first, each stored document whose search field
      * holds the term; a missing or non-string term is refused. */
    method SearchEntities(s: Value) returns (r: Result<seq<Doc>>)
      ensures r.Err? <==> !Truthy(s) || !s.Str?
      ensures !Truthy(s) ==> r == Err("Search term is required!")
      ensures r.Ok? ==> multiset(r.value) == multiset(Hits(model.Documents(), SearchFields(config), s.s))
      ensures r.Ok? ==> Sorted(r.value, NewestFirst)
    {
      r := SearchDocs(model.Documents(), SearchFields(config), s);
    }
  }
}
