// A document collection as the services use it through their models: records
// keyed by an id the store assigns in increasing order, so that ascending id
// is the collection's natural order; every record carries `_id` and the
// `createdAt`/`updatedAt` timestamps every schema of the core enables.

module Store {
  import opened Wrappers
  import opened Strings
  import opened Values
  import opened DocOrdering

  type Id = nat

  /** What `save()` stores for new data: the data with its id and both timestamps. */
  function Stamped(data: Doc, id: Id, now: int): (d: Doc)
    ensures d.Keys == data.Keys + {"_id", "createdAt", "updatedAt"}
    ensures d["_id"] == Num(id) && d["createdAt"] == Num(now) && d["updatedAt"] == Num(now)
    ensures forall k :: k in data && k !in {"_id", "createdAt", "updatedAt"} ==> d[k] == data[k]
  {
    data["_id" := Num(id)]["createdAt" := Num(now)]["updatedAt" := Num(now)]
  }

  /** The paths no update may write. */
  const Fixed: set<string> := {"_id", "createdAt"}

  /** What an update with `$set: assign` and `$unset: unset` leaves: `_id` and the
    * immutable `createdAt` of the timestamps never change, and `updatedAt` is refreshed. */
  function Patched(doc: Doc, assign: Doc, unset: set<string>, now: int): (d: Doc)
    ensures "updatedAt" in d && d["updatedAt"] == Num(now)
    ensures "_id" in doc ==> "_id" in d && d["_id"] == doc["_id"]
    ensures ("createdAt" in d <==> "createdAt" in doc) && ("createdAt" in doc ==> d["createdAt"] == doc["createdAt"])
    ensures forall k :: k in assign && k !in Fixed && k != "updatedAt" && k !in unset ==> k in d && d[k] == assign[k]
    ensures forall k :: k in unset && k !in Fixed && k != "updatedAt" ==> k !in d
    ensures forall k :: k in doc && k !in assign && k !in unset && k != "updatedAt" ==> k in d && d[k] == doc[k]
  {
    ((doc + (assign - Fixed)) - (unset - Fixed))["updatedAt" := Num(now)]
  }

  // ---- queries ---------------------------------------------------------------

  /** Equality match of one query field: a null query value also matches a missing
    * field, and a scalar matches an array that holds it. */
  predicate MatchesField(d: Doc, k: string, v: Value)
  {
    if v == Null then k !in d || d[k] == Null
    else k in d && (d[k] == v || (d[k].Arr? && v in d[k].items))
  }

  predicate Matches(d: Doc, query: Doc)
  {
    forall k :: k in query ==> MatchesField(d, k, query[k])
  }

  /** Case-insensitive `$regex` match of a term without pattern characters. */
  predicate MatchesTerm(v: Value, term: string)
  {
    v.Str? && Contains(ToLower(v.s), ToLower(term))
  }

  /** The documents a predicate selects, in their given order. */
  function Select(docs: seq<Doc>, p: Doc -> bool): (r: seq<Doc>)
    ensures |r| <= |docs|
    ensures forall d :: d in r <==> d in docs && p(d)
    ensures multiset(r) <= multiset(docs)
  {
    if |docs| == 0 then []
    else
      var front := Select(docs[..|docs| - 1], p);
      var last := docs[|docs| - 1];
      assert docs == docs[..|docs| - 1] + [last];
      if p(last) then front + [last] else front
  }

  function Find(docs: seq<Doc>, query: Doc): (r: seq<Doc>)
    ensures forall d :: d in r <==> d in docs && Matches(d, query)
  {
    Select(docs, d => Matches(d, query))
  }

  function First(docs: seq<Doc>): Option<Doc>
  {
    if |docs| == 0 then None else Some(docs[0])
  }

  /** A `$skip` then a `$limit` stage. */
  function Window(docs: seq<Doc>, skip: int, limit: int): (r: Result<seq<Doc>>)
    ensures r.Ok? <==> skip >= 0 && limit > 0
    ensures r.Ok? ==> |r.value| <= limit
    ensures r.Ok? && skip < |docs| ==> r.value == docs[skip..if skip + limit < |docs| then skip + limit else |docs|]
    ensures r.Ok? && skip >= |docs| ==> r.value == []
  {
    if skip < 0 then Err("$skip must be a non-negative number")
    else if limit <= 0 then Err("the limit must be positive")
    else if skip >= |docs| then Ok([])
    else Ok(docs[skip..if skip + limit < |docs| then skip + limit else |docs|])
  }

  /** A `$sort` specification whose directions are all 1 or -1. */
  function OrderingOf(sort: seq<(string, Value)>): (r: Result<Ordering>)
    ensures r.Ok? ==> ValidOrdering(r.value) && |r.value| == |sort|
    ensures r.Ok? ==> forall i :: 0 <= i < |sort| ==> r.value[i].0 == sort[i].0
    ensures r.Ok? <==> forall i :: 0 <= i < |sort| ==> sort[i].1 in {Num(1), Num(-1)}
  {
    if |sort| == 0 then Ok([])
    else if sort[|sort| - 1].1 !in {Num(1), Num(-1)} then
      Err("$sort key ordering must be 1 (for ascending) or -1 (for descending)")
    else match OrderingOf(sort[..|sort| - 1])
      case Err(m) => Err(m)
      case Ok(front) => Ok(front + [(sort[|sort| - 1].0, sort[|sort| - 1].1.n)])
  }

  /** Records in ascending id order, ids below `n`. */
  function DocsBelow(records: map<Id, Doc>, n: nat): (r: seq<Doc>)
    ensures forall d :: d in r <==> exists id :: id in records && id < n && records[id] == d
  {
    if n == 0 then []
    else
      var front := DocsBelow(records, n - 1);
      if n - 1 in records then front + [records[n - 1]] else front
  }

  lemma {:induction false} DocsBelowUnchanged(records: map<Id, Doc>, id: Id, d: Doc, n: nat)
    requires id >= n
    ensures DocsBelow(records[id := d], n) == DocsBelow(records, n)
  {
    if n > 0 {
      DocsBelowUnchanged(records, id, d, n - 1);
    }
  }

  // ---- the collection ----------------------------------------------------------

  class Collection {
    var records: map<Id, Doc>
    var nextId: Id

    ghost predicate Valid()
      reads this
    {
      forall id :: id in records ==> id < nextId && "_id" in records[id] && records[id]["_id"] == Num(id)
    }

    constructor ()
      ensures Valid() && records == map[] && nextId == 0
    {
      records := map[];
      nextId := 0;
    }

    /** All records in natural order. */
    function Documents(): seq<Doc>
      reads this
    {
      DocsBelow(records, nextId)
    }

    function FindById(id: Id): Option<Doc>
      reads this
    {
      if id in records then Some(records[id]) else None
    }

    /** `findOne(query)`: the first match in natural order. */
    function FindOne(query: Doc): Option<Doc>
      reads this
    {
      First(Find(Documents(), query))
    }

    /** `new Model(data).save()`. */
    method Create(data: Doc, now: int) returns (saved: Doc)
      requires Valid()
      modifies this
      ensures Valid()
      ensures saved == Stamped(data, old(nextId), now)
      ensures records == old(records)[old(nextId) := saved] && nextId == old(nextId) + 1
      ensures Documents() == old(Documents()) + [saved]
    {
      saved := Stamped(data, nextId, now);
      DocsBelowUnchanged(records, nextId, saved, nextId);
      records := records[nextId := saved];
      nextId := nextId + 1;
    }

    /** `findByIdAndUpdate(id, {$set, $unset}, {new: true})`. */
    method UpdateById(id: Id, assign: Doc, unset: set<string>, now: int) returns (r: Option<Doc>)
      requires Valid()
      modifies this
      ensures Valid() && nextId == old(nextId)
      ensures id !in old(records) ==> r == None && records == old(records)
      ensures id in old(records) ==>
        r == Some(Patched(old(records)[id], assign, unset, now)) && records == old(records)[id := r.value]
    {
      if id !in records {
        return None;
      }
      var after := Patched(records[id], assign, unset, now);
      records := records[id := after];
      r := Some(after);
    }

    /** `findByIdAndDelete(id)`. */
    method DeleteById(id: Id) returns (r: Option<Doc>)
      requires Valid()
      modifies this
      ensures Valid() && nextId == old(nextId)
      ensures id !in old(records) ==> r == None && records == old(records)
      ensures id in old(records) ==> r == Some(old(records)[id]) && records == old(records) - {id}
    {
      if id !in records {
        return None;
      }
      r := Some(records[id]);
      records := records - {id};
    }

    /** `updateMany(query, {$set: assign})`. */
    method UpdateMany(query: Doc, assign: Doc, now: int)
      requires Valid()
      modifies this
      ensures Valid() && nextId == old(nextId) && records.Keys == old(records).Keys
      ensures forall id :: id in records ==>
        records[id] == if Matches(old(records)[id], query) then Patched(old(records)[id], assign, {}, now) else old(records)[id]
    {
      var updated := map id | id in records ::
        if Matches(records[id], query) then Patched(records[id], assign, {}, now) else records[id];
      forall id | id in updated
        ensures id < nextId && "_id" in updated[id] && updated[id]["_id"] == Num(id)
      {
        assert "_id" in records[id] && records[id]["_id"] == Num(id);
      }
      records := updated;
    }

    /** `deleteMany(query)`. */
    method DeleteMany(query: Doc)
      requires Valid()
      modifies this
      ensures Valid() && nextId == old(nextId)
      ensures records == map id | id in old(records) && !Matches(old(records)[id], query) :: old(records)[id]
    {
      records := map id | id in records && !Matches(records[id], query) :: records[id];
    }
  }

  /** A record listed by `Documents()` is stored under the id it carries. */
  lemma DocumentHasId(c: Collection, d: Doc)
    requires c.Valid() && d in c.Documents()
    ensures "_id" in d && d["_id"].Num? && d["_id"].n >= 0 && d["_id"].n in c.records && c.records[d["_id"].n] == d
  {
    var id :| id in c.records && id < c.nextId && c.records[id] == d;
  }

  /** A second write to the same record replaces the first. */
  lemma Overwrite(m: map<Id, Doc>, id: Id, a: Doc, b: Doc)
    ensures m[id := a][id := b] == m[id := b]
  {
  }

  /** An update adds no field that neither the record nor the `$set` holds. */
  lemma PatchedAbsent(doc: Doc, assign: Doc, unset: set<string>, now: int, k: string)
    requires k !in doc && k !in assign && k != "updatedAt"
    ensures k !in Patched(doc, assign, unset, now)
  {
  }

  /** An update with no `$unset` leaves every assigned field as assigned. */
  lemma PatchedTakes(doc: Doc, assign: Doc, now: int, k: string)
    requires k in assign && k != "_id" && k != "createdAt" && k != "updatedAt"
    ensures k in Patched(doc, assign, {}, now) && Patched(doc, assign, {}, now)[k] == assign[k]
  {
  }

  /** Storing under an id adds that id to the stored ones. */
  lemma AddedKey(m: map<Id, Doc>, id: Id, d: Doc)
    ensures m[id := d].Keys == m.Keys + {id}
  {
  }

  /** Two announcements in a row are the pair appended at once. */
  lemma AppendTwo<T>(s: seq<T>, a: T, b: T)
    ensures s + [a] + [b] == s + [a, b]
  {
  }
}
