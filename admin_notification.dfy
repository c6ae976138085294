// Administrator notifications (api/services/adminNotification.js over the
// AdminNotification model): the filtered, paged listing and its total, dismissing
// one or all notifications, and the free-text search with its minimum term length.
// Unlike the generic entity services this one announces nothing.

module AdminNotifications {
  import opened Wrappers
  import opened Strings
  import opened Values
  import opened DocOrdering
  import opened RequestParams
  import opened Store

  const NotFound := "No admin notification found!"
  const SearchTooShort := "Search term must be at least 2 characters!"

  /** The three request parameters that become equality conditions. */
  const FilterParams: set<string> := {"notificationType", "userId", "dismissed"}

  /** `dismissed === 'true' || dismissed === true`. */
  predicate DismissedFlag(v: Value)
  {
    v == Str("true") || v == Bool(true)
  }

  /** The query conditions taken from the raw parameters: a truthy notification type
    * and a truthy user id as given, and a present `dismissed` read as a boolean. They
    * are written over `base`. */
  function WithFilterParams(base: Doc, params: Doc): (q: Doc)
    ensures "notificationType" in q <==> "notificationType" in base || FieldTruthy(params, "notificationType")
    ensures "userId" in q <==> "userId" in base || FieldTruthy(params, "userId")
    ensures "dismissed" in q <==> "dismissed" in base || "dismissed" in params
    ensures FieldTruthy(params, "notificationType") ==> q["notificationType"] == params["notificationType"]
    ensures FieldTruthy(params, "userId") ==> q["userId"] == params["userId"]
    ensures "dismissed" in params ==> q["dismissed"] == Bool(DismissedFlag(params["dismissed"]))
    ensures forall k :: k in q && k !in FilterParams ==> k in base && q[k] == base[k]
    ensures forall k :: k in base ==> k in q
    ensures forall k :: k in base && k !in FilterParams ==> q[k] == base[k]
  {
    var q1 := if FieldTruthy(params, "notificationType") then base["notificationType" := params["notificationType"]] else base;
    var q2 := if FieldTruthy(params, "userId") then q1["userId" := params["userId"]] else q1;
    if "dismissed" in params then q2["dismissed" := Bool(DismissedFlag(params["dismissed"]))] else q2
  }

  /** `.limit(limit).skip(page * limit)` on the sorted matches: the database skips
    * first whatever the order of the calls; `false` (all) multiplies to a skip of 0,
    * and a limit of 0 or `false` takes everything after the skip. */
  function SkipPage(ordered: seq<Doc>, page: int, limit: Limit): (r: Result<seq<Doc>>)
    ensures r.Err? <==> (if limit.Limit? then page * limit.n else 0) < 0
    ensures r.Ok? && limit.Limit? && limit.n != 0 ==> |r.value| <= (if limit.n < 0 then -limit.n else limit.n)
    ensures r.Ok? ==> forall d :: d in r.value ==> d in ordered
  {
    var skip := if limit.Limit? then page * limit.n else 0;
    if skip < 0 then Err("$skip must be a non-negative number")
    else
      var rest := if skip >= |ordered| then [] else ordered[skip..];
      if limit.NoLimit? || limit.n == 0 then Ok(rest)
      else
        var take := if limit.n < 0 then -limit.n else limit.n;
        Ok(if take < |rest| then rest[..take] else rest)
  }

  /** `getAdminNotifications(params)`. */
  function ListNotifications(docs: seq<Doc>, params: Doc): Result<seq<Doc>>
  {
    match ParseParams(params)
    case Err(m) => Err(m)
    case Ok(n) =>
      match OrderingOf(n.sort)
      case Err(m) => Err(m)
      case Ok(keys) => SkipPage(SortDocs(Find(docs, WithFilterParams(n.query, params)), keys), n.page, n.limit)
  }

  /** A page of an ordered list is ordered and starts at the skipped position. */
  lemma PageSorted(ordered: seq<Doc>, page: int, limit: Limit, keys: Ordering)
    requires ValidOrdering(keys) && Sorted(ordered, keys) && SkipPage(ordered, page, limit).Ok?
    ensures Sorted(SkipPage(ordered, page, limit).value, keys)
    ensures limit.Limit? && 0 <= page * limit.n < |ordered| ==>
      |SkipPage(ordered, page, limit).value| > 0 && SkipPage(ordered, page, limit).value[0] == ordered[page * limit.n]
  {
    var skip := if limit.Limit? then page * limit.n else 0;
    var rest := if skip >= |ordered| then [] else ordered[skip..];
    var r := SkipPage(ordered, page, limit).value;
    assert r == rest[..|r|];
    forall i, j | 0 <= i < j < |r| ensures Le(r[i], r[j], keys) {
      assert r[i] == ordered[skip + i] && r[j] == ordered[skip + j];
    }
  }

  /** A listed page holds only stored notifications that meet the normalised query
    * and the three parameter filters, in the requested order, starting after
    * `page * limit` of them. */
  lemma ListingShape(docs: seq<Doc>, params: Doc, n: Normalized, keys: Ordering)
    requires ParseParams(params) == Ok(n) && OrderingOf(n.sort) == Ok(keys)
    requires ListNotifications(docs, params).Ok?
    ensures var page := ListNotifications(docs, params).value;
      var ordered := SortDocs(Find(docs, WithFilterParams(n.query, params)), keys);
      && (forall d :: d in page ==> d in docs && Matches(d, WithFilterParams(n.query, params)))
      && (forall d :: d in page && "dismissed" in params ==> MatchesField(d, "dismissed", Bool(DismissedFlag(params["dismissed"]))))
      && Sorted(page, keys)
      && page == SkipPage(ordered, n.page, n.limit).value
      && (n.limit.Limit? && n.limit.n != 0 ==> |page| <= (if n.limit.n < 0 then -n.limit.n else n.limit.n))
      && (n.limit.Limit? && 0 <= n.page * n.limit.n < |ordered| ==> |page| > 0 && page[0] == ordered[n.page * n.limit.n])
  {
    var q := WithFilterParams(n.query, params);
    var matches := Find(docs, q);
    var ordered := SortDocs(matches, keys);
    assert ListNotifications(docs, params) == SkipPage(ordered, n.page, n.limit);
    SortDocsSorted(matches, keys);
    SortDocsMembers(matches, keys);
    var page := ListNotifications(docs, params).value;
    PageSorted(ordered, n.page, n.limit, keys);
    forall d | d in page && "dismissed" in params
      ensures MatchesField(d, "dismissed", Bool(DismissedFlag(params["dismissed"])))
    {
      assert "dismissed" in q;
    }
  }

  /** `getTotalAdminNotifications(params)`: the three parameter filters only. */
  function TotalQuery(params: Doc): Doc
  {
    WithFilterParams(map[], params)
  }

  function Total(docs: seq<Doc>, params: Doc): nat
  {
    |Find(docs, TotalQuery(params))|
  }

  /** Two requests that give the three filter parameters alike. */
  predicate SameFilters(p1: Doc, p2: Doc)
  {
    && (forall k :: k in FilterParams ==> (k in p1 <==> k in p2))
    && (forall k :: k in FilterParams && k in p1 ==> p1[k] == p2[k])
  }

  /** The total depends on nothing but the three filter parameters: search terms,
    * filter strings, sorting and paging never change it. */
  lemma TotalIgnoresOtherParams(docs: seq<Doc>, p1: Doc, p2: Doc)
    requires SameFilters(p1, p2)
    ensures Total(docs, p1) == Total(docs, p2)
  {
    assert "notificationType" in FilterParams && "userId" in FilterParams && "dismissed" in FilterParams;
    assert TotalQuery(p1) == TotalQuery(p2);
  }

  /** Without a search or a filter string the listing and the total use one query,
    * so every listed notification is one the total counts. */
  lemma TotalMatchesPlainListing(docs: seq<Doc>, params: Doc, n: Normalized)
    requires ParseParams(params) == Ok(n) && n.query == map[]
    ensures WithFilterParams(n.query, params) == TotalQuery(params)
    ensures ListNotifications(docs, params).Ok? ==> |ListNotifications(docs, params).value| <= Total(docs, params)
  {
    var q := TotalQuery(params);
    if ListNotifications(docs, params).Ok? {
      var keys := OrderingOf(n.sort).value;
      var ordered := SortDocs(Find(docs, q), keys);
      SortDocsMembers(Find(docs, q), keys);
      var skip := if n.limit.Limit? then n.page * n.limit.n else 0;
      var rest := if skip >= |ordered| then [] else ordered[skip..];
      assert |rest| <= |ordered|;
      assert multiset(ordered) == multiset(Find(docs, q));
      assert |ordered| == |multiset(ordered)|;
    }
  }

  // ---- search ----------------------------------------------------------------

  const SearchFields: seq<string> := ["title", "text", "notificationType"]

  /** `searchTerm.length` of a string (in UTF-16 code units) or an array; other values have none. */
  function LengthOf(v: Value): Option<int>
  {
    match v
    case Str(s) => Some(JsLength(s))
    case Arr(items) => Some(|items|)
    case _ => None
  }

  /** The guard of `searchAdminNotifications`. */
  predicate SearchRefused(term: Value)
  {
    !Truthy(term) || (LengthOf(term).Some? && LengthOf(term).value < 2)
  }

  predicate SearchHit(d: Doc, pattern: string)
  {
    exists f :: f in SearchFields && f in d && MatchesTerm(d[f], pattern)
  }

  /** `searchAdminNotifications(term)`: a case-insensitive match on the title, the
    * text or the type, newest first. */
  function SearchNotifications(docs: seq<Doc>, term: Value): (r: Result<seq<Doc>>)
    ensures r.Err? <==> SearchRefused(term)
    ensures r.Err? ==> r.msg == SearchTooShort
    ensures r.Ok? ==> forall d :: d in r.value <==> d in docs && SearchHit(d, JsString(term))
    ensures r.Ok? ==> Sorted(r.value, NewestFirst)
  {
    if SearchRefused(term) then Err(SearchTooShort)
    else
      var hits := Select(docs, d => SearchHit(d, JsString(term)));
      SortDocsMembers(hits, NewestFirst);
      SortDocsSorted(hits, NewestFirst);
      Ok(SortDocs(hits, NewestFirst))
  }

  /** A one-character term is refused; any longer term lists exactly the matching
    * notifications, newest first. */
  lemma SearchShape(docs: seq<Doc>, term: string)
    ensures JsLength(term) < 2 ==> SearchNotifications(docs, Str(term)) == Err(SearchTooShort)
    ensures JsLength(term) >= 2 ==>
      && SearchNotifications(docs, Str(term)).Ok?
      && (forall d :: d in SearchNotifications(docs, Str(term)).value <==> d in docs && SearchHit(d, term))
      && Sorted(SearchNotifications(docs, Str(term)).value, NewestFirst)
  {
    if JsLength(term) >= 2 {
      assert Truthy(Str(term));
      var hits := Select(docs, d => SearchHit(d, JsString(Str(term))));
      SortDocsMembers(hits, NewestFirst);
      SortDocsSorted(hits, NewestFirst);
    }
  }
  /** One emoji is two code units long, so it is searched for, not refused. */
  lemma EmojiTermSearched(docs: seq<Doc>)
    ensures SearchNotifications(docs, Str("\U{1F600}")).Ok?
  {
    assert JsLength("\U{1F600}") == 2;
    SearchShape(docs, "\U{1F600}");
  }


  // ---- the service ---------------------------------------------------------------

  /** What a dismissal writes. */
  function DismissPatch(now: int): Doc
  {
    map["dismissed" := Bool(true), "dismissedAt" := Num(now)]
  }

  /** A dismissed notification is marked dismissed at that time; nothing else it
    * held changes but its update time. */
  lemma Dismissed(doc: Doc, now: int)
    ensures var d := Patched(doc, DismissPatch(now), {}, now);
      && "dismissed" in d && d["dismissed"] == Bool(true)
      && "dismissedAt" in d && d["dismissedAt"] == Num(now)
      && (forall k :: k in doc && k !in {"dismissed", "dismissedAt", "updatedAt"} ==> k in d && d[k] == doc[k])
  {
    var patch := DismissPatch(now);
    PatchedTakes(doc, patch, now, "dismissed");
    PatchedTakes(doc, patch, now, "dismissedAt");
  }

  class AdminNotificationService {
    const notifications: Collection

    constructor (notifications: Collection)
      ensures this.notifications == notifications
    {
      this.notifications := notifications;
    }

    /** A page of the stored notifications: malformed parameters are refused with
      * their own message; a page holds notifications meeting the query and the
      * three filters, in the requested order, and it is the window of `limit`
      * of them after the first `page * limit`. */
    method GetAdminNotifications(params: Doc) returns (r: Result<seq<Doc>>)
      ensures ParseParams(params).Err? ==> r == Err(ParseParams(params).msg)
      ensures ParseParams(params).Ok? && OrderingOf(ParseParams(params).value.sort).Err? ==>
        r == Err(OrderingOf(ParseParams(params).value.sort).msg)
      ensures ParseParams(params).Ok? && OrderingOf(ParseParams(params).value.sort).Ok? && r.Ok? ==>
        var n := ParseParams(params).value;
        var keys := OrderingOf(n.sort).value;
        var q := WithFilterParams(n.query, params);
        var ordered := SortDocs(Find(notifications.Documents(), q), keys);
        && (forall d :: d in r.value ==> d in notifications.Documents() && Matches(d, q))
        && Sorted(r.value, keys)
        && r == SkipPage(ordered, n.page, n.limit)
        && (n.limit.Limit? && n.limit.n != 0 ==> |r.value| <= (if n.limit.n < 0 then -n.limit.n else n.limit.n))
        && (n.limit.Limit? && 0 <= n.page * n.limit.n < |ordered| ==> |r.value| > 0 && r.value[0] == ordered[n.page * n.limit.n])
    {
      r := ListNotifications(notifications.Documents(), params);
      if ParseParams(params).Ok? && OrderingOf(ParseParams(params).value.sort).Ok? && r.Ok? {
        ListingShape(notifications.Documents(), params, ParseParams(params).value, OrderingOf(ParseParams(params).value.sort).value);
      }
    }

    /** The number of stored notifications meeting the three filters; any request
      * that agrees on those filters has the same total. */
    method GetTotalAdminNotifications(params: Doc) returns (r: nat)
      ensures r <= |notifications.Documents()|
      ensures r == 0 <==> forall d :: d in notifications.Documents() ==> !Matches(d, TotalQuery(params))
      ensures forall other: Doc :: SameFilters(params, other) ==> r == Total(notifications.Documents(), other)
    {
      var hits := Find(notifications.Documents(), TotalQuery(params));
      r := |hits|;
      if r > 0 {
        assert hits[0] in hits;
      }
      forall other: Doc | SameFilters(params, other) ensures r == Total(notifications.Documents(), other) {
        TotalIgnoresOtherParams(notifications.Documents(), params, other);
      }
    }

    /** A term shorter than two characters is refused; otherwise the stored
      * notifications whose title, text or type matches, newest first. */
    method SearchAdminNotifications(term: Value) returns (r: Result<seq<Doc>>)
      ensures r.Err? <==> SearchRefused(term)
      ensures r.Err? ==> r.msg == SearchTooShort
      ensures r.Ok? ==> forall d :: d in r.value <==> d in notifications.Documents() && SearchHit(d, JsString(term))
      ensures r.Ok? ==> Sorted(r.value, NewestFirst)
    {
      r := SearchNotifications(notifications.Documents(), term);
    }

    /** `updateAdminNotification(id, data)`; a missing record is refused. */
    method UpdateAdminNotification(id: Id, data: Doc, now: int) returns (r: Result<Doc>)
      requires notifications.Valid()
      modifies notifications
      ensures notifications.Valid()
      ensures id !in old(notifications.records) ==> r == Err(NotFound) && notifications.records == old(notifications.records)
      ensures id in old(notifications.records) ==>
        r == Ok(Patched(old(notifications.records)[id], data, {}, now)) &&
        notifications.records == old(notifications.records)[id := r.value]
    {
      var after := notifications.UpdateById(id, data, {}, now);
      if after.None? {
        return Err(NotFound);
      }
      r := Ok(after.value);
    }

    /** `dismissAdminNotification(id)`: dismissed, with the time of dismissal. */
    method DismissAdminNotification(id: Id, now: int) returns (r: Result<Doc>)
      requires notifications.Valid()
      modifies notifications
      ensures notifications.Valid()
      ensures id !in old(notifications.records) ==> r == Err(NotFound) && notifications.records == old(notifications.records)
      ensures id in old(notifications.records) ==>
        && r.Ok? && notifications.records == old(notifications.records)[id := r.value]
        && "dismissed" in r.value && r.value["dismissed"] == Bool(true)
        && "dismissedAt" in r.value && r.value["dismissedAt"] == Num(now)
        && (forall k :: k in old(notifications.records)[id] && k !in {"dismissed", "dismissedAt", "updatedAt"} ==>
              k in r.value && r.value[k] == old(notifications.records)[id][k])
    {
      if id in notifications.records {
        Dismissed(notifications.records[id], now);
      }
      r := UpdateAdminNotification(id, DismissPatch(now), now);
    }

    /** `dismissAllAdminNotifications()`: every notification is dismissed and
      * nothing is added or removed. */
    method DismissAllAdminNotifications(now: int)
      requires notifications.Valid()
      modifies notifications
      ensures notifications.Valid()
      ensures notifications.records.Keys == old(notifications.records).Keys
      ensures forall id :: id in notifications.records ==>
        notifications.records[id] == Patched(old(notifications.records)[id], DismissPatch(now), {}, now)
      ensures forall id :: id in notifications.records ==>
        "dismissed" in notifications.records[id] && notifications.records[id]["dismissed"] == Bool(true)
    {
      notifications.UpdateMany(map[], DismissPatch(now), now);
      forall id | id in notifications.records
        ensures "dismissed" in notifications.records[id] && notifications.records[id]["dismissed"] == Bool(true)
      {
        assert Matches(old(notifications.records)[id], map[]);
        assert "dismissed" in DismissPatch(now);
      }
    }
  }
}
