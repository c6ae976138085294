// The two paged admin listings, the change log (frontend/src/Pages/Admin/ChangeLog.jsx)
// and the sent e-mails (frontend/src/Pages/Admin/Emails.jsx): the query each page
// sends, how the server reads it back, the paging flags, and the two text
// formatters of their rows.

module AdminListings {
  import opened Wrappers
  import opened Strings
  import opened Values
  import RequestParams
  import UserServices

  /** Rows per page on both listings. */
  const PageSize: nat := 25

  // ---- the query --------------------------------------------------------------------------

  /** The chosen filters, in order, with the unset ones (`''`) left out. */
  function FilterPairs(choices: seq<(string, string)>): (r: seq<(string, string)>)
    ensures |r| <= |choices|
    ensures forall i :: 0 <= i < |r| ==> r[i] in choices && r[i].1 != ""
    ensures forall i :: 0 <= i < |choices| && choices[i].1 != "" ==> choices[i] in r
  {
    if |choices| == 0 then []
    else
      var front := FilterPairs(choices[..|choices| - 1]);
      assert forall i :: 0 <= i < |choices| - 1 ==> choices[..|choices| - 1][i] == choices[i];
      var c := choices[|choices| - 1];
      if c.1 != "" then front + [c] else front
  }

  /** The change log filters by entity type and action. */
  function ChangeLogChoices(entityType: string, action: string): seq<(string, string)>
  {
    [("entityType", entityType), ("action", action)]
  }

  /** The e-mail listing filters by type and status. */
  function EmailChoices(emailType: string, status: string): seq<(string, string)>
  {
    [("emailType", emailType), ("status", status)]
  }

  /** The query string the listing sends, as the server receives it: every value
    * arrives as text, and `filters` only when a filter is chosen. */
  function ListQuery(pairs: seq<(string, string)>, page: nat): (q: Doc)
    ensures "filters" in q <==> |pairs| > 0
  {
    map["sort" := Str("!createdAt"), "limit" := Str(NatToString(PageSize)), "page" := Str(NatToString(page))]
    + (if |pairs| > 0 then map["filters" := Str(RequestParams.FilterString(pairs))] else map[])
  }

  /** Reading back the decimal text of a number gives the number. */
  lemma {:induction false} DigitsRoundTrip(n: nat)
    ensures RequestParams.DigitsValue(NatToString(n)) == n
  {
    var s := NatToString(n);
    if n >= 10 {
      DigitsRoundTrip(n / 10);
      assert s[..|s| - 1] == NatToString(n / 10);
    }
  }

  lemma NumberText(n: nat)
    ensures RequestParams.IsNumeric(Str(NatToString(n)))
    ensures RequestParams.ParseInt(Str(NatToString(n))) == n
    ensures Truthy(Str(NatToString(n)))
  {
    DigitsRoundTrip(n);
  }

  /** The filter values offered by the two pages' dropdowns. */
  const ChangeLogEntityTypes: seq<string> := ["Event", "User", "EventRegistration", "AdminNotification"]
  const ChangeLogActions: seq<string> := ["create", "update", "delete"]
  const EmailTypes: seq<string> :=
    ["password_reset", "email_verification", "notification", "marketing", "system", "registration_confirmation"]
  const EmailStatuses: seq<string> := ["pending", "sent", "failed", "bounced", "delivered"]

  lemma QueryEntries(pairs: seq<(string, string)>, page: nat)
    ensures var q := ListQuery(pairs, page);
      && "sort" in q && q["sort"] == Str("!createdAt")
      && "limit" in q && q["limit"] == Str(NatToString(PageSize))
      && "page" in q && q["page"] == Str(NatToString(page))
      && "search" !in q && "all" !in q && "after" !in q && "before" !in q && "cursorField" !in q
      && (|pairs| > 0 ==> q["filters"] == Str(RequestParams.FilterString(pairs)))
  {
  }

  /** The sort `!createdAt` is read as newest first. */
  lemma QuerySort(pairs: seq<(string, string)>, page: nat)
    ensures RequestParams.RequestedSort(ListQuery(pairs, page)) == Ok([("createdAt", Num(-1))])
  {
    QueryEntries(pairs, page);
    var column := "!createdAt";
    assert column[0] == '!' && column[1..] == "createdAt";
    assert RequestParams.IsValidSortKey("createdAt");
  }

  /** The window: 25 rows at the page asked for. */
  lemma QueryWindow(pairs: seq<(string, string)>, page: nat)
    ensures RequestParams.LimitOf(ListQuery(pairs, page)) == RequestParams.Limit(PageSize)
    ensures RequestParams.PageOf(ListQuery(pairs, page)) == page
    ensures RequestParams.SearchQuery(ListQuery(pairs, page)) == Ok(map[])
  {
    QueryEntries(pairs, page);
    NumberText(PageSize);
    NumberText(page);
  }

  /** The filters: exactly the chosen pairs. */
  lemma QueryFilters(pairs: seq<(string, string)>, page: nat)
    requires forall i :: 0 <= i < |pairs| ==> RequestParams.PlainFilterPair(pairs[i])
    ensures RequestParams.FiltersOf(ListQuery(pairs, page)) == RequestParams.PairsDoc(pairs)
  {
    var q := ListQuery(pairs, page);
    if |pairs| > 0 {
      assert "filters" in q && q["filters"] == Str(RequestParams.FilterString(pairs)) by {
        QueryEntries(pairs, page);
      }
      RequestParams.FilterStringRoundTrip(q, pairs);
    } else {
      assert !FieldTruthy(q, "filters");
    }
  }

  /** The server reads a listing's query back as: newest first, a window of 25 rows
    * at the page asked for, and exactly the chosen filters as the query. */
  lemma ListQueryRoundTrip(pairs: seq<(string, string)>, page: nat)
    requires forall i :: 0 <= i < |pairs| ==> RequestParams.PlainFilterPair(pairs[i])
    ensures var r := RequestParams.ParseParams(ListQuery(pairs, page));
      && r.Ok?
      && r.value.sort == [("createdAt", Num(-1))]
      && r.value.limit == RequestParams.Limit(PageSize)
      && r.value.page == page
      && r.value.filters == RequestParams.PairsDoc(pairs)
      && r.value.query == RequestParams.PairsDoc(pairs)
  {
    var q := ListQuery(pairs, page);
    QuerySort(pairs, page);
    QueryWindow(pairs, page);
    QueryFilters(pairs, page);
    QueryEntries(pairs, page);
    ParsedFrom(q, RequestParams.PairsDoc(pairs), page);
  }

  /** `parseParamsWithDefaults` given what each of its parts reads from a query. */
  lemma ParsedFrom(q: Doc, filters: Doc, page: int)
    requires RequestParams.SearchQuery(q) == Ok(map[])
    requires RequestParams.RequestedSort(q) == Ok([("createdAt", Num(-1))])
    requires RequestParams.LimitOf(q) == RequestParams.Limit(PageSize) && RequestParams.PageOf(q) == page
    requires RequestParams.FiltersOf(q) == filters
    requires "after" !in q && "before" !in q && "cursorField" !in q
    ensures RequestParams.ParseParams(q) == Ok(RequestParams.Normalized(filters, RequestParams.Limit(PageSize), page,
      [("createdAt", Num(-1))], filters, Null, Null, Str("_id")))
  {
    assert map[] + filters == filters;
  }

  /** Text usable on either side of a `key:value` filter. */
  predicate PlainText(v: string)
  {
    ',' !in v && ':' !in v
  }

  /** Every value the change log's dropdowns offer is plain text. */
  lemma ChangeLogDropdownsPlain()
    ensures forall v :: v in ChangeLogEntityTypes ==> PlainText(v)
    ensures forall v :: v in ChangeLogActions ==> PlainText(v)
  {
  }

  /** Every value the e-mail listing's dropdowns offer is plain text. */
  lemma EmailDropdownsPlain()
    ensures forall v :: v in EmailTypes ==> PlainText(v)
    ensures forall v :: v in EmailStatuses ==> PlainText(v)
  {
    EmailTypesPlain();
  }

  lemma EmailTypesPlain()
    ensures forall v :: v in EmailTypes ==> PlainText(v)
  {
  }

  lemma {:induction false} FilterPairsSnoc(choices: seq<(string, string)>, c: (string, string))
    ensures FilterPairs(choices + [c]) == FilterPairs(choices) + (if c.1 != "" then [c] else [])
  {
    assert (choices + [c])[..|choices|] == choices;
  }

  /** The pairs kept from two choices: the first when set, then the second when set. */
  lemma TwoPairs(k1: string, v1: string, k2: string, v2: string)
    ensures FilterPairs([(k1, v1), (k2, v2)])
      == (if v1 != "" then [(k1, v1)] else []) + (if v2 != "" then [(k2, v2)] else [])
  {
    FilterPairsSnoc([], (k1, v1));
    assert [] + [(k1, v1)] == [(k1, v1)];
    FilterPairsSnoc([(k1, v1)], (k2, v2));
    assert [(k1, v1)] + [(k2, v2)] == [(k1, v1), (k2, v2)];
  }

  lemma OnePairDoc(k: string, v: string)
    ensures RequestParams.PairsDoc([(k, v)]) == map[k := Str(v)]
  {
    assert [(k, v)][..0] == [];
  }

  lemma TwoPairsDoc(k1: string, v1: string, k2: string, v2: string)
    ensures RequestParams.PairsDoc([(k1, v1), (k2, v2)]) == map[k1 := Str(v1)][k2 := Str(v2)]
  {
    assert [(k1, v1), (k2, v2)][..1] == [(k1, v1)];
    OnePairDoc(k1, v1);
  }

  /** Two choices under distinct keys give a filter for each one set, and no other. */
  lemma TwoChoices(k1: string, v1: string, k2: string, v2: string)
    requires k1 != k2
    ensures var d := RequestParams.PairsDoc(FilterPairs([(k1, v1), (k2, v2)]));
      && (k1 in d <==> v1 != "") && (v1 != "" ==> d[k1] == Str(v1))
      && (k2 in d <==> v2 != "") && (v2 != "" ==> d[k2] == Str(v2))
      && d.Keys <= {k1, k2}
  {
    TwoPairs(k1, v1, k2, v2);
    if v1 != "" && v2 != "" {
      assert [(k1, v1)] + [(k2, v2)] == [(k1, v1), (k2, v2)];
      TwoPairsDoc(k1, v1, k2, v2);
    } else if v1 != "" {
      assert [(k1, v1)] + [] == [(k1, v1)];
      OnePairDoc(k1, v1);
    } else if v2 != "" {
      assert [] + [(k2, v2)] == [(k2, v2)];
      OnePairDoc(k2, v2);
    } else {
      assert FilterPairs([(k1, v1), (k2, v2)]) == [];
    }
  }

  /** A listing with two dropdowns under plain keys: whatever plain values are
    * chosen, the server reads back a filter for each one set and no other. */
  lemma TwoFiltersRoundTrip(k1: string, v1: string, k2: string, v2: string, page: nat)
    requires k1 != "" && k2 != "" && k1 != k2 && PlainText(k1) && PlainText(k2)
    requires PlainText(v1) && PlainText(v2)
    ensures var r := RequestParams.ParseParams(ListQuery(FilterPairs([(k1, v1), (k2, v2)]), page));
      && r.Ok?
      && (k1 in r.value.filters <==> v1 != "") && (v1 != "" ==> r.value.filters[k1] == Str(v1))
      && (k2 in r.value.filters <==> v2 != "") && (v2 != "" ==> r.value.filters[k2] == Str(v2))
      && r.value.filters.Keys <= {k1, k2}
      && r.value.query == r.value.filters
  {
    var pairs := FilterPairs([(k1, v1), (k2, v2)]);
    forall i | 0 <= i < |pairs| ensures RequestParams.PlainFilterPair(pairs[i]) {
      assert pairs[i] == (k1, v1) || pairs[i] == (k2, v2);
    }
    ListQueryRoundTrip(pairs, page);
    TwoChoices(k1, v1, k2, v2);
  }

  /** Whatever the dropdowns are set to, the change log's filters reach the server
    * as exactly the chosen entity type and action. */
  lemma ChangeLogFiltersRoundTrip(entityType: string, action: string, page: nat)
    requires entityType == "" || entityType in ChangeLogEntityTypes
    requires action == "" || action in ChangeLogActions
    ensures var r := RequestParams.ParseParams(ListQuery(FilterPairs(ChangeLogChoices(entityType, action)), page));
      && r.Ok?
      && ("entityType" in r.value.filters <==> entityType != "")
      && (entityType != "" ==> r.value.filters["entityType"] == Str(entityType))
      && ("action" in r.value.filters <==> action != "")
      && (action != "" ==> r.value.filters["action"] == Str(action))
      && r.value.filters.Keys <= {"entityType", "action"}
  {
    ChangeLogDropdownsPlain();
    assert PlainText("entityType") && PlainText("action");
    TwoFiltersRoundTrip("entityType", entityType, "action", action, page);
  }

  /** The same for the e-mail listing's type and status. */
  lemma EmailFiltersRoundTrip(emailType: string, status: string, page: nat)
    requires emailType == "" || emailType in EmailTypes
    requires status == "" || status in EmailStatuses
    ensures var r := RequestParams.ParseParams(ListQuery(FilterPairs(EmailChoices(emailType, status)), page));
      && r.Ok?
      && ("emailType" in r.value.filters <==> emailType != "")
      && (emailType != "" ==> r.value.filters["emailType"] == Str(emailType))
      && ("status" in r.value.filters <==> status != "")
      && (status != "" ==> r.value.filters["status"] == Str(status))
      && r.value.filters.Keys <= {"emailType", "status"}
  {
    EmailDropdownsPlain();
    assert PlainText("emailType") && PlainText("status");
    TwoFiltersRoundTrip("emailType", emailType, "status", status, page);
  }

  /** `hasMore`: a full page suggests there is another. */
  predicate HasMore(rowCount: nat)
  {
    rowCount == PageSize
  }

  // ---- the page state -------------------------------------------------------------------------

  /** What the listing call gives back: a throw or a response. */
  datatype ListOutcome = ListThrew | ListAnswered(response: Value)

  /** One listing page: its two filter dropdowns, the page number and the rows. */
  class Listing {
    const firstKey: string
    const secondKey: string
    var firstFilter: string
    var secondFilter: string
    var page: nat
    var hasMore: bool
    var rows: seq<Value>

    constructor(firstKey: string, secondKey: string)
      ensures this.firstKey == firstKey && this.secondKey == secondKey
      ensures firstFilter == "" && secondFilter == "" && page == 0 && !hasMore && rows == []
    {
      this.firstKey := firstKey;
      this.secondKey := secondKey;
      firstFilter := "";
      secondFilter := "";
      page := 0;
      hasMore := false;
      rows := [];
    }

    /** The query the page sends for its current filters and page. */
    function Query(): Doc
      reads this
    {
      ListQuery(FilterPairs([(firstKey, firstFilter), (secondKey, secondFilter)]), page)
    }

    /** Choosing a value in the first dropdown; the page goes back to the first. */
    method SetFirstFilter(v: string)
      modifies this
      ensures firstFilter == v && page == 0
      ensures secondFilter == old(secondFilter) && hasMore == old(hasMore) && rows == old(rows)
    {
      firstFilter := v;
      page := 0;
    }

    /** Choosing a value in the second dropdown; the page goes back to the first. */
    method SetSecondFilter(v: string)
      modifies this
      ensures secondFilter == v && page == 0
      ensures firstFilter == old(firstFilter) && hasMore == old(hasMore) && rows == old(rows)
    {
      secondFilter := v;
      page := 0;
    }

    /** The previous-page button, disabled on the first page. */
    method PreviousPage()
      requires page > 0
      modifies this
      ensures page == old(page) - 1
      ensures firstFilter == old(firstFilter) && secondFilter == old(secondFilter)
      ensures hasMore == old(hasMore) && rows == old(rows)
    {
      page := page - 1;
    }

    /** The next-page button, enabled only after a full page. */
    method NextPage()
      requires hasMore
      modifies this
      ensures page == old(page) + 1
      ensures firstFilter == old(firstFilter) && secondFilter == old(secondFilter)
      ensures hasMore == old(hasMore) && rows == old(rows)
    {
      page := page + 1;
    }

    /** Loading the rows: the query sent is returned; an array answer replaces the
      * rows and sets `hasMore`, anything else leaves both as they were. */
    method Load(outcome: ListOutcome) returns (query: Doc)
      modifies this
      ensures query == old(Query())
      ensures firstFilter == old(firstFilter) && secondFilter == old(secondFilter) && page == old(page)
      ensures outcome.ListAnswered? && outcome.response.Arr? ==>
        rows == outcome.response.items && (hasMore <==> |rows| == PageSize)
      ensures !(outcome.ListAnswered? && outcome.response.Arr?) ==> rows == old(rows) && hasMore == old(hasMore)
    {
      query := Query();
      if outcome.ListAnswered? && outcome.response.Arr? {
        rows := outcome.response.items;
        hasMore := HasMore(|rows|);
      }
    }
  }

  // ---- the change column of the change log ------------------------------------------------------

  /** The field names of a recorded change set, as `Object.keys` lists them. */
  function ChangedFields(changes: Option<Value>): seq<string>
  {
    if changes.Some? && changes.value.Obj? then
      seq(|changes.value.entries|, i requires 0 <= i < |changes.value.entries| => changes.value.entries[i].0)
    else []
  }

  /** `formatChanges(entry)`. */
  function FormatChanges(action: Value, changes: Option<Value>): (r: string)
    ensures action == Str("create") ==> r == "Created"
    ensures action == Str("delete") ==> r == "Deleted"
  {
    if action == Str("create") then "Created"
    else if action == Str("delete") then "Deleted"
    else if !(changes.Some? && Truthy(changes.value)) || |ChangedFields(changes)| == 0 then "No changes recorded"
    else Join(ChangedFields(changes), ", ")
  }

  lemma {:induction false} JoinContains(parts: seq<string>, sep: string, i: int)
    requires 0 <= i < |parts|
    ensures Contains(Join(parts, sep), parts[i])
  {
    var j := Join(parts, sep);
    if |parts| == 1 {
      assert IsPrefix(parts[0], j[0..]);
    } else if i == 0 {
      assert j[0..][..|parts[0]|] == parts[0];
    } else {
      JoinContains(parts[1..], sep, i - 1);
      var rest := Join(parts[1..], sep);
      var k :| 0 <= k <= |rest| && IsPrefix(parts[i], rest[k..]);
      var off := |parts[0]| + |sep|;
      assert j == parts[0] + sep + rest;
      assert j[off + k..] == rest[k..];
    }
  }

  /** An update lists every changed field by name, in the order they were recorded;
    * it falls back to "No changes recorded" only when nothing was recorded. */
  lemma UpdateNamesEveryField(action: Value, changes: Option<Value>)
    requires action != Str("create") && action != Str("delete")
    ensures forall i :: 0 <= i < |ChangedFields(changes)| ==>
      Contains(FormatChanges(action, changes), ChangedFields(changes)[i])
    ensures |ChangedFields(changes)| == 0 ==> FormatChanges(action, changes) == "No changes recorded"
  {
    forall i | 0 <= i < |ChangedFields(changes)|
      ensures Contains(FormatChanges(action, changes), ChangedFields(changes)[i])
    {
      JoinContains(ChangedFields(changes), ", ", i);
    }
  }

  // ---- the type column of the e-mail listing --------------------------------------------------

  /** `type.replace(/_/g, ' ')`. */
  function SpacesFor(t: string): (r: string)
    ensures |r| == |t|
  {
    seq(|t|, i requires 0 <= i < |t| => if t[i] == '_' then ' ' else t[i])
  }

  /** Position `i` starts a word: a letter or digit with no letter, digit or `_`
    * just before it. */
  predicate WordStart(s: string, i: int)
    requires 0 <= i < |s|
  {
    IsAlnum(s[i]) && (i == 0 || !IsWordChar(s[i - 1]))
  }

  /** `.replace(/\b\w/g, c => c.toUpperCase())`. */
  function CapitalizeWords(s: string): (r: string)
    ensures |r| == |s|
  {
    seq(|s|, i requires 0 <= i < |s| => if WordStart(s, i) then UpperChar(s[i]) else s[i])
  }

  /** `formatEmailType(type)`. */
  function FormatEmailType(t: string): (r: string)
    ensures |r| == |t|
  {
    CapitalizeWords(SpacesFor(t))
  }

  /** Formatting only turns `_` into spaces and changes letter case: no `_` is
    * left, and lower-casing both sides agrees. */
  lemma EmailTypeCaseOnly(t: string)
    ensures '_' !in FormatEmailType(t)
    ensures ToLower(FormatEmailType(t)) == ToLower(SpacesFor(t))
  {
    var r := FormatEmailType(t);
    var s := SpacesFor(t);
    forall i | 0 <= i < |r| ensures r[i] != '_' && LowerChar(r[i]) == LowerChar(s[i]) {
    }
    assert forall i :: 0 <= i < |r| ==> ToLower(r)[i] == LowerChar(r[i]);
  }

  /** Formatting a formatted type changes nothing. */
  lemma EmailTypeIdempotent(t: string)
    ensures FormatEmailType(FormatEmailType(t)) == FormatEmailType(t)
  {
    var r := FormatEmailType(t);
    var s := SpacesFor(t);
    assert SpacesFor(r) == r;
    forall i | 0 <= i < |r| ensures CapitalizeWords(r)[i] == r[i] {
      assert IsAlnum(r[i]) <==> IsAlnum(s[i]);
      assert i > 0 ==> (IsWordChar(r[i - 1]) <==> IsWordChar(s[i - 1]));
    }
  }

  /** Two lower-case words joined by `_` become two capitalised words. */
  lemma TwoWordType(a: string, b: string)
    requires |a| > 0 && |b| > 0
    requires forall i :: 0 <= i < |a| ==> IsLower(a[i])
    requires forall i :: 0 <= i < |b| ==> IsLower(b[i])
    ensures FormatEmailType(a + "_" + b) == [UpperChar(a[0])] + a[1..] + " " + [UpperChar(b[0])] + b[1..]
  {
    var t := a + "_" + b;
    var s := SpacesFor(t);
    var want := [UpperChar(a[0])] + a[1..] + " " + [UpperChar(b[0])] + b[1..];
    forall i | 0 <= i < |t| ensures FormatEmailType(t)[i] == want[i] {
      if i < |a| {
        assert s[i] == a[i];
      } else if i == |a| {
        assert s[i] == ' ';
      } else {
        assert s[i] == b[i - |a| - 1];
      }
    }
  }

  // ---- the send button -----------------------------------------------------------------------

  /** `user?.role === 'superadmin'`: whether the page offers sending an e-mail. */
  predicate ShowsSendButton(user: Option<Doc>)
  {
    user.Some? && "role" in user.value && user.value["role"] == Str("superadmin")
  }

  /** The page offers sending exactly to the users the server treats as superadmins. */
  lemma SendButtonMatchesServer(user: Option<Doc>)
    ensures ShowsSendButton(user) <==> UserServices.IsSuperadmin(user)
  {
  }
}
