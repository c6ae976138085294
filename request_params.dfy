// List-query normalisation shared by every list endpoint: search, limit, page,
// filters, sort and cursor parameters are turned into a store query, a window
// and an ordering (api/inc/helpers.js, parseParamsWithDefaults and the two
// allow-lists it consults).

module RequestParams {
  import opened Wrappers
  import opened Strings
  import opened Values

  /** The only fields a `searchKey` may name. */
  const AllowedSearchKeys: seq<string> := ["key", "name"]

  /** The only fields a sort may name. */
  const SortKeys: seq<string> := [
    "_id", "name", "createdAt", "updatedAt", "isActive", "eventName", "eventDate",
    "title", "dismissed", "notificationType", "action", "entityType", "userName",
    "to", "from", "subject", "emailType", "status", "sentAt", "type", "backupPath",
    "migrator", "label", "scheduledDate", "taskService", "taskMethod", "recurring",
    "optionKey", "optionName", "group", "note", "entityId"]

  predicate IsValidSortKey(k: string) { k in SortKeys }

  /** `false` (no limit at all) or an integer limit. */
  datatype Limit = NoLimit | Limit(n: int)

  /** An ordered field -> direction map, as a JavaScript object keeps insertion order. */
  type SortSpec = seq<(string, Value)>

  datatype Normalized = Normalized(
    query: Doc,
    limit: Limit,
    page: int,
    sort: SortSpec,
    filters: Doc,
    after: Value,
    before: Value,
    cursorField: Value)

  const DefaultSort: SortSpec := [("createdAt", Num(-1))]

  // ---- numbers -------------------------------------------------------------

  predicate IsDecimal(s: string)
  {
    if |s| > 0 && s[0] == '-' then |s| > 1 && forall i :: 1 <= i < |s| ==> IsDigit(s[i])
    else |s| > 0 && forall i :: 0 <= i < |s| ==> IsDigit(s[i])
  }

  function DigitsValue(s: string): nat
    requires forall i :: 0 <= i < |s| ==> IsDigit(s[i])
  {
    if |s| == 0 then 0
    else
      assert IsDigit(s[|s| - 1]);
      10 * DigitsValue(s[..|s| - 1]) + (s[|s| - 1] as int - '0' as int)
  }

  /** `!isNaN(v)` for the number and decimal-string values the model admits. */
  predicate IsNumeric(v: Value)
  {
    v.Num? || (v.Str? && IsDecimal(v.s))
  }

  /** `parseInt(v, 10)` of a numeric value. */
  function ParseInt(v: Value): int
    requires IsNumeric(v)
  {
    if v.Num? then v.n
    else if v.s[0] == '-' then 0 - DigitsValue(v.s[1..]) as int
    else DigitsValue(v.s)
  }

  // ---- the specification, piece by piece ------------------------------------

  predicate SearchRequested(params: Doc)
  {
    FieldTruthy(params, "search") && FieldTruthy(params, "searchKey") && FieldTruthy(params, "searchValue")
  }

  predicate AllowedSearchKey(v: Value) { v.Str? && v.s in AllowedSearchKeys }

  /** The query contributed by `search`/`searchKey`/`searchValue`. */
  function SearchQuery(params: Doc): Result<Doc>
  {
    if !SearchRequested(params) then Ok(map[])
    else if !AllowedSearchKey(params["searchKey"]) then Err("Not a valid search key.")
    else Ok(map[params["searchKey"].s := params["searchValue"]])
  }

  function LimitOf(params: Doc): Limit
  {
    if FieldTruthy(params, "limit") && IsNumeric(params["limit"]) then Limit(ParseInt(params["limit"]))
    else if !FieldTruthy(params, "all") then Limit(10)
    else NoLimit
  }

  function PageOf(params: Doc): int
  {
    if FieldTruthy(params, "page") && IsNumeric(params["page"]) then ParseInt(params["page"]) else 0
  }

  /** One `key:value` piece of a filter string; the text after a second `:` is ignored. */
  function AddFilterPiece(filters: Doc, piece: string): Doc
  {
    var kv := Split(piece, ':');
    if kv[0] != "" && |kv| > 1 && kv[1] != "" then filters[kv[0] := Str(kv[1])] else filters
  }

  function FiltersFromPieces(pieces: seq<string>): Doc
  {
    if |pieces| == 0 then map[]
    else AddFilterPiece(FiltersFromPieces(pieces[..|pieces| - 1]), pieces[|pieces| - 1])
  }

  /** `Object.assign` of an array copies its elements under their indices. */
  function ArrayAsDoc(items: seq<Value>): (d: Doc)
    ensures forall i :: 0 <= i < |items| ==> NatToString(i) in d
  {
    if |items| == 0 then map[]
    else ArrayAsDoc(items[..|items| - 1])[NatToString(|items| - 1) := items[|items| - 1]]
  }

  function FiltersOf(params: Doc): Doc
  {
    if !FieldTruthy(params, "filters") then map[]
    else match params["filters"]
      case Str(s) => FiltersFromPieces(Split(s, ','))
      case Obj(entries) => ObjToDoc(entries)
      case Arr(items) => ArrayAsDoc(items)
      case _ => map[]
  }

  /** `sort[k] = v` on a JavaScript object: an existing key keeps its place. */
  function Assign(sort: SortSpec, k: string, v: Value): (r: SortSpec)
    ensures (k, v) in r
    ensures forall i :: 0 <= i < |r| ==> r[i].0 == k || r[i] in sort
    ensures |r| >= 1
  {
    if |sort| == 0 then [(k, v)]
    else if sort[0].0 == k then [(k, v)] + sort[1..]
    else [sort[0]] + Assign(sort[1..], k, v)
  }

  /** One sort column given as text: a leading `!` means descending. */
  function AddColumn(sort: SortSpec, column: Value): Result<SortSpec>
  {
    if !column.Str? then Err("sortKey.startsWith is not a function")
    else
      var descending := |column.s| > 0 && column.s[0] == '!';
      var key := if descending then column.s[1..] else column.s;
      if IsValidSortKey(key) then Ok(Assign(sort, key, Num(if descending then -1 else 1)))
      else Ok(sort)
  }

  function SortFromColumns(columns: seq<Value>): Result<SortSpec>
  {
    if |columns| == 0 then Ok([])
    else match SortFromColumns(columns[..|columns| - 1])
      case Err(m) => Err(m)
      case Ok(sort) => AddColumn(sort, columns[|columns| - 1])
  }

  /** A column that throws stops the whole sort: later columns are never read. */
  lemma {:induction false} SortFromColumnsStops(columns: seq<Value>, j: nat)
    requires j <= |columns|
    requires SortFromColumns(columns[..j]).Err?
    ensures SortFromColumns(columns) == SortFromColumns(columns[..j])
  {
    if j < |columns| {
      assert columns[..|columns| - 1][..j] == columns[..j];
      SortFromColumnsStops(columns[..|columns| - 1], j);
    } else {
      assert columns[..j] == columns;
    }
  }

  function SortFromObject(entries: seq<(string, Value)>): SortSpec
  {
    if |entries| == 0 then []
    else
      var sort := SortFromObject(entries[..|entries| - 1]);
      var e := entries[|entries| - 1];
      if IsValidSortKey(e.0) then Assign(sort, e.0, e.1) else sort
  }

  /** The requested ordering before the default is applied. */
  function RequestedSort(params: Doc): Result<SortSpec>
  {
    if !FieldTruthy(params, "sort") then Ok([])
    else match params["sort"]
      case Obj(entries) => Ok(SortFromObject(entries))
      case Arr(items) => SortFromColumns(items)
      case other => AddColumn([], other)
  }

  function TruthyOr(params: Doc, k: string, fallback: Value): Value
  {
    if FieldTruthy(params, k) then params[k] else fallback
  }

  /** parseParamsWithDefaults as a whole. */
  function ParseParams(params: Doc): Result<Normalized>
  {
    match SearchQuery(params)
    case Err(m) => Err(m)
    case Ok(search) =>
      match RequestedSort(params)
      case Err(m) => Err(m)
      case Ok(sort) =>
        var filters := FiltersOf(params);
        Ok(Normalized(
          search + filters,
          LimitOf(params),
          PageOf(params),
          if |sort| == 0 then DefaultSort else sort,
          filters,
          TruthyOr(params, "after", Null),
          TruthyOr(params, "before", Null),
          TruthyOr(params, "cursorField", Str("_id"))))
  }

  // ---- properties ------------------------------------------------------------

  predicate KeysAllowed(sort: SortSpec)
  {
    forall i :: 0 <= i < |sort| ==> IsValidSortKey(sort[i].0)
  }

  lemma {:induction false} SortFromObjectAllowed(entries: seq<(string, Value)>)
    ensures KeysAllowed(SortFromObject(entries))
  {
    if |entries| > 0 {
      SortFromObjectAllowed(entries[..|entries| - 1]);
    }
  }

  lemma {:induction false} SortFromColumnsAllowed(columns: seq<Value>)
    ensures SortFromColumns(columns).Ok? ==> KeysAllowed(SortFromColumns(columns).value)
  {
    if |columns| > 0 {
      SortFromColumnsAllowed(columns[..|columns| - 1]);
    }
  }

  /** Every accepted request yields a non-empty ordering over allow-listed fields only. */
  lemma {:induction false} SortAlwaysAllowListed(params: Doc)
    requires ParseParams(params).Ok?
    ensures |ParseParams(params).value.sort| >= 1
    ensures KeysAllowed(ParseParams(params).value.sort)
  {
    if FieldTruthy(params, "sort") {
      match params["sort"]
      case Obj(entries) => SortFromObjectAllowed(entries);
      case Arr(items) => SortFromColumnsAllowed(items);
      case _ =>
    }
  }

  /** A single sort column `!k` orders by `k` descending, a bare `k` ascending, and a
    * column naming no allow-listed field leaves the newest-first default. */
  lemma SingleColumnSort(params: Doc, column: string)
    requires "sort" in params && params["sort"] == Str(column) && column != ""
    requires ParseParams(params).Ok?
    ensures |column| > 1 && column[0] == '!' && IsValidSortKey(column[1..]) ==>
      ParseParams(params).value.sort == [(column[1..], Num(-1))]
    ensures column[0] != '!' && IsValidSortKey(column) ==>
      ParseParams(params).value.sort == [(column, Num(1))]
    ensures !IsValidSortKey(if column[0] == '!' then column[1..] else column) ==>
      ParseParams(params).value.sort == DefaultSort
  {
  }

  /** The search triple is refused exactly when its key is not allow-listed. */
  lemma SearchKeyGuard(params: Doc)
    ensures (ParseParams(params) == Err("Not a valid search key.")) <==>
      (SearchRequested(params) && !AllowedSearchKey(params["searchKey"]))
  {
    if !(SearchRequested(params) && !AllowedSearchKey(params["searchKey"])) {
      var sort := RequestedSort(params);
      if sort.Err? {
        SortErrorIsTypeError(params);
      }
    }
  }

  lemma {:induction false} SortFromColumnsError(columns: seq<Value>)
    ensures SortFromColumns(columns).Err? ==> SortFromColumns(columns).msg == "sortKey.startsWith is not a function"
  {
    if |columns| > 0 {
      SortFromColumnsError(columns[..|columns| - 1]);
    }
  }

  lemma SortErrorIsTypeError(params: Doc)
    ensures RequestedSort(params).Err? ==> RequestedSort(params).msg == "sortKey.startsWith is not a function"
  {
    if FieldTruthy(params, "sort") && params["sort"].Arr? {
      SortFromColumnsError(params["sort"].items);
    }
  }

  /** Filters are merged last: they override the search entry, and the query holds
    * nothing but the filters and the allow-listed search field. */
  lemma FiltersOverrideSearch(params: Doc)
    requires ParseParams(params).Ok?
    ensures var n := ParseParams(params).value;
      (forall k :: k in n.filters ==> k in n.query && n.query[k] == n.filters[k]) &&
      (forall k :: k in n.query && k !in n.filters ==>
        SearchRequested(params) && params["searchKey"] == Str(k) && k in AllowedSearchKeys &&
        n.query[k] == params["searchValue"])
  {
  }

  /** Without `all`, a list is always bounded: by the numeric limit given, else by 10. */
  lemma LimitDefaults(params: Doc)
    requires ParseParams(params).Ok?
    ensures var n := ParseParams(params).value;
      (n.limit == NoLimit <==> FieldTruthy(params, "all") && !(FieldTruthy(params, "limit") && IsNumeric(params["limit"]))) &&
      (!FieldTruthy(params, "limit") && !FieldTruthy(params, "all") ==> n.limit == Limit(10)) &&
      (!FieldTruthy(params, "page") ==> n.page == 0)
  {
  }

  // ---- filter strings ------------------------------------------------------------

  /** `k:v` pieces joined by commas, as the admin pages build them. */
  function FilterString(pairs: seq<(string, string)>): string
  {
    Join(seq(|pairs|, i requires 0 <= i < |pairs| => pairs[i].0 + ":" + pairs[i].1), ",")
  }

  function PairsDoc(pairs: seq<(string, string)>): Doc
  {
    if |pairs| == 0 then map[]
    else PairsDoc(pairs[..|pairs| - 1])[pairs[|pairs| - 1].0 := Str(pairs[|pairs| - 1].1)]
  }

  predicate PlainFilterPair(p: (string, string))
  {
    p.0 != "" && p.1 != "" && ',' !in p.0 && ':' !in p.0 && ',' !in p.1 && ':' !in p.1
  }

  lemma {:induction false} PiecesParse(pairs: seq<(string, string)>)
    requires forall i :: 0 <= i < |pairs| ==> PlainFilterPair(pairs[i])
    ensures FiltersFromPieces(seq(|pairs|, i requires 0 <= i < |pairs| => pairs[i].0 + ":" + pairs[i].1)) == PairsDoc(pairs)
  {
    var pieces := seq(|pairs|, i requires 0 <= i < |pairs| => pairs[i].0 + ":" + pairs[i].1);
    if |pairs| > 0 {
      var n := |pairs| - 1;
      var front := pairs[..n];
      PiecesParse(front);
      assert pieces[..n] == seq(|front|, i requires 0 <= i < |front| => front[i].0 + ":" + front[i].1);
      var (k, v) := pairs[n];
      assert PlainFilterPair(pairs[n]);
      SplitAfterPiece(k, ':', v);
      SplitNoSeparator(v, ':');
      assert k + ":" + v == k + [':'] + v;
      assert Split(pieces[n], ':') == [k, v];
    }
  }

  /** Parsing a filter string built from plain pairs gives back exactly those pairs. */
  lemma {:induction false} FilterStringRoundTrip(params: Doc, pairs: seq<(string, string)>)
    requires |pairs| >= 1
    requires forall i :: 0 <= i < |pairs| ==> PlainFilterPair(pairs[i])
    requires "filters" in params && params["filters"] == Str(FilterString(pairs))
    ensures FiltersOf(params) == PairsDoc(pairs)
  {
    var pieces := seq(|pairs|, i requires 0 <= i < |pairs| => pairs[i].0 + ":" + pairs[i].1);
    forall i | 0 <= i < |pieces| ensures ',' !in pieces[i] {
      assert PlainFilterPair(pairs[i]);
    }
    SplitJoin(pieces, ',');
    assert FilterString(pairs) != "" by {
      assert |pieces[0]| >= 3;
      assert |FilterString(pairs)| >= |pieces[0]| by { JoinAtLeastFirst(pieces, ","); }
    }
    PiecesParse(pairs);
  }

  lemma {:induction false} JoinAtLeastFirst(parts: seq<string>, sep: string)
    requires |parts| >= 1
    ensures |Join(parts, sep)| >= |parts[0]|
  {
  }

  // ---- the procedure -------------------------------------------------------

  /** The `filters` section: a `key:value,key:value` string is parsed piece by
    * piece; an object (or array) is taken as it is. */
  method ParseFilters(params: Doc) returns (filters: Doc)
    ensures filters == FiltersOf(params)
  {
    filters := map[];
    if FieldTruthy(params, "filters") {
      match params["filters"]
      case Str(s) =>
        var pieces := Split(s, ',');
        var i := 0;
        while i < |pieces|
          invariant 0 <= i <= |pieces|
          invariant filters == FiltersFromPieces(pieces[..i])
        {
          var kv := Split(pieces[i], ':');
          if kv[0] != "" && |kv| > 1 && kv[1] != "" {
            filters := filters[kv[0] := Str(kv[1])];
          }
          assert pieces[..i + 1][..i] == pieces[..i];
          i := i + 1;
        }
        assert pieces[..|pieces|] == pieces;
      case Obj(entries) => filters := ObjToDoc(entries);
      case Arr(items) => filters := ArrayAsDoc(items);
      case _ =>
    }
  }

  /** The `sort` section, before the default ordering is applied. */
  method ParseSort(params: Doc) returns (r: Result<SortSpec>)
    ensures r == RequestedSort(params)
  {
    var sort: SortSpec := [];
    if FieldTruthy(params, "sort") {
      var given := params["sort"];
      if given.Obj? {
        sort := SortObjectLoop(given.entries);
      } else if given.Arr? {
        r := SortColumnsLoop(given.items);
        return;
      } else {
        var column := AddColumn([], given);
        if column.Err? {
          return Err(column.msg);
        }
        sort := column.value;
      }
    }
    r := Ok(sort);
  }

  /** The loop over an object-valued `sort`: valid keys in the object's own order. */
  method SortObjectLoop(entries: seq<(string, Value)>) returns (sort: SortSpec)
    ensures sort == SortFromObject(entries)
  {
    sort := [];
    var i := 0;
    while i < |entries|
      invariant 0 <= i <= |entries|
      invariant sort == SortFromObject(entries[..i])
    {
      if IsValidSortKey(entries[i].0) {
        sort := Assign(sort, entries[i].0, entries[i].1);
      }
      assert entries[..i + 1][..i] == entries[..i];
      i := i + 1;
    }
    assert entries[..|entries|] == entries;
  }

  /** The loop over an array-valued `sort`: the first bad column stops it. */
  method SortColumnsLoop(items: seq<Value>) returns (r: Result<SortSpec>)
    ensures r == SortFromColumns(items)
  {
    var sort: SortSpec := [];
    var i := 0;
    while i < |items|
      invariant 0 <= i <= |items|
      invariant SortFromColumns(items[..i]) == Ok(sort)
    {
      assert items[..i + 1][..i] == items[..i];
      var column := AddColumn(sort, items[i]);
      if column.Err? {
        SortFromColumnsStops(items, i + 1);
        return Err(column.msg);
      }
      sort := column.value;
      i := i + 1;
    }
    assert items[..|items|] == items;
    r := Ok(sort);
  }

  /** parseParamsWithDefaults, section by section as the source builds its result. */
  method ParseParamsWithDefaults(params: Doc) returns (r: Result<Normalized>)
    ensures r == ParseParams(params)
  {
    var query: Doc := map[];
    if SearchRequested(params) {
      var searchKey := params["searchKey"];
      if !AllowedSearchKey(searchKey) {
        return Err("Not a valid search key.");
      }
      query := query[searchKey.s := params["searchValue"]];
    }

    var limit := NoLimit;
    if FieldTruthy(params, "limit") && IsNumeric(params["limit"]) {
      limit := Limit(ParseInt(params["limit"]));
    }
    if !FieldTruthy(params, "all") && !limit.Limit? {
      limit := Limit(10);
    }

    var page := 0;
    if FieldTruthy(params, "page") && IsNumeric(params["page"]) {
      page := ParseInt(params["page"]);
    }

    var filters := ParseFilters(params);
    query := query + filters;

    var sort := ParseSort(params);
    if sort.Err? {
      return Err(sort.msg);
    }
    var ordering := if |sort.value| == 0 then DefaultSort else sort.value;

    var after := if FieldTruthy(params, "after") then params["after"] else Null;
    var before := if FieldTruthy(params, "before") then params["before"] else Null;
    var cursorField := if FieldTruthy(params, "cursorField") then params["cursorField"] else Str("_id");
    r := Ok(Normalized(query, limit, page, ordering, filters, after, before, cursorField));
  }
}
