// The generic HTTP routes of a managed resource
// (api/routes/abstracts/BaseEntityRoutes.js): the names derived from the
// resource's name, the options with their defaults, the six generic routes with
// their authentication and API-key scope, and the error envelope every handler
// answers with.

module EntityRoutes {
  import opened Wrappers
  import opened Strings
  import opened Values

  /** The routes are only ever built as part of a concrete resource's routes. */
  datatype Construction = Direct | Subclass(entityName: string, options: Doc)

  const AbstractRoutes := "BaseEntityRoutes is abstract and cannot be instantiated directly"

  /** `toCamelCase(str)`: only the first character is lower-cased. */
  function ToCamelCase(s: string): (r: string)
    ensures |r| == |s|
    ensures |s| > 0 ==> r[0] == LowerChar(s[0]) && r[1..] == s[1..]
  {
    if |s| == 0 then "" else [LowerChar(s[0])] + s[1..]
  }

  /** The camel-case name agrees with the lower-cased name in its first character
    * and with the name itself everywhere else; applying it twice changes nothing. */
  lemma CamelCaseShape(s: string)
    ensures |s| > 0 ==> ToCamelCase(s)[0] == ToLower(s)[0]
    ensures ToCamelCase(ToCamelCase(s)) == ToCamelCase(s)
    ensures (forall i :: 0 <= i < |s| ==> !IsUpper(s[i])) ==> ToCamelCase(s) == s
  {
    if |s| > 0 {
      assert LowerChar(LowerChar(s[0])) == LowerChar(s[0]);
      assert ToCamelCase(s)[1..] == s[1..];
    }
  }

  /** The route parameter that carries a record's id, e.g. `eventRegistrationID`. */
  function IdParam(entityName: string): string
  {
    ToCamelCase(entityName) + "ID"
  }

  /** `{requireAuth: true, publicInsert: false, publicGetById: false,
    * publicGetByKey: false, ...options}`. */
  function Options(given: Doc): (o: Doc)
  {
    map["requireAuth" := Bool(true), "publicInsert" := Bool(false), "publicGetById" := Bool(false),
        "publicGetByKey" := Bool(false)] + given
  }

  /** A given option replaces its default; an option not given keeps it. */
  lemma OptionsOverride(given: Doc)
    ensures forall k :: k in given ==> k in Options(given) && Options(given)[k] == given[k]
    ensures "publicInsert" !in given ==> Options(given)["publicInsert"] == Bool(false)
    ensures "publicGetById" !in given ==> Options(given)["publicGetById"] == Bool(false)
    ensures "publicGetByKey" !in given ==> Options(given)["publicGetByKey"] == Bool(false)
    ensures "requireAuth" !in given ==> Options(given)["requireAuth"] == Bool(true)
  {
  }

  datatype Operation = Insert | GetById | GetByKey | Search | Delete | Update | GetAll

  /** `getAuthMiddleware(operation)`: a pass-through or `authenticate`. */
  datatype Guard = PassThrough | Authenticate

  function AuthFor(options: Doc, op: Operation): Guard
  {
    var public := match op
      case Insert => FieldTruthy(options, "publicInsert")
      case GetById => FieldTruthy(options, "publicGetById")
      case GetByKey => FieldTruthy(options, "publicGetByKey")
      case _ => false;
    if public then PassThrough else Authenticate
  }

  /** Search, delete, update and listing always authenticate; insert and the two
    * lookups are public exactly when their option is truthy. */
  lemma PermissionTable(given: Doc)
    ensures forall op :: op in {Search, Delete, Update, GetAll} ==> AuthFor(Options(given), op) == Authenticate
    ensures AuthFor(Options(given), Insert) == PassThrough <==> "publicInsert" in given && Truthy(given["publicInsert"])
    ensures AuthFor(Options(given), GetById) == PassThrough <==> "publicGetById" in given && Truthy(given["publicGetById"])
    ensures AuthFor(Options(given), GetByKey) == PassThrough <==> "publicGetByKey" in given && Truthy(given["publicGetByKey"])
  {
    forall op | op in {Search, Delete, Update, GetAll} ensures AuthFor(Options(given), op) == Authenticate {
    }
  }

  datatype Verb = Get | Post | DeleteVerb

  /** One registered route: verb, path pattern, guard, API-key permission, handler. */
  datatype Route = Route(verb: Verb, path: string, guard: Guard, permission: string, op: Operation)

  /** `setupRoutes()`: the six generic routes in registration order. */
  function GenericRoutes(entityName: string, options: Doc): (r: seq<Route>)
    ensures |r| == 6
  {
    var id := IdParam(entityName);
    [Route(Post, "/", AuthFor(options, Insert), "write", Insert),
     Route(Get, "/id/:" + id, AuthFor(options, GetById), "read", GetById),
     Route(Get, "/search", AuthFor(options, Search), "read", Search),
     Route(DeleteVerb, "/:" + id, AuthFor(options, Delete), "write", Delete),
     Route(Post, "/:" + id, AuthFor(options, Update), "write", Update),
     Route(Get, "/", AuthFor(options, GetAll), "read", GetAll)]
  }

  /** Writes need the `write` scope and reads the `read` scope; there is no generic
    * route by key, so that option guards nothing here. */
  lemma RouteScopes(entityName: string, options: Doc)
    ensures forall r :: r in GenericRoutes(entityName, options) ==>
      (r.permission == "write" <==> r.op in {Insert, Delete, Update}) &&
      (r.permission == "read" <==> r.op in {GetById, Search, GetAll})
    ensures forall r :: r in GenericRoutes(entityName, options) ==> r.guard == AuthFor(options, r.op) && r.op != GetByKey
  {
    var rs := GenericRoutes(entityName, options);
    assert "write" != "read";
    forall r | r in rs
      ensures (r.permission == "write" <==> r.op in {Insert, Delete, Update})
      ensures (r.permission == "read" <==> r.op in {GetById, Search, GetAll})
    {
      var i :| 0 <= i < 6 && rs[i] == r;
    }
  }

  /** The resource's routes: custom ones first, then the generic ones. */
  function Routes(custom: seq<Route>, entityName: string, options: Doc): seq<Route>
  {
    custom + GenericRoutes(entityName, options)
  }

  /** One segment of a route pattern against one segment of a request path: a
    * `:name` parameter takes any non-empty segment, any other segment only itself. */
  predicate SegmentMatches(pattern: string, segment: string)
  {
    if |pattern| > 0 && pattern[0] == ':' then segment != "" else pattern == segment
  }

  /** Express's matching of a route pattern against a request path: as many
    * `/`-separated segments, each matching its own. */
  predicate PathMatches(pattern: string, path: string)
  {
    var ps, ss := Split(pattern, '/'), Split(path, '/');
    |ps| == |ss| && forall i :: 0 <= i < |ps| ==> SegmentMatches(ps[i], ss[i])
  }

  predicate Answers(x: Route, verb: Verb, path: string)
  {
    x.verb == verb && PathMatches(x.path, path)
  }

  /** The route that answers a request: the first registered whose verb is the
    * request's and whose pattern matches its path; none when no route matches. */
  function Dispatch(routes: seq<Route>, verb: Verb, path: string): (r: Option<Route>)
    ensures r.Some? ==> r.value in routes && Answers(r.value, verb, path)
    ensures r.None? ==> forall x :: x in routes ==> !Answers(x, verb, path)
  {
    if |routes| == 0 then None
    else if Answers(routes[0], verb, path) then Some(routes[0])
    else Dispatch(routes[1..], verb, path)
  }

  /** No route registered before the one that answers matches the request. */
  lemma {:induction false} DispatchIsFirst(routes: seq<Route>, verb: Verb, path: string)
    requires Dispatch(routes, verb, path).Some?
    ensures exists i :: 0 <= i < |routes| && routes[i] == Dispatch(routes, verb, path).value &&
                        forall j :: 0 <= j < i ==> !Answers(routes[j], verb, path)
  {
    if !Answers(routes[0], verb, path) {
      var rest := routes[1..];
      DispatchIsFirst(rest, verb, path);
      var i :| 0 <= i < |rest| && rest[i] == Dispatch(rest, verb, path).value &&
               forall j :: 0 <= j < i ==> !Answers(rest[j], verb, path);
      assert routes[i + 1] == rest[i];
      forall j | 0 <= j < i + 1
        ensures !Answers(routes[j], verb, path)
      {
        if j > 0 { assert routes[j] == rest[j - 1]; }
      }
    } else {
      assert routes[0] == Dispatch(routes, verb, path).value;
    }
  }

  lemma {:induction false} DispatchFirst(a: seq<Route>, b: seq<Route>, verb: Verb, path: string)
    requires Dispatch(a, verb, path).Some?
    ensures Dispatch(a + b, verb, path) == Dispatch(a, verb, path)
  {
    if !Answers(a[0], verb, path) {
      assert (a + b)[1..] == a[1..] + b;
      DispatchFirst(a[1..], b, verb, path);
    }
  }

  lemma {:induction false} DispatchPast(a: seq<Route>, b: seq<Route>, verb: Verb, path: string)
    requires Dispatch(a, verb, path).None?
    ensures Dispatch(a + b, verb, path) == Dispatch(b, verb, path)
  {
    if |a| == 0 {
      assert a + b == b;
    } else {
      assert (a + b)[1..] == a[1..] + b;
      DispatchPast(a[1..], b, verb, path);
    }
  }

  /** A custom route matching the request answers it, whatever generic pattern
    * matches it as well: the custom routes are registered first. */
  lemma CustomRoutesWin(custom: seq<Route>, entityName: string, options: Doc, verb: Verb, path: string)
    requires exists x :: x in custom && Answers(x, verb, path)
    ensures Dispatch(Routes(custom, entityName, options), verb, path) == Dispatch(custom, verb, path)
    ensures Dispatch(custom, verb, path).Some?
  {
    DispatchFirst(custom, GenericRoutes(entityName, options), verb, path);
  }

  /** A `/`-free segment after the root slash splits into the empty root and itself. */
  lemma {:induction false} SplitRooted(s: string)
    requires '/' !in s
    ensures Split("/" + s, '/') == ["", s]
  {
    SplitAfterPiece("", '/', s);
    SplitNoSeparator(s, '/');
    assert "" + ['/'] + s == "/" + s;
  }

  /** Two one-segment paths match when their segments do. */
  lemma RootedMatches(pattern: string, segment: string)
    requires '/' !in pattern && '/' !in segment
    ensures PathMatches("/" + pattern, "/" + segment) <==> SegmentMatches(pattern, segment)
  {
    SplitRooted(pattern);
    SplitRooted(segment);
    assert SegmentMatches("", "");
  }

  /** An entity name without a slash gives an id parameter without one, and the
    * generic update's pattern is that parameter under the root. */
  lemma UpdatePattern(entityName: string, options: Doc)
    requires '/' !in entityName
    ensures '/' !in ":" + IdParam(entityName)
    ensures GenericRoutes(entityName, options)[4] == Route(Post, "/" + (":" + IdParam(entityName)), AuthFor(options, Update), "write", Update)
  {
    var c := ToCamelCase(entityName);
    if |entityName| > 0 {
      assert c == [LowerChar(entityName[0])] + entityName[1..];
      assert entityName[0] in entityName;
    }
    assert IdParam(entityName) == c + "ID";
    assert "/:" + IdParam(entityName) == "/" + (":" + IdParam(entityName));
  }

  /** The generic `POST /` takes no one-segment path other than the root. */
  lemma InsertMissesSegment(entityName: string, options: Doc, s: string)
    requires s != "" && '/' !in s
    ensures !Answers(GenericRoutes(entityName, options)[0], Post, "/" + s)
  {
    RootedMatches("", s);
    assert "/" + "" == "/";
  }

  /** The generic `POST /:id` takes every one-segment path but the root. */
  lemma UpdateTakesSegment(entityName: string, options: Doc, s: string)
    requires s != "" && '/' !in s && '/' !in entityName
    ensures Answers(GenericRoutes(entityName, options)[4], Post, "/" + s)
  {
    UpdatePattern(entityName, options);
    RootedMatches(":" + IdParam(entityName), s);
  }

  /** A `POST` to a one-segment path that no custom route matches, such as
    * `POST /abc`, is the generic update of the record with that id. */
  lemma OneSegmentPostUpdates(custom: seq<Route>, entityName: string, options: Doc, s: string)
    requires s != "" && '/' !in s && '/' !in entityName
    requires forall x :: x in custom ==> !Answers(x, Post, "/" + s)
    ensures Dispatch(Routes(custom, entityName, options), Post, "/" + s) == Some(GenericRoutes(entityName, options)[4])
    ensures GenericRoutes(entityName, options)[4].op == Update
  {
    var g := GenericRoutes(entityName, options);
    var path := "/" + s;
    DispatchPast(custom, g, Post, path);
    InsertMissesSegment(entityName, options, s);
    UpdateTakesSegment(entityName, options, s);
    assert Dispatch(g, Post, path) == Dispatch(g[1..], Post, path);
    assert Dispatch(g[1..], Post, path) == Dispatch(g[2..], Post, path) by { assert g[1..][1..] == g[2..]; }
    assert Dispatch(g[2..], Post, path) == Dispatch(g[3..], Post, path) by { assert g[2..][1..] == g[3..]; }
    assert Dispatch(g[3..], Post, path) == Dispatch(g[4..], Post, path) by { assert g[3..][1..] == g[4..]; }
  }

  /** The registrations' custom `POST /register` answers that path, although the
    * generic update `POST /:eventRegistrationID` matches it too. */
  lemma RegisterShadowsUpdate(custom: seq<Route>, options: Doc)
    requires exists x :: x in custom && x.verb == Post && x.path == "/register"
    ensures PathMatches(GenericRoutes("EventRegistration", options)[4].path, "/register")
    ensures Dispatch(Routes(custom, "EventRegistration", options), Post, "/register") == Dispatch(custom, Post, "/register")
    ensures Dispatch(custom, Post, "/register").Some?
  {
    assert "/" + "register" == "/register";
    UpdateTakesSegment("EventRegistration", options, "register");
    RootedMatches("register", "register");
    var x :| x in custom && x.verb == Post && x.path == "/register";
    assert Answers(x, Post, "/register");
    CustomRoutesWin(custom, "EventRegistration", options, Post, "/register");
  }

  // ---- the constructor ------------------------------------------------------------------

  datatype Built = Built(entityName: string, entityNameLower: string, entityNameCamel: string, entityIdParam: string,
                         options: Doc, routes: seq<Route>)

  /** `new SomeRoutes(service, entityName, options)`: the derived names, the merged
    * options, the custom routes, then the generic ones. */
  function Construct(c: Construction, custom: seq<Route>): (r: Result<Built>)
    ensures r.Err? <==> c.Direct?
    ensures r.Err? ==> r.msg == AbstractRoutes
  {
    match c
    case Direct => Err(AbstractRoutes)
    case Subclass(name, given) =>
      var options := Options(given);
      Ok(Built(name, ToLower(name), ToCamelCase(name), IdParam(name), options, Routes(custom, name, options)))
  }

  /** A built resource's generic routes follow its custom ones and take their id
    * parameter from the camel-case name. */
  lemma ConstructShape(name: string, given: Doc, custom: seq<Route>)
    ensures var b := Construct(Subclass(name, given), custom).value;
      && b.entityIdParam == b.entityNameCamel + "ID"
      && b.routes[..|custom|] == custom
      && b.routes[|custom| + 1].path == "/id/:" + b.entityIdParam
      && b.options == Options(given)
  {
    var b := Construct(Subclass(name, given), custom).value;
    assert b.routes[|custom| + 1] == GenericRoutes(name, Options(given))[1];
  }

  // ---- handler responses ------------------------------------------------------------------

  datatype Response = Response(status: int, body: Value)

  /** The error a handler raises when the service gives back nothing. */
  function EmptyResultMessage(op: Operation, entityName: string): Option<string>
  {
    match op
    case Insert => Some("Unable to save " + entityName + "!")
    case Search => Some("Unable to search " + entityName + "s!")
    case Delete => Some("Unable to delete " + entityName + "!")
    case Update => Some("Unable to update " + entityName + "!")
    case GetAll => Some("Unable to get " + entityName + "s!")
    case _ => None
  }

  function ErrorBody(message: string): Value
  {
    Obj([("error", Bool(true)), ("message", Str(message))])
  }

  /** A handler's answer to the service's outcome: the result itself, or
    * `{error: true, message}` for a failure or a falsy result. */
  function Respond(op: Operation, entityName: string, outcome: Result<Value>): (r: Response)
    ensures r.status == 200
    ensures outcome.Err? ==> r.body == ErrorBody(outcome.msg)
  {
    match outcome
    case Err(m) => Response(200, ErrorBody(m))
    case Ok(v) =>
      if !Truthy(v) && EmptyResultMessage(op, entityName).Some? then Response(200, ErrorBody(EmptyResultMessage(op, entityName).value))
      else Response(200, v)
  }

  /** Every generic handler answers with status 200; a failure is told apart only
    * by the envelope, and a successful non-empty result is sent as it is. */
  lemma EnvelopeAlways200(op: Operation, entityName: string, outcome: Result<Value>)
    ensures Respond(op, entityName, outcome).status == 200
    ensures outcome.Ok? && Truthy(outcome.value) ==> Respond(op, entityName, outcome).body == outcome.value
    ensures outcome.Ok? && !Truthy(outcome.value) && op != GetById && op != GetByKey ==>
      Respond(op, entityName, outcome).body.Obj? && Respond(op, entityName, outcome).body.entries[0] == ("error", Bool(true))
  {
  }
}
