// Request authentication and authorisation (api/middleware/auth.js,
// api/middleware/apiKeyScope.js, api/middleware/superadmin.js).  A request is a
// class whose `user`, `authType` and `apiKey` fields the middleware sets; the
// API-key collection is a `Store.Collection` whose `lastUsedAt` is written.

module AuthMiddleware {
  import opened Wrappers
  import opened Strings
  import opened Values
  import opened Store
  import opened ApiHelpers

  datatype AuthType = BearerAuth | ApiKeyAuth

  /** What a middleware does with a request: pass it on, or answer it. */
  datatype Outcome = Next | Respond(status: int, message: string)

  /** `ApiKeyService.findByKey`: the first active key with that value. */
  function FindByKey(keys: seq<Doc>, key: string): (r: Option<Doc>)
    ensures r.Some? ==> r.value in keys && MatchesField(r.value, "key", Str(key)) && MatchesField(r.value, "isActive", Bool(true))
  {
    var q := map["key" := Str(key), "isActive" := Bool(true)];
    var found := Find(keys, q);
    if |found| == 0 then None
    else
      assert found[0] in found && "key" in q && "isActive" in q;
      Some(found[0])
  }

  /** A key whose `expiresAt` lies before now; a null `expiresAt` never expires. */
  predicate HasExpired(apiKey: Doc, now: int)
  {
    "expiresAt" in apiKey && apiKey["expiresAt"].Num? && apiKey["expiresAt"].n < now
  }

  /** The three outcomes of `authenticate`. */
  datatype Decision = AcceptUser(user: Doc) | AcceptKey(key: Doc) | Reject(status: int, message: string)

  const BearerPrefix: string := "Bearer "
  const ApiKeyPrefix: string := "ApiKey "

  /** The header dispatch of `authenticate`. */
  function Decide(header: Option<string>, sessions: seq<Doc>, users: map<Id, Doc>, keys: seq<Doc>,
                  sha: string -> string, now: int): (r: Decision)
    ensures r.Reject? ==> r.status == 401
    ensures r.AcceptUser? ==> header.Some? && IsPrefix(BearerPrefix, header.value)
    ensures r.AcceptKey? ==> header.Some? && IsPrefix(ApiKeyPrefix, header.value) && !HasExpired(r.key, now)
  {
    if header.None? || header.value == "" then Reject(401, "Authorization header required")
    else if IsPrefix(BearerPrefix, header.value) then
      var check := ValidateAuth(Str(header.value[7..]), sessions, users, sha);
      if check.Authenticated? then AcceptUser(check.principal) else Reject(401, "Invalid authentication token")
    else if IsPrefix(ApiKeyPrefix, header.value) then
      var key := FindByKey(keys, header.value[7..]);
      if key.None? then Reject(401, "Invalid API key")
      else if HasExpired(key.value, now) then Reject(401, "API key has expired")
      else AcceptKey(key.value)
    else Reject(401, "Invalid authorization format")
  }

  /** A bearer token is accepted exactly when a session is stored under its hash. */
  lemma BearerAcceptedIffSession(token: string, sessions: seq<Doc>, users: map<Id, Doc>, keys: seq<Doc>,
                                 sha: string -> string, now: int)
    requires forall s: Doc :: s in sessions && "token" in s ==> s["token"].Str?
    ensures Decide(Some(BearerPrefix + token), sessions, users, keys, sha, now).AcceptUser? <==>
      token != "" && exists s :: s in sessions && "token" in s && s["token"] == Str(sha(token))
  {
    var h := BearerPrefix + token;
    assert IsPrefix(BearerPrefix, h) && h[7..] == token;
    ValidateAuthCharacterised(Str(token), sessions, users, sha);
  }

  /** An API key is accepted exactly when an active key with that value exists and
    * the first such key has not expired. */
  lemma ApiKeyAccepted(key: string, sessions: seq<Doc>, users: map<Id, Doc>, keys: seq<Doc>,
                       sha: string -> string, now: int)
    ensures var d := Decide(Some(ApiKeyPrefix + key), sessions, users, keys, sha, now);
      && (d.AcceptKey? <==> FindByKey(keys, key).Some? && !HasExpired(FindByKey(keys, key).value, now))
      && (FindByKey(keys, key).None? ==> d == Reject(401, "Invalid API key"))
      && (FindByKey(keys, key).Some? && HasExpired(FindByKey(keys, key).value, now) ==> d == Reject(401, "API key has expired"))
  {
    var h := ApiKeyPrefix + key;
    assert IsPrefix(ApiKeyPrefix, h) && h[7..] == key;
    assert !IsPrefix(BearerPrefix, h) by { assert h[0] != BearerPrefix[0]; }
  }

  /** Any header that is neither scheme is refused as a bad format. */
  lemma OtherSchemeRejected(header: string, sessions: seq<Doc>, users: map<Id, Doc>, keys: seq<Doc>,
                            sha: string -> string, now: int)
    requires header != "" && !IsPrefix(BearerPrefix, header) && !IsPrefix(ApiKeyPrefix, header)
    ensures Decide(Some(header), sessions, users, keys, sha, now) == Reject(401, "Invalid authorization format")
  {
  }

  class Request {
    const authorization: Option<string>
    var user: Option<Doc>
    var authType: Option<AuthType>
    var apiKey: Option<Doc>

    constructor (authorization: Option<string>)
      ensures this.authorization == authorization
      ensures user == None && authType == None && apiKey == None
    {
      this.authorization := authorization;
      user := None;
      authType := None;
      apiKey := None;
    }
  }

  /** `authenticate`: dispatch on the header; a bearer token sets the user, an
    * API key is stamped with `lastUsedAt` and stored on the request. */
  method Authenticate(req: Request, sessions: seq<Doc>, users: map<Id, Doc>, keyStore: Collection,
                      sha: string -> string, now: int) returns (out: Outcome)
    requires keyStore.Valid()
    modifies req, keyStore
    ensures keyStore.Valid()
    ensures Decide(req.authorization, sessions, users, old(keyStore.Documents()), sha, now).Reject? ==>
      var d := Decide(req.authorization, sessions, users, old(keyStore.Documents()), sha, now);
      && out == Respond(d.status, d.message)
      && keyStore.records == old(keyStore.records)
      && req.user == old(req.user) && req.authType == old(req.authType) && req.apiKey == old(req.apiKey)
    ensures Decide(req.authorization, sessions, users, old(keyStore.Documents()), sha, now).AcceptUser? ==>
      var d := Decide(req.authorization, sessions, users, old(keyStore.Documents()), sha, now);
      && out == Next
      && req.user == Some(d.user) && req.authType == Some(BearerAuth) && req.apiKey == old(req.apiKey)
      && keyStore.records == old(keyStore.records)
    ensures Decide(req.authorization, sessions, users, old(keyStore.Documents()), sha, now).AcceptKey? ==>
      var d := Decide(req.authorization, sessions, users, old(keyStore.Documents()), sha, now);
      var stamped := Patched(d.key, map["lastUsedAt" := Num(now)], {}, now);
      && out == Next
      && req.user == old(req.user) && req.authType == Some(ApiKeyAuth) && req.apiKey == Some(stamped)
      && keyStore.records == old(keyStore.records)[d.key["_id"].n := stamped]
  {
    var d := Decide(req.authorization, sessions, users, keyStore.Documents(), sha, now);
    if d.Reject? {
      out := Respond(d.status, d.message);
    } else if d.AcceptUser? {
      req.user := Some(d.user);
      req.authType := Some(BearerAuth);
      out := Next;
    } else {
      assert d.key in keyStore.Documents();
      DocumentHasId(keyStore, d.key);
      var id: Id := d.key["_id"].n;
      var stamped := keyStore.UpdateById(id, map["lastUsedAt" := Num(now)], {}, now);
      req.apiKey := stamped;
      req.authType := Some(ApiKeyAuth);
      out := Next;
    }
  }

  // ---- requireApiKeyScope -----------------------------------------------------

  /** The stored `scopes` map grants `permission` on `entityType`. */
  predicate ScopeGrants(apiKey: Doc, entityType: string, permission: string)
  {
    "scopes" in apiKey && apiKey["scopes"].Obj? &&
    var scope := ObjGet(apiKey["scopes"].entries, entityType);
    scope.Some? && scope.value.Obj? &&
    var flag := ObjGet(scope.value.entries, permission);
    flag.Some? && Truthy(flag.value)
  }

  function ScopeDenied(entityType: string, permission: string): string
  {
    "API key does not have " + permission + " access to " + entityType
  }

  /** `requireApiKeyScope(entityType, permission)`: only API-key requests are
    * checked, against the key's scope entry for the entity type. */
  function RequireApiKeyScope(authType: Option<AuthType>, apiKey: Option<Doc>, entityType: string, permission: string): (r: Outcome)
    requires authType == Some(ApiKeyAuth) ==> apiKey.Some?
    ensures authType != Some(ApiKeyAuth) ==> r == Next
    ensures authType == Some(ApiKeyAuth) ==>
      (r == Next <==> ScopeGrants(apiKey.value, entityType, permission)) &&
      (r != Next ==> r == Respond(403, ScopeDenied(entityType, permission)))
  {
    if authType != Some(ApiKeyAuth) then Next
    else if ScopeGrants(apiKey.value, entityType, permission) then Next
    else Respond(403, ScopeDenied(entityType, permission))
  }

  // ---- role gates -------------------------------------------------------------

  predicate HasRole(user: Doc, role: string)
  {
    "role" in user && user["role"] == Str(role)
  }

  function RequireSuperadmin(user: Option<Doc>): (r: Outcome)
    ensures user.None? ==> r == Respond(401, "Authentication required")
    ensures r == Next <==> user.Some? && HasRole(user.value, "superadmin")
    ensures user.Some? && r != Next ==> r == Respond(403, "Superadmin access required")
  {
    if user.None? then Respond(401, "Authentication required")
    else if !HasRole(user.value, "superadmin") then Respond(403, "Superadmin access required")
    else Next
  }

  function RequireAdmin(user: Option<Doc>): (r: Outcome)
    ensures user.None? ==> r == Respond(401, "Authentication required")
    ensures r == Next <==> user.Some? && HasRole(user.value, "admin")
    ensures user.Some? && r != Next ==> r == Respond(403, "Admin access required")
  {
    if user.None? then Respond(401, "Authentication required")
    else if !HasRole(user.value, "admin") then Respond(403, "Admin access required")
    else Next
  }

  function RequireAdminOrSuperadmin(user: Option<Doc>): (r: Outcome)
    ensures user.None? ==> r == Respond(401, "Authentication required")
    ensures r == Next <==> user.Some? && (HasRole(user.value, "admin") || HasRole(user.value, "superadmin"))
    ensures user.Some? && r != Next ==> r == Respond(403, "Admin or superadmin access required")
  {
    if user.None? then Respond(401, "Authentication required")
    else if !(HasRole(user.value, "admin") || HasRole(user.value, "superadmin")) then
      Respond(403, "Admin or superadmin access required")
    else Next
  }

  /** `requireAdmin` refuses a superadmin, and the combined gate is the union of
    * the two single gates. */
  lemma GatesRelated(user: Option<Doc>)
    ensures user.Some? && HasRole(user.value, "superadmin") ==> RequireAdmin(user) == Respond(403, "Admin access required")
    ensures RequireAdminOrSuperadmin(user) == Next <==> RequireAdmin(user) == Next || RequireSuperadmin(user) == Next
  {
  }
}
