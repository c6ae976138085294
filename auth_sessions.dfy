// Bearer-token sessions (api/services/authSession.js): a session stores only the
// SHA-256 of its token and, once a user has logged in, that user's id.

module AuthSessions {
  import opened Wrappers
  import opened Values
  import opened Store
  import opened Schemas
  import opened Credentials

  function SessionUser(s: Doc): Option<Id>
  {
    if "userId" in s && s["userId"].Num? && s["userId"].n >= 0 then Some(s["userId"].n) else None
  }

  /** `getUserByToken`: the first session stored under the hashed token; its user
    * when the user reference resolves, the session itself when it does not. */
  function UserByToken(sessions: seq<Doc>, users: map<Id, Doc>, hashed: string): Option<Doc>
  {
    var found := First(Find(sessions, map["token" := Str(hashed)]));
    if found.None? then None
    else
      var uid := SessionUser(found.value);
      if uid.Some? && uid.value in users then Some(users[uid.value]) else found
  }

  lemma MatchesToken(s: Doc, hashed: string)
    ensures Matches(s, map["token" := Str(hashed)]) <==> "token" in s && (s["token"] == Str(hashed) || (s["token"].Arr? && Str(hashed) in s["token"].items))
  {
    var q := map["token" := Str(hashed)];
    assert "token" in q;
    if "token" in s && (s["token"] == Str(hashed) || (s["token"].Arr? && Str(hashed) in s["token"].items)) {
      forall k | k in q ensures MatchesField(s, k, q[k]) { assert k == "token"; }
    }
  }

  /** A token resolves to a principal exactly when some session is stored under its
    * hash; the principal is either that session's user or the session itself. */
  lemma UserByTokenFound(sessions: seq<Doc>, users: map<Id, Doc>, hashed: string)
    requires forall s: Doc :: s in sessions && "token" in s ==> s["token"].Str?
    ensures UserByToken(sessions, users, hashed).Some? <==>
      exists s :: s in sessions && "token" in s && s["token"] == Str(hashed)
    ensures UserByToken(sessions, users, hashed).Some? ==>
      exists s :: s in sessions && "token" in s && s["token"] == Str(hashed) &&
        (UserByToken(sessions, users, hashed) == Some(s) ||
         (SessionUser(s).Some? && SessionUser(s).value in users &&
          UserByToken(sessions, users, hashed) == Some(users[SessionUser(s).value])))
  {
    var q := map["token" := Str(hashed)];
    var found := Find(sessions, q);
    forall s | s in sessions ensures Matches(s, q) <==> "token" in s && s["token"] == Str(hashed) {
      MatchesToken(s, hashed);
    }
    if |found| > 0 {
      assert found[0] in found;
    } else {
      forall s | s in sessions && "token" in s ensures s["token"] != Str(hashed) {
        assert s !in found;
      }
    }
  }

  /** A session that is the only one under its hash and names a stored user
    * authenticates as that user. */
  lemma SoleSessionResolves(sessions: seq<Doc>, users: map<Id, Doc>, hashed: string, s: Doc)
    requires forall t: Doc :: t in sessions && "token" in t ==> t["token"].Str?
    requires s in sessions && "token" in s && s["token"] == Str(hashed)
    requires forall t :: t in sessions && "token" in t && t["token"] == Str(hashed) ==> t == s
    requires SessionUser(s).Some? && SessionUser(s).value in users
    ensures UserByToken(sessions, users, hashed) == Some(users[SessionUser(s).value])
  {
    var q := map["token" := Str(hashed)];
    var found := Find(sessions, q);
    MatchesToken(s, hashed);
    assert s in found;
    assert found[0] in found;
    MatchesToken(found[0], hashed);
  }

  ghost predicate IsDigestOf(v: Value, sha: string -> string)
  {
    exists t :: v == Str(sha(t))
  }

  /** The sessions `deleteMany({userId})` removes. */
  predicate OwnedBy(s: Doc, userId: Id)
  {
    Matches(s, map["userId" := Num(userId)])
  }

  lemma OwnedByFacts(s: Doc, userId: Id)
    ensures OwnedBy(s, userId) <==>
      "userId" in s && (s["userId"] == Num(userId) || (s["userId"].Arr? && Num(userId) in s["userId"].items))
    ensures SessionUser(s) == Some(userId) ==> OwnedBy(s, userId)
  {
    var q := map["userId" := Num(userId)];
    assert "userId" in q && q["userId"] == Num(userId);
    if "userId" in s && (s["userId"] == Num(userId) || (s["userId"].Arr? && Num(userId) in s["userId"].items)) {
      forall k | k in q ensures MatchesField(s, k, q[k]) { assert k == "userId"; }
    }
  }

  /** The sessions left after `deleteMany({userId})`. */
  function WithoutUser(records: map<Id, Doc>, userId: Id): (r: map<Id, Doc>)
    ensures forall id :: id in r <==> id in records && !OwnedBy(records[id], userId)
    ensures forall id :: id in r ==> r[id] == records[id]
  {
    map id | id in records && !OwnedBy(records[id], userId) :: records[id]
  }

  /** A session saved from the hash alone gets the save time as its login time. */
  lemma TokenOnlyCast(hashed: string, now: int)
    ensures Cast(SessionSchema, map["token" := Str(hashed)], now) == map["token" := Str(hashed), "lastLogin" := Num(now)]
  {
    assert Cast(SessionSchema, map["token" := Str(hashed)], now).Keys == {"token", "lastLogin"};
  }

  /** The session `createUserSession(token, userId)` stores under a fresh id. */
  function UserSession(token: string, userId: Id, sha: string -> string, id: Id, now: int): Doc
  {
    Stamped(map["token" := Str(sha(token)), "userId" := Num(userId), "lastLogin" := Num(now)], id, now)
  }

  /** The first stored session under a hash carries that hash. */
  lemma FoundCarriesToken(docs: seq<Doc>, hashed: string)
    requires First(Find(docs, map["token" := Str(hashed)])).Some?
    ensures var d := First(Find(docs, map["token" := Str(hashed)])).value;
      d in docs && "token" in d && (d["token"] == Str(hashed) || (d["token"].Arr? && Str(hashed) in d["token"].items))
  {
    var found := Find(docs, map["token" := Str(hashed)]);
    assert found[0] in found;
    MatchesToken(found[0], hashed);
  }

  class SessionService {
    const sessions: Collection
    const sha: string -> string

    /** Every stored token is a SHA-256 digest: raw tokens are never stored. */
    ghost predicate Valid()
      reads sessions
    {
      sessions.Valid() &&
      forall id :: id in sessions.records ==>
        "token" in sessions.records[id] && IsDigestOf(sessions.records[id]["token"], sha)
    }

    constructor (sessions: Collection, sha: string -> string)
      ensures this.sessions == sessions && this.sha == sha
    {
      this.sessions := sessions;
      this.sha := sha;
    }

    /** Stores a session for an already hashed token, as the schema casts it. */
    method Store(data: Doc, token: string, now: int) returns (saved: Doc)
      requires Valid() && "token" in data && data["token"] == Str(sha(token))
      modifies sessions
      ensures Valid()
      ensures saved == Stamped(Cast(SessionSchema, data, now), old(sessions.nextId), now)
      ensures sessions.records == old(sessions.records)[old(sessions.nextId) := saved]
      ensures sessions.nextId == old(sessions.nextId) + 1
    {
      saved := sessions.Create(Cast(SessionSchema, data, now), now);
      assert IsDigestOf(saved["token"], sha) by { assert saved["token"] == Str(sha(token)); }
    }

    /** `loginUserWithToken({token})`: find or create the user-less session for a
      * token. A new token is stored as a new session; a known one answers with the
      * stored session as it was, and the write of the same token refreshes its
      * update time. */
    method LoginUserWithToken(token: Value, now: int) returns (r: Result<Doc>)
      requires Valid()
      modifies sessions
      ensures Valid()
      ensures !Truthy(token) ==> r == Err("No auth token!") && sessions.records == old(sessions.records)
      ensures Truthy(token) && !token.Str? ==>
        r == Err("AuthSession validation failed: token: Path `token` is required.") &&
        sessions.records == old(sessions.records)
      ensures r.Ok? ==> token.Str? && "token" in r.value && r.value["token"] == Str(sha(token.s))
      ensures token.Str? && token.s != "" ==> r.Ok?
      ensures token.Str? && token.s != "" && old(sessions.FindOne(map["token" := Str(sha(token.s))])).None? ==>
        && r.value == Stamped(map["token" := Str(sha(token.s)), "lastLogin" := Num(now)], old(sessions.nextId), now)
        && sessions.records == old(sessions.records)[old(sessions.nextId) := r.value]
        && sessions.nextId == old(sessions.nextId) + 1
      ensures token.Str? && token.s != "" && old(sessions.FindOne(map["token" := Str(sha(token.s))])).Some? ==>
        && r.value == old(sessions.FindOne(map["token" := Str(sha(token.s))])).value
        && "_id" in r.value && r.value["_id"].Num? && r.value["_id"].n >= 0
        && sessions.records == old(sessions.records)[r.value["_id"].n := Patched(r.value, map["token" := Str(sha(token.s))], {}, now)]
        && sessions.nextId == old(sessions.nextId)
    {
      if !Truthy(token) {
        return Err("No auth token!");
      }
      if !token.Str? {
        return Err("AuthSession validation failed: token: Path `token` is required.");
      }
      var hashed := sha(token.s);
      var data := map["token" := Str(hashed)];
      var existing := sessions.FindOne(data);
      if existing.None? {
        TokenOnlyCast(hashed, now);
        var saved := Store(data, token.s, now);
        r := Ok(saved);
      } else {
        FoundCarriesToken(sessions.Documents(), hashed);
        DocumentHasId(sessions, existing.value);
        assert existing.value["token"] == Str(hashed) by {
          var t :| existing.value["token"] == Str(sha(t));
        }
        var _ := Touch(existing.value["_id"].n, token.s, now);
        r := Ok(existing.value);
      }
    }

    /** `findOneAndUpdate({token}, {token})`: the same token is written again, so
      * only the update time changes. */
    method Touch(id: Id, token: string, now: int) returns (after: Doc)
      requires Valid() && id in sessions.records
      modifies sessions
      ensures Valid() && sessions.nextId == old(sessions.nextId)
      ensures after == Patched(old(sessions.records)[id], map["token" := Str(sha(token))], {}, now)
      ensures sessions.records == old(sessions.records)[id := after]
    {
      var data := map["token" := Str(sha(token))];
      PatchedTakes(sessions.records[id], data, now, "token");
      var updated := sessions.UpdateById(id, data, {}, now);
      after := updated.value;
      assert IsDigestOf(after["token"], sha) by { assert after["token"] == Str(sha(token)); }
    }

    /** `createUserSession(token, userId)`: drop every session of the user, then
      * store one for the new token. */
    method CreateUserSession(token: string, userId: Id, now: int) returns (r: Result<Doc>)
      requires Valid()
      modifies sessions
      ensures Valid()
      ensures token == "" ==>
        r == Err("AuthSession validation failed: token: Path `token` is required.") &&
        sessions.records == WithoutUser(old(sessions.records), userId)
      ensures token != "" ==>
        && r == Ok(UserSession(token, userId, sha, old(sessions.nextId), now))
        && sessions.records == WithoutUser(old(sessions.records), userId)[old(sessions.nextId) := r.value]
    {
      DestroyAllUserSessions(userId);
      if token == "" {
        return Err("AuthSession validation failed: token: Path `token` is required.");
      }
      CastConforming(SessionSchema, map["token" := Str(sha(token)), "userId" := Num(userId), "lastLogin" := Num(now)], now);
      var saved := Store(map["token" := Str(sha(token)), "userId" := Num(userId), "lastLogin" := Num(now)], token, now);
      r := Ok(saved);
    }

    /** `destroyAllUserSessions(userId)`. */
    method DestroyAllUserSessions(userId: Id)
      requires Valid()
      modifies sessions
      ensures Valid() && sessions.nextId == old(sessions.nextId)
      ensures sessions.records == WithoutUser(old(sessions.records), userId)
    {
      sessions.DeleteMany(map["userId" := Num(userId)]);
    }
  }

  /** After `createUserSession(token, userId)` the user holds exactly one session,
    * the new one, and it is stored under the hash of the token. */
  lemma {:induction false} OneSessionPerUser(before: map<Id, Doc>, newId: Id, token: string, userId: Id, now: int, sha: string -> string)
    requires forall id :: id in before ==> id < newId
    ensures var saved := UserSession(token, userId, sha, newId, now);
      var after := WithoutUser(before, userId)[newId := saved];
      && SessionUser(saved) == Some(userId)
      && (forall id :: id in after && OwnedBy(after[id], userId) <==> id == newId)
      && (forall id :: id in after && SessionUser(after[id]) == Some(userId) <==> id == newId)
  {
    var saved := UserSession(token, userId, sha, newId, now);
    var after := WithoutUser(before, userId)[newId := saved];
    assert saved["userId"] == Num(userId);
    OwnedByFacts(saved, userId);
    forall id | id in after && SessionUser(after[id]) == Some(userId) ensures id == newId {
      OwnedByFacts(after[id], userId);
    }
  }
}
