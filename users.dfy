// The User record (api/schemas/User.js) and the User model's store helpers
// (api/models/user.js).  The schema matters to the services in two ways that are
// modelled: a save or update keeps only declared paths (strict mode), and a
// query leaves out the paths declared `select: false` unless asked for.

module Users {
  import opened Wrappers
  import opened Strings
  import opened Values
  import opened Store
  import RequestParams

  // ---- the schema -------------------------------------------------------------

  /** The declared paths, the paths hidden from queries, and whether `password`
    * is required on save. */
  datatype UserSchema = UserSchema(paths: set<string>, hidden: set<string>, passwordRequired: bool)

  const DeclaredPaths: set<string> := {
    "key", "email", "password", "firstName", "lastName", "avatar", "role", "lastLogin",
    "loginAttempts", "lockUntil", "passwordResetToken", "passwordResetExpires",
    "lastPasswordResetRequest", "preferredTheme", "isActive", "metadata"}

  const DeclaredHidden: set<string> := {"password", "passwordResetToken", "passwordResetExpires", "lastPasswordResetRequest"}

  const InvitationPaths: set<string> := {"invitationToken", "invitationTokenExpires"}

  /** The schema as declared: no invitation paths, and a password always required. */
  const DeclaredSchema: UserSchema := UserSchema(DeclaredPaths, DeclaredHidden, true)

  /** The schema the invitation flow needs: invitation paths declared (and hidden),
    * and the password left to the service's own self-registration check. */
  const InvitationSchema: UserSchema := UserSchema(DeclaredPaths + InvitationPaths, DeclaredHidden + InvitationPaths, false)

  const SystemPaths: set<string> := {"_id", "createdAt", "updatedAt"}

  const Roles: set<string> := {"user", "admin", "superadmin"}

  const PasswordRequiredError: string := "User validation failed: password: Path `password` is required."

  /** Strict mode: only declared paths are written. */
  function Strict(schema: UserSchema, data: Doc): (r: Doc)
    ensures forall k :: k in r <==> k in data && k in schema.paths
    ensures forall k :: k in r ==> r[k] == data[k]
  {
    map k | k in data && k in schema.paths :: data[k]
  }

  /** A stored record holds only declared paths and the system paths. */
  predicate DeclaredOnly(schema: UserSchema, d: Doc)
  {
    forall k :: k in d ==> k in schema.paths || k in SystemPaths
  }

  /** A saved document holds only what strict mode kept and the system paths. */
  lemma StampedDeclared(schema: UserSchema, doc: Doc, id: Id, now: int)
    requires forall k :: k in doc ==> k in schema.paths
    ensures DeclaredOnly(schema, Stamped(doc, id, now))
  {
  }

  lemma AddDeclared(schema: UserSchema, records: map<Id, Doc>, id: Id, d: Doc)
    requires forall i :: i in records ==> DeclaredOnly(schema, records[i])
    requires DeclaredOnly(schema, d)
    ensures var after := records[id := d]; forall i :: i in after ==> DeclaredOnly(schema, after[i])
  {
  }

  /** The default projection, plus the hidden paths a query selects with `+path`. */
  function Selected(schema: UserSchema, u: Doc, plus: set<string>): (r: Doc)
    ensures forall k :: k in r <==> k in u && (k !in schema.hidden || k in plus)
    ensures forall k :: k in r ==> r[k] == u[k]
  {
    map k | k in u && (k !in schema.hidden || k in plus) :: u[k]
  }

  /** The schema defaults of a new user; `key` is a fresh UUID supplied by the caller. */
  function WithDefaults(data: Doc, key: string): (r: Doc)
    ensures forall k :: k in data ==> k in r && r[k] == data[k]
    ensures "role" in r && "isActive" in r && "loginAttempts" in r && "key" in r
    ensures "role" !in data ==> r["role"] == Str("user")
    ensures "loginAttempts" !in data ==> r["loginAttempts"] == Num(0)
    ensures "isActive" !in data ==> r["isActive"] == Bool(true)
  {
    var defaults := map["key" := Str(key), "avatar" := Str(""), "role" := Str("user"), "loginAttempts" := Num(0),
                        "preferredTheme" := Str("light"), "isActive" := Bool(true)];
    map k | k in data.Keys + defaults.Keys :: if k in data then data[k] else defaults[k]
  }

  /** The required-path check of a save (the other required paths are checked by
    * the service before it saves). */
  function Validate(schema: UserSchema, data: Doc): (r: Option<string>)
    ensures r.Some? <==> schema.passwordRequired && "password" !in data
  {
    if schema.passwordRequired && "password" !in data then Some(PasswordRequiredError) else None
  }

  /** The outcome of a save of `data` under `id`: the required-path error, or the
    * record with defaults filled, undeclared paths dropped and the stamps added. */
  function Inserted(schema: UserSchema, data: Doc, key: string, id: Id, now: int): Result<Doc>
  {
    var full := WithDefaults(data, key);
    if Validate(schema, full).Some? then Err(Validate(schema, full).value)
    else Ok(Stamped(Strict(schema, full), id, now))
  }

  /** A saved record keeps every declared field of the data as given. */
  lemma InsertedKeeps(schema: UserSchema, data: Doc, key: string, id: Id, now: int, k: string)
    requires !schema.passwordRequired && k in data && k in schema.paths && k !in SystemPaths
    ensures Inserted(schema, data, key, id, now).Ok?
    ensures k in Inserted(schema, data, key, id, now).value && Inserted(schema, data, key, id, now).value[k] == data[k]
  {
    var full := WithDefaults(data, key);
    assert k in Strict(schema, full);
  }

  /** A schema that requires a password refuses data without one. */
  lemma InsertedNeedsPassword(schema: UserSchema, data: Doc, key: string, id: Id, now: int)
    requires schema.passwordRequired && "password" !in data
    ensures Inserted(schema, data, key, id, now) == Err(PasswordRequiredError)
  {
    assert "password" !in WithDefaults(data, key);
  }

  /** Under the invitation schema a record that carries an invitation token is saved,
    * and the token resolves until the expiry it was given. */
  lemma InsertedInvitationLive(data: Doc, key: string, id: Id, now: int, hashed: string, expires: int, t: int)
    requires "invitationToken" in data && data["invitationToken"] == Str(hashed)
    requires "invitationTokenExpires" in data && data["invitationTokenExpires"] == Num(expires)
    ensures var saved := Inserted(InvitationSchema, data, key, id, now);
      saved.Ok? && (InvitationTokenLive(saved.value, hashed, t) <==> t < expires)
  {
    InvitationPathsSaved();
    InsertedKeeps(InvitationSchema, data, key, id, now, "invitationToken");
    InsertedKeeps(InvitationSchema, data, key, id, now, "invitationTokenExpires");
    InvitationFieldsLive(Inserted(InvitationSchema, data, key, id, now).value, hashed, expires, t);
  }

  /** The invitation schema declares both invitation paths; neither is a system path. */
  lemma InvitationPathsSaved()
    ensures "invitationToken" in InvitationSchema.paths && "invitationToken" !in SystemPaths
    ensures "invitationTokenExpires" in InvitationSchema.paths && "invitationTokenExpires" !in SystemPaths
  {
  }

  /** A record whose token is `hashed` resolves it until its expiry. */
  lemma InvitationFieldsLive(u: Doc, hashed: string, expires: int, t: int)
    requires "invitationToken" in u && u["invitationToken"] == Str(hashed)
    requires "invitationTokenExpires" in u && u["invitationTokenExpires"] == Num(expires)
    ensures InvitationTokenLive(u, hashed, t) <==> t < expires
  {
  }

  /** A saved record holds no undeclared field. */
  lemma InsertedDrops(schema: UserSchema, data: Doc, key: string, id: Id, now: int, k: string)
    requires k !in schema.paths && k !in SystemPaths
    ensures Inserted(schema, data, key, id, now).Ok? ==> k !in Inserted(schema, data, key, id, now).value
  {
  }

  // ---- virtuals and defaults --------------------------------------------------

  /** The `isLocked` virtual: a lock time that lies in the future. */
  predicate IsLocked(u: Doc, now: int)
  {
    "lockUntil" in u && u["lockUntil"].Num? && u["lockUntil"].n > now
  }

  /** `${firstName} ${lastName}` with an absent name printed as `undefined`, trimmed. */
  function FullName(u: Doc): (r: string)
    ensures r == [] || (!IsSpace(r[0]) && !IsSpace(r[|r| - 1]))
  {
    Trim(NameText(u, "firstName") + " " + NameText(u, "lastName"))
  }

  /** A name interpolated into a template string. */
  function NameText(u: Doc, k: string): string
  {
    if k in u then JsString(u[k]) else "undefined"
  }

  /** `loginAttempts`, which defaults to 0. */
  function LoginAttempts(u: Doc): int
  {
    if "loginAttempts" in u && u["loginAttempts"].Num? then u["loginAttempts"].n else 0
  }

  /** `isActive`, which defaults to true. */
  predicate IsActive(u: Doc)
  {
    if "isActive" in u then Truthy(u["isActive"]) else true
  }

  function StoredPassword(u: Doc): Option<string>
  {
    if "password" in u && u["password"].Str? then Some(u["password"].s) else None
  }

  // ---- the writes of the model helpers -----------------------------------------

  const DefaultLockDuration: int := 2 * 60 * 60 * 1000

  /** `$inc: {loginAttempts: 1}`. */
  function Incremented(u: Doc, now: int): (r: Doc)
    ensures LoginAttempts(r) == LoginAttempts(u) + 1
    ensures forall k :: k in u && k != "loginAttempts" && k != "updatedAt" ==> k in r && r[k] == u[k]
    ensures forall k :: k in r ==> k in u || k == "loginAttempts" || k == "updatedAt"
  {
    Patched(u, map["loginAttempts" := Num(LoginAttempts(u) + 1)], {}, now)
  }

  /** `$unset: {loginAttempts, lockUntil}`. */
  function Unlocked(u: Doc, now: int): (r: Doc)
    ensures "loginAttempts" !in r && "lockUntil" !in r
    ensures LoginAttempts(r) == 0 && forall t :: !IsLocked(r, t)
    ensures forall k :: k in u && k != "loginAttempts" && k != "lockUntil" && k != "updatedAt" ==> k in r && r[k] == u[k]
  {
    Patched(u, map[], {"loginAttempts", "lockUntil"}, now)
  }

  /** `$set: {lockUntil: now + duration}`. */
  function LockedUntil(u: Doc, until: int, now: int): (r: Doc)
    ensures "lockUntil" in r && r["lockUntil"] == Num(until)
    ensures forall t :: IsLocked(r, t) <==> t < until
    ensures LoginAttempts(r) == LoginAttempts(u)
  {
    var assign := map["lockUntil" := Num(until)];
    assert "lockUntil" in assign;
    Patched(u, assign, {}, now)
  }

  // ---- token lookups ----------------------------------------------------------

  /** A stored token hash that matches and whose expiry lies after now (`$gt`). */
  predicate TokenLive(u: Doc, tokenPath: string, expiresPath: string, hashed: string, now: int)
  {
    MatchesField(u, tokenPath, Str(hashed)) &&
    expiresPath in u && u[expiresPath].Num? && u[expiresPath].n > now
  }

  predicate ResetTokenLive(u: Doc, hashed: string, now: int)
  {
    TokenLive(u, "passwordResetToken", "passwordResetExpires", hashed, now)
  }

  predicate InvitationTokenLive(u: Doc, hashed: string, now: int)
  {
    TokenLive(u, "invitationToken", "invitationTokenExpires", hashed, now)
  }

  /** `searchUsers`: active users whose first name, last name or e-mail contains the term. */
  predicate SearchHit(u: Doc, term: string)
  {
    MatchesField(u, "isActive", Bool(true)) &&
    (("firstName" in u && MatchesTerm(u["firstName"], term)) ||
     ("lastName" in u && MatchesTerm(u["lastName"], term)) ||
     ("email" in u && MatchesTerm(u["email"], term)))
  }

  /** The user collection behind the model helpers. */
  class UserModel {
    const users: Collection
    const schema: UserSchema

    /** Every stored record holds only declared paths and the system paths. */
    ghost predicate Valid()
      reads users
    {
      users.Valid() && DeclaredPaths <= schema.paths &&
      forall id :: id in users.records ==> DeclaredOnly(schema, users.records[id])
    }

    constructor (users: Collection, schema: UserSchema)
      ensures this.users == users && this.schema == schema
    {
      this.users := users;
      this.schema := schema;
    }

    /** `getUserByEmail` (whole record; callers apply the projection they use). */
    function ByEmail(email: string): (r: Option<Doc>)
      reads users
      ensures r.Some? ==>
        r.value in users.Documents() && "email" in r.value &&
        (r.value["email"] == Str(ToLower(email)) || (r.value["email"].Arr? && Str(ToLower(email)) in r.value["email"].items))
    {
      var q := map["email" := Str(ToLower(email))];
      var found := Find(users.Documents(), q);
      if |found| == 0 then None
      else
        assert found[0] in found && "email" in q;
        Some(found[0])
    }

    function ByResetToken(hashed: string, now: int): (r: Option<Doc>)
      reads users
      ensures r.Some? ==> r.value in users.Documents() && ResetTokenLive(r.value, hashed, now)
      ensures r.None? ==> forall u :: u in users.Documents() ==> !ResetTokenLive(u, hashed, now)
    {
      var found := Select(users.Documents(), u => ResetTokenLive(u, hashed, now));
      if |found| == 0 then None else assert found[0] in found; Some(found[0])
    }

    function ByInvitationToken(hashed: string, now: int): (r: Option<Doc>)
      reads users
      ensures r.Some? ==> r.value in users.Documents() && InvitationTokenLive(r.value, hashed, now)
      ensures r.None? ==> forall u :: u in users.Documents() ==> !InvitationTokenLive(u, hashed, now)
    {
      var found := Select(users.Documents(), u => InvitationTokenLive(u, hashed, now));
      if |found| == 0 then None else assert found[0] in found; Some(found[0])
    }

    function SearchUsers(term: string): (r: seq<Doc>)
      reads users
      ensures forall u :: u in r <==> u in users.Documents() && SearchHit(u, term)
    {
      Select(users.Documents(), u => SearchHit(u, term))
    }

    /** `new User(data).save()`: defaults, strict mode, then the required check. */
    method Insert(data: Doc, key: string, now: int) returns (r: Result<Doc>)
      requires Valid()
      modifies users
      ensures Valid()
      ensures r == Inserted(schema, data, key, old(users.nextId), now)
      ensures r.Err? ==> users.records == old(users.records) && users.nextId == old(users.nextId)
      ensures r.Ok? ==> users.records == old(users.records)[old(users.nextId) := r.value]
    {
      var full := WithDefaults(data, key);
      var invalid := Validate(schema, full);
      if invalid.Some? {
        return Err(invalid.value);
      }
      var saved := Save(Strict(schema, full), now);
      r := Ok(saved);
    }

    /** The write of a save, with strict mode already applied. */
    method Save(doc: Doc, now: int) returns (saved: Doc)
      requires Valid() && forall k :: k in doc ==> k in schema.paths
      modifies users
      ensures Valid()
      ensures saved == Stamped(doc, old(users.nextId), now)
      ensures users.records == old(users.records)[old(users.nextId) := saved]
    {
      StampedDeclared(schema, doc, users.nextId, now);
      AddDeclared(schema, users.records, users.nextId, Stamped(doc, users.nextId, now));
      saved := users.Create(doc, now);
    }

    /** `findByIdAndUpdate(id, {$set, $unset}, {new: true})` with strict mode. */
    method UpdateById(id: Id, assign: Doc, unset: set<string>, now: int) returns (r: Option<Doc>)
      requires Valid()
      modifies users
      ensures Valid() && users.nextId == old(users.nextId)
      ensures id !in old(users.records) ==> r == None && users.records == old(users.records)
      ensures id in old(users.records) ==>
        && r == Some(Patched(old(users.records)[id], Strict(schema, assign), unset, now))
        && users.records == old(users.records)[id := r.value]
    {
      r := users.UpdateById(id, Strict(schema, assign), unset, now);
      if r.Some? {
        assert forall k :: k in r.value ==> k in old(users.records)[id] || k in Strict(schema, assign) || k == "updatedAt";
      }
    }

    /** `findOneAndUpdate({email: lower(email)}, …, {new: true})`. */
    method UpdateByEmail(email: string, assign: Doc, unset: set<string>, now: int) returns (r: Option<Doc>)
      requires Valid()
      modifies users
      ensures Valid() && users.nextId == old(users.nextId)
      ensures old(ByEmail(email)).None? ==> r == None && users.records == old(users.records)
      ensures old(ByEmail(email)).Some? ==>
        var u := old(ByEmail(email)).value;
        && r == Some(Patched(u, Strict(schema, assign), unset, now))
        && users.records == old(users.records)[u["_id"].n := r.value]
    {
      var u := ByEmail(email);
      if u.None? {
        return None;
      }
      DocumentHasId(users, u.value);
      r := UpdateById(u.value["_id"].n, assign, unset, now);
    }

    /** The `$inc` write on one stored user. */
    method IncrementRecord(u: Doc, now: int) returns (r: Doc)
      requires Valid() && u in users.Documents()
      modifies users
      ensures Valid() && users.nextId == old(users.nextId)
      ensures "_id" in u && u["_id"].Num? && u["_id"].n >= 0
      ensures r == Incremented(u, now) && users.records == old(users.records)[u["_id"].n := r]
    {
      var assign := map["loginAttempts" := Num(LoginAttempts(u) + 1)];
      IncrementStrict(schema, u, now);
      DocumentHasId(users, u);
      var updated := UpdateById(u["_id"].n, assign, {}, now);
      r := updated.value;
    }

    /** `incrementLoginAttempts(email)`. */
    method IncrementLoginAttempts(email: string, now: int) returns (r: Option<Doc>)
      requires Valid()
      modifies users
      ensures Valid() && users.nextId == old(users.nextId)
      ensures old(ByEmail(email)).None? ==> r == None && users.records == old(users.records)
      ensures old(ByEmail(email)).Some? ==>
        var u := old(ByEmail(email)).value;
        r == Some(Incremented(u, now)) && users.records == old(users.records)[u["_id"].n := r.value]
    {
      var u := ByEmail(email);
      if u.None? {
        return None;
      }
      var updated := IncrementRecord(u.value, now);
      r := Some(updated);
    }

    /** `resetLoginAttempts(email)`. */
    method ResetLoginAttempts(email: string, now: int) returns (r: Option<Doc>)
      requires Valid()
      modifies users
      ensures Valid() && users.nextId == old(users.nextId)
      ensures old(ByEmail(email)).None? ==> r == None && users.records == old(users.records)
      ensures old(ByEmail(email)).Some? ==>
        var u := old(ByEmail(email)).value;
        r == Some(Unlocked(u, now)) && users.records == old(users.records)[u["_id"].n := r.value]
    {
      r := UpdateByEmail(email, map[], {"loginAttempts", "lockUntil"}, now);
    }

    /** `lockAccount(email, lockDuration = 2 h)`. */
    method LockAccount(email: string, lockDuration: int, now: int) returns (r: Option<Doc>)
      requires Valid()
      modifies users
      ensures Valid() && users.nextId == old(users.nextId)
      ensures old(ByEmail(email)).None? ==> r == None && users.records == old(users.records)
      ensures old(ByEmail(email)).Some? ==>
        var u := old(ByEmail(email)).value;
        r == Some(LockedUntil(u, now + lockDuration, now)) && users.records == old(users.records)[u["_id"].n := r.value]
    {
      var assign := map["lockUntil" := Num(now + lockDuration)];
      StrictKeepsOne(schema, "lockUntil", Num(now + lockDuration));
      r := UpdateByEmail(email, assign, {}, now);
    }
  }

  lemma StrictKeepsDeclared(schema: UserSchema, data: Doc)
    requires DeclaredPaths <= schema.paths && data.Keys <= DeclaredPaths
    ensures Strict(schema, data) == data
  {
  }

  /** Strict mode keeps a one-field update of the login counter or the lock time. */
  lemma StrictKeepsOne(schema: UserSchema, k: string, v: Value)
    requires DeclaredPaths <= schema.paths && (k == "loginAttempts" || k == "lockUntil")
    ensures Strict(schema, map[k := v]) == map[k := v]
  {
    assert k in DeclaredPaths;
  }

  /** The strict `$inc` update is the counted record. */
  lemma IncrementStrict(schema: UserSchema, u: Doc, now: int)
    requires DeclaredPaths <= schema.paths
    ensures var assign := map["loginAttempts" := Num(LoginAttempts(u) + 1)];
      Strict(schema, assign) == assign && Patched(u, Strict(schema, assign), {}, now) == Incremented(u, now)
  {
    StrictKeepsOne(schema, "loginAttempts", Num(LoginAttempts(u) + 1));
  }

  lemma InvitationUndeclared()
    ensures "invitationToken" !in DeclaredPaths && "invitationToken" !in SystemPaths
  {
  }

  /** Under the declared schema no stored user carries an invitation token, so an
    * invitation lookup never finds anyone. */
  lemma DeclaredSchemaDropsInvitations(m: UserModel, hashed: string, now: int)
    requires m.Valid() && m.schema == DeclaredSchema
    ensures m.ByInvitationToken(hashed, now) == None
  {
    InvitationUndeclared();
    forall u | u in m.users.Documents() ensures !InvitationTokenLive(u, hashed, now) {
      DocumentHasId(m.users, u);
    }
  }
}
