// The user service (api/services/user.js): registration, the login lockout,
// profile and administrative updates, and the password flows.  Random tokens,
// salts and UUIDs are parameters; hashing goes through the functions of the
// service.  Writes address the record found by the first lookup of a call.

module UserServices {
  import opened Wrappers
  import opened Strings
  import opened Values
  import opened Store
  import opened Credentials
  import opened AuthSessions
  import opened ApiHelpers
  import opened Lifecycle
  import opened Users
  import opened ChangeAudit
  import RequestParams

  const MissingCredentials: string := "Email and password are required!"
  const InvalidCredentials: string := "Invalid email or password!"
  const TemporarilyLocked: string := "Account is temporarily locked due to too many failed login attempts!"
  const LockedNow: string := "Account locked due to too many failed login attempts!"
  const Deactivated: string := "Account is deactivated!"
  /** What JavaScript throws when a value without string methods is used as text. */
  const NotAString: string := "TypeError: argument must be of type string"
  /** What `verifyPassword` throws for a record stored without a password. */
  const NoStoredHash: string := "Cannot read properties of undefined (reading 'split')"
  const PolicyError: string := "Password must be at least 8 characters with uppercase, lowercase, a number, and a special character."
  const Redacted: string := "[REDACTED]"

  // ---- the login lockout ---------------------------------------------------------

  /** `metadata.lastLoginIp` and `metadata.userAgent` written into the metadata object. */
  function WithLoginInfo(metadata: Option<Value>, loginIp: Value, userAgent: Value): Value
  {
    var entries := if metadata.Some? && metadata.value.Obj? then metadata.value.entries else [];
    Obj(RequestParams.Assign(RequestParams.Assign(entries, "lastLoginIp", loginIp), "userAgent", userAgent))
  }

  /** The `lastLogin` and `metadata` written by a successful login on the record `reset`. */
  function LoginStamp(reset: Doc, loginIp: Value, userAgent: Value, now: int): (stamp: Doc)
    ensures stamp.Keys == {"lastLogin", "metadata"} && stamp["lastLogin"] == Num(now)
  {
    map["lastLogin" := Num(now), "metadata" := WithLoginInfo(if "metadata" in reset then Some(reset["metadata"]) else None, loginIp, userAgent)]
  }

  lemma LoginIsTwoWrites(u: Doc, reset: Doc, r: Doc, loginIp: Value, userAgent: Value, now: int)
    requires reset == Unlocked(u, now) && r == Patched(reset, LoginStamp(reset, loginIp, userAgent, now), {}, now)
    ensures r == LoggedIn(u, loginIp, userAgent, now)
  {
  }

  /** The record after a successful login: the counters removed, then the login stamped. */
  function LoggedIn(u: Doc, loginIp: Value, userAgent: Value, now: int): (r: Doc)
    ensures LoginAttempts(r) == 0 && forall t :: !IsLocked(r, t)
    ensures "lastLogin" in r && r["lastLogin"] == Num(now)
  {
    var reset := Unlocked(u, now);
    Patched(reset, LoginStamp(reset, loginIp, userAgent, now), {}, now)
  }

  /** One login attempt on a found record: the error it reports, and the record it leaves. */
  datatype Attempt = Attempt(error: Option<string>, after: Doc)

  function LoginAttempt(u: Doc, password: Value, derive: (string, string) -> string,
                        loginIp: Value, userAgent: Value, now: int): Attempt
  {
    if IsLocked(u, now) then Attempt(Some(TemporarilyLocked), u)
    else if !IsActive(u) then Attempt(Some(Deactivated), u)
    else if StoredPassword(u).None? then Attempt(Some(NoStoredHash), u)
    else if !password.Str? then Attempt(Some(NotAString), u)
    else if !VerifyPassword(password.s, StoredPassword(u).value, derive) then
      Attempt(Some(if LoginAttempts(u) >= 4 then LockedNow else InvalidCredentials), AfterWrongPassword(u, now))
    else Attempt(None, LoggedIn(u, loginIp, userAgent, now))
  }

  /** The record a wrong password leaves: one more attempt counted, and from the fifth
    * failure on a two-hour lock. */
  function AfterWrongPassword(u: Doc, now: int): Doc
  {
    var counted := Incremented(u, now);
    if LoginAttempts(u) >= 4 then LockedUntil(counted, now + DefaultLockDuration, now) else counted
  }

  /** The password is checked only against an unlocked, active account. */
  predicate Checkable(u: Doc, now: int)
  {
    !IsLocked(u, now) && IsActive(u) && StoredPassword(u).Some?
  }

  predicate WrongPassword(u: Doc, password: Value, derive: (string, string) -> string)
  {
    password.Str? && StoredPassword(u).Some? && !VerifyPassword(password.s, StoredPassword(u).value, derive)
  }

  /** A locked account is refused before its password is looked at, and is left as it was. */
  lemma LockedAccountRefused(u: Doc, password: Value, derive: (string, string) -> string,
                             loginIp: Value, userAgent: Value, now: int)
    requires IsLocked(u, now)
    ensures LoginAttempt(u, password, derive, loginIp, userAgent, now) == Attempt(Some(TemporarilyLocked), u)
  {
  }

  /** A wrong password adds one to the counter, and locks for two hours exactly when
    * the counter already stood at four or more. */
  lemma WrongPasswordStep(u: Doc, password: Value, derive: (string, string) -> string,
                          loginIp: Value, userAgent: Value, now: int)
    requires Checkable(u, now) && WrongPassword(u, password, derive)
    ensures var a := LoginAttempt(u, password, derive, loginIp, userAgent, now);
      && LoginAttempts(a.after) == LoginAttempts(u) + 1
      && (IsLocked(a.after, now) <==> LoginAttempts(u) >= 4)
      && (LoginAttempts(u) >= 4 ==> a.error == Some(LockedNow) && forall t :: IsLocked(a.after, t) <==> t < now + DefaultLockDuration)
      && (LoginAttempts(u) < 4 ==> a.error == Some(InvalidCredentials))
      && IsActive(a.after) && StoredPassword(a.after) == StoredPassword(u)
  {
    var counted := Incremented(u, now);
    assert IsActive(counted) && StoredPassword(counted) == StoredPassword(u);
    if LoginAttempts(u) < 4 {
      assert !IsLocked(counted, now) by {
        if "lockUntil" in counted { assert counted["lockUntil"] == u["lockUntil"]; }
      }
    } else {
      var locked := LockedUntil(counted, now + DefaultLockDuration, now);
      assert locked == Patched(counted, map["lockUntil" := Num(now + DefaultLockDuration)], {}, now);
      assert IsActive(locked) by { if "isActive" in counted { assert locked["isActive"] == counted["isActive"]; } }
      assert StoredPassword(locked) == StoredPassword(counted) by { assert locked["password"] == counted["password"]; }
    }
  }

  /** Once a lock has run out the counter is still high, so one more wrong password
    * locks the account again at once. */
  lemma RelockAfterExpiry(u: Doc, password: Value, derive: (string, string) -> string,
                          loginIp: Value, userAgent: Value, now: int)
    requires Checkable(u, now) && WrongPassword(u, password, derive) && LoginAttempts(u) >= 4
    ensures LoginAttempt(u, password, derive, loginIp, userAgent, now).error == Some(LockedNow)
    ensures IsLocked(LoginAttempt(u, password, derive, loginIp, userAgent, now).after, now)
  {
    WrongPasswordStep(u, password, derive, loginIp, userAgent, now);
  }

  /** `step` applied `n` times. */
  function Repeated(step: Doc -> Doc, u: Doc, n: nat): Doc
    decreases n
  {
    if n == 0 then u else Repeated(step, step(u), n - 1)
  }

  /** One more step on top of `n`. */
  lemma {:induction false} RepeatedSnoc(step: Doc -> Doc, u: Doc, n: nat)
    ensures Repeated(step, u, n + 1) == step(Repeated(step, u, n))
    decreases n
  {
    if n > 0 {
      RepeatedSnoc(step, step(u), n - 1);
    }
  }

  /** `n` consecutive wrong passwords at the same moment. */
  function Failures(u: Doc, n: nat, password: Value, derive: (string, string) -> string, now: int): Doc
  {
    Repeated(d => AfterWrongPassword(d, now), u, n)
  }

  /** One more wrong password on top of `n`. */
  lemma FailuresSnoc(u: Doc, n: nat, password: Value, derive: (string, string) -> string, now: int)
    ensures Failures(u, n + 1, password, derive, now) == AfterWrongPassword(Failures(u, n, password, derive, now), now)
  {
    RepeatedSnoc(d => AfterWrongPassword(d, now), u, n);
  }

  /** An account that is open, whose stored password differs from `password`, and
    * that counts `count` attempts. */
  predicate OpenWith(f: Doc, password: Value, derive: (string, string) -> string, now: int, count: int)
  {
    Checkable(f, now) && WrongPassword(f, password, derive) && LoginAttempts(f) == count
  }

  /** A property of a record and its count that each step carries from `j` to `j + 1`
    * below `bound` holds after `n` steps taken from `k`. */
  lemma {:induction false} RepeatedKeeps(step: Doc -> Doc, inv: (Doc, int) -> bool, u: Doc, n: nat, k: int, bound: int)
    requires forall d, j :: inv(d, j) && j < bound ==> inv(step(d), j + 1)
    requires inv(u, k) && k + n <= bound
    ensures inv(Repeated(step, u, n), k + n)
    decreases n
  {
    if n > 0 {
      RepeatedKeeps(step, inv, step(u), n - 1, k + 1, bound);
    }
  }

  /** While fewer than five attempts are counted, each wrong password leaves the
    * account open and counts one more attempt. */
  lemma FailuresStayOpen(u: Doc, password: Value, derive: (string, string) -> string, now: int, n: nat)
    requires OpenWith(u, password, derive, now, 0) && n <= 4
    ensures OpenWith(Failures(u, n, password, derive, now), password, derive, now, n)
  {
    var inv := (d, j) => OpenWith(d, password, derive, now, j);
    forall d, j | inv(d, j) && j < 4
      ensures inv(AfterWrongPassword(d, now), j + 1)
    {
      StaysOpen(d, password, derive, now, j);
    }
    RepeatedKeeps(d => AfterWrongPassword(d, now), inv, u, n, 0, 4);
  }

  lemma StaysOpen(u: Doc, password: Value, derive: (string, string) -> string, now: int, k: int)
    requires OpenWith(u, password, derive, now, k) && k < 4
    ensures OpenWith(AfterWrongPassword(u, now), password, derive, now, k + 1)
  {
    FailureBelowFour(u, password, derive, now);
  }

  /** From a clean counter, four wrong passwords are answered with the generic error
    * and leave the account open; the fifth locks it. */
  lemma FifthFailureLocks(u: Doc, password: Value, derive: (string, string) -> string, now: int, n: nat)
    requires Checkable(u, now) && WrongPassword(u, password, derive) && LoginAttempts(u) == 0
    requires n <= 4
    ensures var a := LoginAttempt(Failures(u, n, password, derive, now), password, derive, Null, Null, now);
      && a.error == Some(if n < 4 then InvalidCredentials else LockedNow)
      && a.after == Failures(u, n + 1, password, derive, now)
      && (IsLocked(a.after, now) <==> n == 4)
  {
    FailuresStayOpen(u, password, derive, now, n);
    FailuresSnoc(u, n, password, derive, now);
    var f := Failures(u, n, password, derive, now);
    if n < 4 {
      FailureBelowFour(f, password, derive, now);
    } else {
      WrongPasswordStep(f, password, derive, Null, Null, now);
    }
  }

  /** Below four earlier failures a wrong password keeps the account open for the next try. */
  lemma FailureBelowFour(u: Doc, password: Value, derive: (string, string) -> string, now: int)
    requires Checkable(u, now) && WrongPassword(u, password, derive) && LoginAttempts(u) < 4
    ensures var a := LoginAttempt(u, password, derive, Null, Null, now);
      && a.error == Some(InvalidCredentials) && a.after == AfterWrongPassword(u, now)
      && LoginAttempts(a.after) == LoginAttempts(u) + 1
      && Checkable(a.after, now) && WrongPassword(a.after, password, derive)
  {
    WrongPasswordStep(u, password, derive, Null, Null, now);
  }

  /** A successful login clears the counter and any lock, and stamps the login time. */
  lemma SuccessfulLoginResets(u: Doc, password: Value, derive: (string, string) -> string,
                              loginIp: Value, userAgent: Value, now: int)
    requires Checkable(u, now) && password.Str? && VerifyPassword(password.s, StoredPassword(u).value, derive)
    ensures var a := LoginAttempt(u, password, derive, loginIp, userAgent, now);
      a.error.None? && LoginAttempts(a.after) == 0 && (forall t :: !IsLocked(a.after, t)) &&
      "lastLogin" in a.after && a.after["lastLogin"] == Num(now)
  {
  }

  // ---- registration --------------------------------------------------------------

  const MissingFields: string := "Missing required fields!"
  const PasswordMissing: string := "Password is required!"
  const InvalidEmail: string := "Invalid email format!"
  /** The registration wording of the password policy ends with '!'. */
  const RegistrationPolicyError: string := "Password must be at least 8 characters with uppercase, lowercase, a number, and a special character!"
  const EmailInUse: string := "User with this email already exists!"
  const InvitationLifetime: int := 48 * 60 * 60 * 1000

  /** The refusals of `registerUser`, in the order it checks them; `emailTaken` is the
    * answer of the e-mail lookup, which comes after the format checks. */
  function RegistrationError(userData: Doc, adminCreated: bool, emailTaken: bool): Option<string>
  {
    if !FieldTruthy(userData, "email") || !FieldTruthy(userData, "firstName") || !FieldTruthy(userData, "lastName") then
      Some(MissingFields)
    else if !adminCreated && !FieldTruthy(userData, "password") then Some(PasswordMissing)
    else if !IsValidEmail(userData["email"]) then Some(InvalidEmail)
    else if FieldTruthy(userData, "password") && !IsValidPassword(JsString(userData["password"])) then
      Some(RegistrationPolicyError)
    else if emailTaken then Some(EmailInUse)
    else if FieldTruthy(userData, "password") && !userData["password"].Str? then Some(NotAString)
    else None
  }

  predicate IsSuperadmin(requester: Option<Doc>)
  {
    requester.Some? && "role" in requester.value && requester.value["role"] == Str("superadmin")
  }

  /** The requested role counts only when a superadmin registers the account. */
  function RequestedRole(userData: Doc, requester: Option<Doc>): Value
  {
    if FieldTruthy(userData, "role") && IsSuperadmin(requester) then userData["role"] else Str("user")
  }

  /** A field of the request copied into a nested object when it was sent at all. */
  function Present(d: Doc, k: string): seq<(string, Value)>
  {
    if k in d then [(k, d[k])] else []
  }

  /** The shape of a request that passed the registration checks. */
  predicate Buildable(userData: Doc)
  {
    "email" in userData && userData["email"].Str? && "firstName" in userData && "lastName" in userData &&
    (FieldTruthy(userData, "password") ==> userData["password"].Str?)
  }

  lemma AcceptedIsBuildable(userData: Doc, adminCreated: bool, emailTaken: bool)
    requires RegistrationError(userData, adminCreated, emailTaken).None?
    ensures Buildable(userData)
  {
  }

  /** The record `registerUser` hands to `save()`; `rawInvitation` is the fresh token
    * of an admin-created account. */
  function NewUserData(userData: Doc, requester: Option<Doc>, salt: string, rawInvitation: string,
                       derive: (string, string) -> string, sha: string -> string, now: int): Doc
    requires Buildable(userData)
  {
    var base := map[
      "email" := Str(ToLower(userData["email"].s)),
      "firstName" := userData["firstName"],
      "lastName" := userData["lastName"],
      "role" := RequestedRole(userData, requester),
      "metadata" := Obj(Present(userData, "registrationIp") + Present(userData, "userAgent"))];
    var withPassword :=
      if FieldTruthy(userData, "password") then base["password" := Str(HashPassword(userData["password"].s, salt, derive))]
      else base;
    if requester.Some? then
      withPassword["invitationToken" := Str(sha(rawInvitation))]["invitationTokenExpires" := Num(now + InvitationLifetime)]
    else withPassword
  }

  /** What `registerUser` returns: the public view of the saved record with the raw
    * invitation token, or null, under `invitationToken`. */
  function RegistrationResult(saved: Doc, requester: Option<Doc>, rawInvitation: string): Doc
  {
    SanitizeUserForPublic(saved)["invitationToken" := if requester.Some? then Str(rawInvitation) else Null]
  }

  /** The record built for a registration: the e-mail lower-cased, the role "user"
    * unless a superadmin asked for another, a password hash exactly when a password
    * was sent, invitation fields exactly for an admin-created account, and nothing
    * outside the declared and invitation paths. */
  lemma RegisteredRecord(userData: Doc, requester: Option<Doc>, salt: string, rawInvitation: string,
                         derive: (string, string) -> string, sha: string -> string, now: int)
    requires Buildable(userData)
    ensures var d := NewUserData(userData, requester, salt, rawInvitation, derive, sha, now);
      && d.Keys <= DeclaredPaths + InvitationPaths
      && "email" in d && d["email"].Str? && ToLower(d["email"].s) == d["email"].s
      && "role" in d && (d["role"] != Str("user") ==> IsSuperadmin(requester) && d["role"] == userData["role"])
      && ("password" in d <==> FieldTruthy(userData, "password"))
      && ("invitationToken" in d <==> requester.Some?)
      && (requester.Some? ==> d["invitationToken"] == Str(sha(rawInvitation)) && "invitationTokenExpires" in d &&
                              d["invitationTokenExpires"] == Num(now + InvitationLifetime))
  {
    var d := NewUserData(userData, requester, salt, rawInvitation, derive, sha, now);
    ToLowerIdempotent(userData["email"].s);
    assert d.Keys <= {"email", "firstName", "lastName", "role", "metadata", "password", "invitationToken", "invitationTokenExpires"};
  }

  /** The stored hash of a self-chosen password verifies that password. */
  lemma RegisteredPasswordVerifies(userData: Doc, requester: Option<Doc>, salt: string, rawInvitation: string,
                                   derive: (string, string) -> string, sha: string -> string, now: int)
    requires Buildable(userData)
    requires FieldTruthy(userData, "password") && ':' !in salt && ':' !in derive(userData["password"].s, salt)
    ensures var d := NewUserData(userData, requester, salt, rawInvitation, derive, sha, now);
      "password" in d && d["password"].Str? && VerifyPassword(userData["password"].s, d["password"].s, derive)
  {
    VerifyAcceptsOriginal(userData["password"].s, salt, derive);
  }

  /** Self-registration always needs a password; an admin-created account does not. */
  lemma PasswordMandatoryForSelfRegistration(userData: Doc, emailTaken: bool)
    requires FieldTruthy(userData, "email") && FieldTruthy(userData, "firstName") && FieldTruthy(userData, "lastName")
    requires !FieldTruthy(userData, "password")
    ensures RegistrationError(userData, false, emailTaken) == Some(PasswordMissing)
    ensures IsValidEmail(userData["email"]) && !emailTaken ==> RegistrationError(userData, true, emailTaken) == None
  {
  }

  // ---- profile and administrative updates ---------------------------------------

  const NoValidFields: string := "No valid fields to update!"
  const UpdateFailed: string := "Unable to update user!"
  const RoleChangeDenied: string := "Only superadmin can change user roles!"

  /** The fields a user may change on their own profile. */
  const ProfileFields: set<string> := {"firstName", "lastName", "avatar", "preferredTheme"}

  /** The entries of a request body whose key is allowed, a later entry for the same
    * key replacing an earlier one. */
  function PickAllowed(entries: seq<(string, Value)>, allowed: set<string>): Doc
  {
    if |entries| == 0 then map[]
    else
      var last := entries[|entries| - 1];
      var front := PickAllowed(entries[..|entries| - 1], allowed);
      if last.0 in allowed then front[last.0 := last.1] else front
  }

  /** The filtered body holds exactly the allowed keys the body sends, each with the
    * value the parsed body gives it. */
  lemma {:induction false} PickAllowedCharacterised(entries: seq<(string, Value)>, allowed: set<string>)
    ensures forall k :: k in PickAllowed(entries, allowed) <==> k in allowed && ObjGet(entries, k).Some?
    ensures forall k :: k in PickAllowed(entries, allowed) ==> PickAllowed(entries, allowed)[k] == ObjGet(entries, k).value
  {
    if |entries| > 0 {
      PickAllowedCharacterised(entries[..|entries| - 1], allowed);
    }
  }

  /** The fields an administrator may change; `role` joins them only when the request
    * names it. */
  function AdminFields(updateData: Doc): set<string>
  {
    {"firstName", "lastName", "email", "isActive"} + (if "role" in updateData then {"role"} else {})
  }

  function AdminPicked(updateData: Doc): (r: Doc)
    ensures forall k :: k in r <==> k in updateData && k in AdminFields(updateData)
    ensures forall k :: k in r ==> r[k] == updateData[k]
  {
    map k | k in updateData && k in AdminFields(updateData) :: updateData[k]
  }

  /** The field list `updateUserByAdmin` copies picks exactly the administrator's fields. */
  lemma AdminFieldsListed(updateData: Doc, fields: seq<string>)
    requires fields == ["firstName", "lastName", "email", "isActive"] + (if "role" in updateData then ["role"] else [])
    ensures (map k | k in fields && k in updateData :: updateData[k]) == AdminPicked(updateData)
  {
    forall k ensures k in fields <==> k in AdminFields(updateData) {
    }
  }

  /** A role change reaches the store only from a superadmin, and nothing outside
    * the administrator's fields ever does. */
  lemma AdminUpdateFiltered(updateData: Doc, requester: Option<Doc>)
    requires "role" in updateData ==> IsSuperadmin(requester)
    ensures AdminPicked(updateData).Keys <= DeclaredPaths
    ensures "password" !in AdminPicked(updateData) && "loginAttempts" !in AdminPicked(updateData)
    ensures "role" in AdminPicked(updateData) ==> IsSuperadmin(requester)
  {
  }

  // ---- the password flows ------------------------------------------------------------

  const PasswordsRequired: string := "Current password and new password are required."
  const UserNotFound: string := "User not found."
  const WrongCurrentPassword: string := "Current password is incorrect."
  const EmailRequired: string := "Email is required."
  const TokenAndPasswordRequired: string := "Token and new password are required."
  const InvalidResetToken: string := "Invalid or expired reset token."
  const InvalidInvitationToken: string := "Invalid or expired invitation token."
  const ResetCooldown: int := 5 * 60 * 1000
  const ResetLifetime: int := 24 * 60 * 60 * 1000

  const SearchTermTooShort: string := "Search term must be at least 2 characters!"

  const ResetPaths: set<string> := {"passwordResetToken", "passwordResetExpires", "lastPasswordResetRequest"}

  /** What a granted reset request writes: the token's hash, its expiry a day later,
    * and the time of the request. */
  function ResetRequest(rawToken: string, sha: string -> string, now: int): (d: Doc)
    ensures d.Keys == ResetPaths
  {
    map["passwordResetToken" := Str(sha(rawToken)), "passwordResetExpires" := Num(now + ResetLifetime),
        "lastPasswordResetRequest" := Num(now)]
  }

  /** A reset was requested less than five minutes ago. */
  predicate InCooldown(u: Doc, now: int)
  {
    "lastPasswordResetRequest" in u && u["lastPasswordResetRequest"].Num? &&
    now - u["lastPasswordResetRequest"].n < ResetCooldown
  }

  /** The refusals of `changePassword`, in the order it checks them, for the record
    * found under the id (with its password). */
  function ChangeError(current: Value, newPassword: Value, user: Option<Doc>, derive: (string, string) -> string): Option<string>
  {
    if !Truthy(current) || !Truthy(newPassword) then Some(PasswordsRequired)
    else if !IsValidPassword(JsString(newPassword)) then Some(PolicyError)
    else if user.None? then Some(UserNotFound)
    else if StoredPassword(user.value).None? then Some(NoStoredHash)
    else if !current.Str? then Some(NotAString)
    else if !VerifyPassword(current.s, StoredPassword(user.value).value, derive) then Some(WrongCurrentPassword)
    else if !newPassword.Str? then Some(NotAString)
    else None
  }

  /** The refusals of `resetPassword` and `setPasswordWithToken` before the lookup. */
  function TokenRequestError(token: Value, newPassword: Value): Option<string>
  {
    if !Truthy(token) || !Truthy(newPassword) then Some(TokenAndPasswordRequired)
    else if !IsValidPassword(JsString(newPassword)) then Some(PolicyError)
    else if !token.Str? then Some(NotAString)
    else None
  }

  /** The announcement of `changePassword`: both versions carry the redaction marker. */
  function PasswordChanged(id: Id, before: Doc): Event
  {
    Updated("User", id, Some(before["password" := Str(Redacted)]), before["password" := Str(Redacted)], Some(map["_id" := Num(id)]))
  }

  /** The announcement of the token flows: the record as looked up, and the same with
    * the password redacted. */
  function PasswordSetByToken(id: Id, before: Doc): Event
  {
    Updated("User", id, Some(before), before["password" := Str(Redacted)], None)
  }

  /** A changed password leaves no audit entry: both versions are the same. */
  lemma PasswordChangeNotAudited(id: Id, before: Doc, keys: seq<string>)
    requires KeyOrder(before["password" := Str(Redacted)], keys)
    ensures EntryFor(PasswordChanged(id, before), keys).None?
  {
    NoSelfChanges(before["password" := Str(Redacted)], keys);
  }

  /** Walking keys in which `k` occurs once, the only change between `d` and `d` with a
    * new value at `k` is that one. */
  lemma {:induction false} OnlyChange(d: Doc, k: string, v: Value, keys: seq<string>)
    requires forall i :: 0 <= i < |keys| ==> keys[i] in d[k := v]
    requires forall i, j :: 0 <= i < j < |keys| ==> keys[i] != keys[j]
    requires k !in ExcludedFields && Lookup(d, k) != Some(v)
    ensures ChangesOver(d, d[k := v], keys) == if k in keys then [Change(k, Lookup(d, k), v)] else []
  {
    if |keys| > 0 {
      var front := keys[..|keys| - 1];
      OnlyChange(d, k, v, front);
      assert keys == front + [keys[|keys| - 1]];
      if keys[|keys| - 1] == k {
        assert k !in front;
      }
    }
  }

  /** A password set through a reset or invitation token is audited with the stored
    * hash it replaced as the previous value. */
  lemma TokenPasswordAuditShowsOldHash(id: Id, before: Doc, keys: seq<string>)
    requires KeyOrder(before["password" := Str(Redacted)], keys)
    requires "password" in before && before["password"] != Str(Redacted)
    ensures EntryFor(PasswordSetByToken(id, before), keys).Some?
    ensures EntryFor(PasswordSetByToken(id, before), keys).value.changes == [Change("password", Some(before["password"]), Str(Redacted))]
  {
    OnlyChange(before, "password", Str(Redacted), keys);
  }

  /** A reset token issued now resolves, by its hash, for exactly one day. */
  lemma IssuedResetTokenLive(u: Doc, rawToken: string, sha: string -> string, now: int, t: int)
    ensures ResetTokenLive(Patched(u, ResetRequest(rawToken, sha, now), {}, now), sha(rawToken), t) <==> t < now + ResetLifetime
    ensures InCooldown(Patched(u, ResetRequest(rawToken, sha, now), {}, now), t) <==> t < now + ResetCooldown
  {
    var d := Patched(u, ResetRequest(rawToken, sha, now), {}, now);
    assert d["passwordResetToken"] == Str(sha(rawToken)) && d["passwordResetExpires"] == Num(now + ResetLifetime);
    assert d["lastPasswordResetRequest"] == Num(now);
  }

  /** A reset token works once: the reset removes it, so no token resolves to the
    * record afterwards. */
  lemma ResetTokenSingleUse(u: Doc, assign: Doc, now: int, hashed: string, t: int)
    ensures !ResetTokenLive(Patched(u, assign, ResetPaths, now), hashed, t)
  {
    assert "passwordResetExpires" !in Patched(u, assign, ResetPaths, now);
  }

  /** An invitation token works once in the same way. */
  lemma InvitationTokenSingleUse(u: Doc, assign: Doc, now: int, hashed: string, t: int)
    ensures !InvitationTokenLive(Patched(u, assign, InvitationPaths, now), hashed, t)
  {
    assert "invitationTokenExpires" !in Patched(u, assign, InvitationPaths, now);
  }

  /** The public view of each found user, in the order found. */
  function PublicViews(schema: UserSchema, found: seq<Doc>): (r: seq<Doc>)
    ensures |r| == |found|
    ensures forall i :: 0 <= i < |found| ==> r[i] == SanitizeUserForPublic(Selected(schema, found[i], {}))
  {
    seq(|found|, i requires 0 <= i < |found| => SanitizeUserForPublic(Selected(schema, found[i], {})))
  }

  /** When `found` holds exactly the hits among `users`, its views are exactly the hits' views. */
  lemma PublicViewsCover(schema: UserSchema, found: seq<Doc>, users: seq<Doc>, term: string)
    requires forall u :: u in found <==> u in users && SearchHit(u, term)
    ensures forall d :: d in PublicViews(schema, found) <==>
      exists u :: u in users && SearchHit(u, term) && d == SanitizeUserForPublic(Selected(schema, u, {}))
  {
    var r := PublicViews(schema, found);
    forall d | d in r
      ensures exists u :: u in users && SearchHit(u, term) && d == SanitizeUserForPublic(Selected(schema, u, {}))
    {
      var i :| 0 <= i < |found| && r[i] == d;
      assert found[i] in found;
    }
    forall u | u in users && SearchHit(u, term)
      ensures SanitizeUserForPublic(Selected(schema, u, {})) in r
    {
      var i :| 0 <= i < |found| && found[i] == u;
      assert r[i] == SanitizeUserForPublic(Selected(schema, u, {}));
    }
  }

  // ---- the invitation flow against the two schemas ------------------------------------

  /** As declared, the schema refuses every admin-created account without a password,
    * the very case the invitation flow exists for. */
  lemma AdminInviteNeedsPassword(userData: Doc, requester: Doc, salt: string, rawInvitation: string,
                                 derive: (string, string) -> string, sha: string -> string, key: string, id: Id, now: int)
    requires Buildable(userData) && !FieldTruthy(userData, "password")
    ensures Inserted(DeclaredSchema, NewUserData(userData, Some(requester), salt, rawInvitation, derive, sha, now), key, id, now)
      == Err(PasswordRequiredError)
  {
    var data := NewUserData(userData, Some(requester), salt, rawInvitation, derive, sha, now);
    RegisteredRecord(userData, Some(requester), salt, rawInvitation, derive, sha, now);
    InsertedNeedsPassword(DeclaredSchema, data, key, id, now);
  }

  /** As declared, strict mode drops the invitation token of an admin-created account
    * that did get saved, so the token never resolves. */
  lemma AdminInviteTokenDropped(userData: Doc, requester: Doc, salt: string, rawInvitation: string,
                                derive: (string, string) -> string, sha: string -> string, key: string, id: Id, now: int, t: int)
    requires Buildable(userData)
    ensures var saved := Inserted(DeclaredSchema, NewUserData(userData, Some(requester), salt, rawInvitation, derive, sha, now), key, id, now);
      saved.Ok? ==> !InvitationTokenLive(saved.value, sha(rawInvitation), t)
  {
    InvitationUndeclared();
    InsertedDrops(DeclaredSchema, NewUserData(userData, Some(requester), salt, rawInvitation, derive, sha, now), key, id, now, "invitationToken");
  }

  /** With the invitation paths declared and the password left optional, an
    * admin-created account without a password is saved, and its invitation token
    * resolves, by its hash, for exactly 48 hours. */
  lemma AdminInviteWithoutPassword(userData: Doc, requester: Doc, salt: string, rawInvitation: string,
                                   derive: (string, string) -> string, sha: string -> string, key: string, id: Id, now: int, t: int)
    requires Buildable(userData)
    ensures var saved := Inserted(InvitationSchema, NewUserData(userData, Some(requester), salt, rawInvitation, derive, sha, now), key, id, now);
      && saved.Ok?
      && (InvitationTokenLive(saved.value, sha(rawInvitation), t) <==> t < now + InvitationLifetime)
  {
    var data := NewUserData(userData, Some(requester), salt, rawInvitation, derive, sha, now);
    RegisteredRecord(userData, Some(requester), salt, rawInvitation, derive, sha, now);
    InsertedInvitationLive(data, key, id, now, sha(rawInvitation), now + InvitationLifetime, t);
  }

  // ---- the service --------------------------------------------------------------

  datatype LoginSuccess = LoginSuccess(token: string, user: Doc)

  class UserService {
    const model: UserModel
    const sessions: SessionService
    const emitter: Emitter
    const derive: (string, string) -> string
    const sha: string -> string

    ghost predicate Valid()
      reads model.users, sessions.sessions
    {
      model.Valid() && sessions.Valid() && sessions.sha == sha && model.users != sessions.sessions
    }

    constructor (model: UserModel, sessions: SessionService, emitter: Emitter,
                 derive: (string, string) -> string, sha: string -> string)
      ensures this.model == model && this.sessions == sessions && this.emitter == emitter
      ensures this.derive == derive && this.sha == sha
    {
      this.model := model;
      this.sessions := sessions;
      this.emitter := emitter;
      this.derive := derive;
      this.sha := sha;
    }

    /** The `$set: {lockUntil}` write of `lockAccount` on the record with that id. */
    method LockRecord(id: Id, until: int, now: int) returns (r: Doc)
      requires model.Valid() && id in model.users.records
      modifies model.users
      ensures model.Valid() && model.users.nextId == old(model.users.nextId)
      ensures r == LockedUntil(old(model.users.records)[id], until, now)
      ensures model.users.records == old(model.users.records)[id := r]
    {
      var assign := map["lockUntil" := Num(until)];
      StrictKeepsDeclared(model.schema, assign);
      var updated := model.UpdateById(id, assign, {}, now);
      r := updated.value;
    }

    /** The `$unset` write of `resetLoginAttempts` on the record with that id. */
    method UnlockRecord(id: Id, now: int) returns (r: Doc)
      requires model.Valid() && id in model.users.records
      modifies model.users
      ensures model.Valid() && model.users.nextId == old(model.users.nextId)
      ensures r == Unlocked(old(model.users.records)[id], now)
      ensures model.users.records == old(model.users.records)[id := r]
    {
      StrictKeepsDeclared(model.schema, map[]);
      var updated := model.UpdateById(id, map[], {"loginAttempts", "lockUntil"}, now);
      r := updated.value;
    }

    /** The `lastLogin` and `metadata.*` write of `loginUser` on the record with that id. */
    method StampRecord(id: Id, stamp: Doc, now: int) returns (r: Doc)
      requires model.Valid() && id in model.users.records
      requires stamp.Keys == {"lastLogin", "metadata"}
      modifies model.users
      ensures model.Valid() && model.users.nextId == old(model.users.nextId)
      ensures r == Patched(old(model.users.records)[id], stamp, {}, now)
      ensures model.users.records == old(model.users.records)[id := r]
    {
      StrictKeepsDeclared(model.schema, stamp);
      var updated := model.UpdateById(id, stamp, {}, now);
      r := updated.value;
    }

    /** The writes of a successful login on the record with that id. */
    method StampLogin(id: Id, loginIp: Value, userAgent: Value, now: int) returns (r: Doc)
      requires model.Valid() && id in model.users.records
      modifies model.users
      ensures model.Valid() && model.users.nextId == old(model.users.nextId)
      ensures r == LoggedIn(old(model.users.records)[id], loginIp, userAgent, now)
      ensures model.users.records == old(model.users.records)[id := r]
    {
      ghost var before := model.users.records;
      var reset := UnlockRecord(id, now);
      r := StampRecord(id, LoginStamp(reset, loginIp, userAgent, now), now);
      LoginIsTwoWrites(before[id], reset, r, loginIp, userAgent, now);
      Overwrite(before, id, reset, r);
    }

    /** The writes after a wrong password: one more attempt counted, then the lock
      * when the counter read before stood at four or more. */
    method FailRecord(u: Doc, now: int) returns (error: Option<string>)
      requires model.Valid() && u in model.users.Documents()
      modifies model.users
      ensures model.Valid() && model.users.nextId == old(model.users.nextId)
      ensures "_id" in u && u["_id"].Num? && u["_id"].n >= 0
      ensures error == Some(if LoginAttempts(u) >= 4 then LockedNow else InvalidCredentials)
      ensures model.users.records == old(model.users.records)[u["_id"].n :=
        AfterWrongPassword(u, now)]
    {
      ghost var before := model.users.records;
      var counted := model.IncrementRecord(u, now);
      if LoginAttempts(u) >= 4 {
        var locked := LockRecord(u["_id"].n, now + DefaultLockDuration, now);
        Overwrite(before, u["_id"].n, counted, locked);
        return Some(LockedNow);
      }
      error := Some(InvalidCredentials);
    }

    /** The checks and writes of `loginUser` on the record found by e-mail. */
    method RecordAttempt(u: Doc, password: Value, loginIp: Value, userAgent: Value, now: int) returns (error: Option<string>)
      requires model.Valid() && u in model.users.Documents()
      modifies model.users
      ensures model.Valid() && model.users.nextId == old(model.users.nextId)
      ensures "_id" in u && u["_id"].Num? && u["_id"].n >= 0
      ensures error == LoginAttempt(u, password, derive, loginIp, userAgent, now).error
      ensures model.users.records == old(model.users.records)[u["_id"].n := LoginAttempt(u, password, derive, loginIp, userAgent, now).after]
    {
      DocumentHasId(model.users, u);
      var id: Id := u["_id"].n;
      assert model.users.records[id := u] == model.users.records;
      if IsLocked(u, now) {
        return Some(TemporarilyLocked);
      }
      if !IsActive(u) {
        return Some(Deactivated);
      }
      var stored := StoredPassword(u);
      if stored.None? {
        return Some(NoStoredHash);
      }
      if !password.Str? {
        return Some(NotAString);
      }
      if !VerifyPassword(password.s, stored.value, derive) {
        error := FailRecord(u, now);
        return;
      }
      var stamped := StampLogin(id, loginIp, userAgent, now);
      error := None;
    }

    /** `loginUser({email, password, loginIp, userAgent})`; `token` is the fresh
      * random token. */
    method LoginUser(email: Value, password: Value, loginIp: Value, userAgent: Value, token: string, now: int)
      returns (r: Result<LoginSuccess>)
      requires Valid() && token != ""
      modifies model.users, sessions.sessions
      ensures Valid()
      ensures !(Truthy(email) && Truthy(password) && email.Str? && old(model.ByEmail(email.s)).Some?) ==>
        model.users.records == old(model.users.records) && sessions.sessions.records == old(sessions.sessions.records)
      ensures !Truthy(email) || !Truthy(password) ==> r == Err(MissingCredentials)
      ensures Truthy(email) && Truthy(password) && !email.Str? ==> r == Err(NotAString)
      ensures Truthy(email) && Truthy(password) && email.Str? && old(model.ByEmail(email.s)).None? ==>
        r == Err(InvalidCredentials)
      ensures Truthy(email) && Truthy(password) && email.Str? && old(model.ByEmail(email.s)).Some? ==>
        var u := old(model.ByEmail(email.s)).value;
        var a := LoginAttempt(u, password, derive, loginIp, userAgent, now);
        && model.users.records == old(model.users.records)[u["_id"].n := a.after]
        && (a.error.Some? ==> r == Err(a.error.value) && sessions.sessions.records == old(sessions.sessions.records))
        && (a.error.None? ==>
              && r == Ok(LoginSuccess(token, SanitizeUserForPublic(Selected(model.schema, a.after, {}))))
              && sessions.sessions.records ==
                   WithoutUser(old(sessions.sessions.records), u["_id"].n)[old(sessions.sessions.nextId) := UserSession(token, u["_id"].n, sha, old(sessions.sessions.nextId), now)])
    {
      if !Truthy(email) || !Truthy(password) {
        return Err(MissingCredentials);
      }
      if !email.Str? {
        return Err(NotAString);
      }
      var found := model.ByEmail(email.s);
      if found.None? {
        return Err(InvalidCredentials);
      }
      var u := found.value;
      var error := RecordAttempt(u, password, loginIp, userAgent, now);
      if error.Some? {
        return Err(error.value);
      }
      var id: Id := u["_id"].n;
      var session := sessions.CreateUserSession(token, id, now);
      r := Ok(LoginSuccess(token, SanitizeUserForPublic(Selected(model.schema, model.users.records[id], {}))));
    }

    /** Whether an account already holds the e-mail of the request. */
    predicate EmailTaken(userData: Doc)
      reads model.users
    {
      "email" in userData && userData["email"].Str? && model.ByEmail(userData["email"].s).Some?
    }

    /** The checks `registerUser` makes before it builds the record, in order. */
    method CheckRegistration(userData: Doc, adminCreated: bool) returns (error: Option<string>)
      ensures error == RegistrationError(userData, adminCreated, EmailTaken(userData))
    {
      if !FieldTruthy(userData, "email") || !FieldTruthy(userData, "firstName") || !FieldTruthy(userData, "lastName") {
        return Some(MissingFields);
      }
      if !adminCreated && !FieldTruthy(userData, "password") {
        return Some(PasswordMissing);
      }
      if !IsValidEmail(userData["email"]) {
        return Some(InvalidEmail);
      }
      if FieldTruthy(userData, "password") && !IsValidPassword(JsString(userData["password"])) {
        return Some(RegistrationPolicyError);
      }
      if model.ByEmail(userData["email"].s).Some? {
        return Some(EmailInUse);
      }
      if FieldTruthy(userData, "password") && !userData["password"].Str? {
        return Some(NotAString);
      }
      error := None;
    }

    /** `registerUser(userData, requestingUser)`; `key` is the fresh UUID, `salt` the
      * fresh salt and `rawInvitation` the fresh invitation token. */
    method RegisterUser(userData: Doc, requester: Option<Doc>, key: string, salt: string, rawInvitation: string, now: int)
      returns (r: Result<Doc>)
      requires Valid()
      modifies model.users, emitter
      ensures Valid()
      ensures RegistrationError(userData, requester.Some?, old(EmailTaken(userData))).Some? ==>
        && r == Err(RegistrationError(userData, requester.Some?, old(EmailTaken(userData))).value)
        && model.users.records == old(model.users.records) && emitter.events == old(emitter.events)
      ensures RegistrationError(userData, requester.Some?, old(EmailTaken(userData))).None? ==>
        Buildable(userData) &&
        var saved := Inserted(model.schema, NewUserData(userData, requester, salt, rawInvitation, derive, sha, now),
                              key, old(model.users.nextId), now);
        && (saved.Err? ==>
              r == Err(saved.msg) && model.users.records == old(model.users.records) && emitter.events == old(emitter.events))
        && (saved.Ok? ==>
              && r == Ok(RegistrationResult(saved.value, requester, rawInvitation))
              && model.users.records == old(model.users.records)[old(model.users.nextId) := saved.value]
              && emitter.events == old(emitter.events) + [Created("User", saved.value, requester)])
    {
      var error := CheckRegistration(userData, requester.Some?);
      if error.Some? {
        return Err(error.value);
      }
      AcceptedIsBuildable(userData, requester.Some?, false);
      var data := NewUserData(userData, requester, salt, rawInvitation, derive, sha, now);
      r := SaveRegistration(data, requester, key, rawInvitation, now);
    }

    /** The save, the announcement and the answer of `registerUser` for a built record. */
    method SaveRegistration(data: Doc, requester: Option<Doc>, key: string, rawInvitation: string, now: int)
      returns (r: Result<Doc>)
      requires Valid()
      modifies model.users, emitter
      ensures Valid()
      ensures var saved := Inserted(model.schema, data, key, old(model.users.nextId), now);
        && (saved.Err? ==>
              r == Err(saved.msg) && model.users.records == old(model.users.records) && emitter.events == old(emitter.events))
        && (saved.Ok? ==>
              && r == Ok(RegistrationResult(saved.value, requester, rawInvitation))
              && model.users.records == old(model.users.records)[old(model.users.nextId) := saved.value]
              && emitter.events == old(emitter.events) + [Created("User", saved.value, requester)])
    {
      var inserted := model.Insert(data, key, now);
      if inserted.Err? {
        return Err(inserted.msg);
      }
      emitter.Emit(Created("User", inserted.value, requester));
      r := Ok(RegistrationResult(inserted.value, requester, rawInvitation));
    }

    /** The `$set` of an update on the record with that id, for fields the schema declares. */
    method SetFields(id: Id, assign: Doc, now: int) returns (r: Doc)
      requires model.Valid() && id in model.users.records && assign.Keys <= DeclaredPaths
      modifies model.users
      ensures model.Valid() && model.users.nextId == old(model.users.nextId)
      ensures r == Patched(old(model.users.records)[id], assign, {}, now)
      ensures model.users.records == old(model.users.records)[id := r]
    {
      StrictKeepsDeclared(model.schema, assign);
      var updated := model.UpdateById(id, assign, {}, now);
      r := updated.value;
    }

    /** `updateUser(id, userData, context)`; `entries` is the request body in its own order. */
    method UpdateUser(id: Id, entries: seq<(string, Value)>, actor: Option<Doc>, now: int) returns (r: Result<Doc>)
      requires Valid()
      modifies model.users, emitter
      ensures Valid() && model.users.nextId == old(model.users.nextId)
      ensures |PickAllowed(entries, ProfileFields)| == 0 || id !in old(model.users.records) ==>
        && r == Err(if |PickAllowed(entries, ProfileFields)| == 0 then NoValidFields else UpdateFailed)
        && model.users.records == old(model.users.records) && emitter.events == old(emitter.events)
      ensures |PickAllowed(entries, ProfileFields)| > 0 && id in old(model.users.records) ==>
        var after := Patched(old(model.users.records)[id], PickAllowed(entries, ProfileFields), {}, now);
        && model.users.records == old(model.users.records)[id := after]
        && r == Ok(SanitizeUserForPublic(Selected(model.schema, after, {})))
        && emitter.events == old(emitter.events) +
             [Updated("User", id, Some(Selected(model.schema, old(model.users.records)[id], {})), Selected(model.schema, after, {}), actor)]
    {
      var picked := PickProfileFields(entries);
      if |picked| == 0 {
        return Err(NoValidFields);
      }
      if id !in model.users.records {
        return Err(UpdateFailed);
      }
      PickAllowedCharacterised(entries, ProfileFields);
      r := ApplyProfileUpdate(id, picked, actor, now);
    }

    /** The copy loop of `updateUser`: the profile fields of the request, the last
      * occurrence of a repeated key winning. */
    static method PickProfileFields(entries: seq<(string, Value)>) returns (picked: Doc)
      ensures picked == PickAllowed(entries, ProfileFields)
    {
      picked := map[];
      var i := 0;
      while i < |entries|
        invariant 0 <= i <= |entries|
        invariant picked == PickAllowed(entries[..i], ProfileFields)
      {
        assert entries[..i + 1][..i] == entries[..i];
        if entries[i].0 in ProfileFields {
          picked := picked[entries[i].0 := entries[i].1];
        }
        i := i + 1;
      }
      assert entries[..|entries|] == entries;
    }

    /** The write and the change log entry of a profile update. */
    method ApplyProfileUpdate(id: Id, picked: Doc, actor: Option<Doc>, now: int) returns (r: Result<Doc>)
      requires Valid() && id in model.users.records && picked.Keys <= DeclaredPaths
      modifies model.users, emitter
      ensures Valid() && model.users.nextId == old(model.users.nextId)
      ensures var after := Patched(old(model.users.records)[id], picked, {}, now);
        && model.users.records == old(model.users.records)[id := after]
        && r == Ok(SanitizeUserForPublic(Selected(model.schema, after, {})))
        && emitter.events == old(emitter.events) +
             [Updated("User", id, Some(Selected(model.schema, old(model.users.records)[id], {})), Selected(model.schema, after, {}), actor)]
    {
      var before := Selected(model.schema, model.users.records[id], {});
      var after := SetFields(id, picked, now);
      emitter.Emit(Updated("User", id, Some(before), Selected(model.schema, after, {}), actor));
      r := Ok(SanitizeUserForPublic(Selected(model.schema, after, {})));
    }

    /** The copy loop of `updateUserByAdmin`: the listed fields the request has. */
    static method PickFields(updateData: Doc, fields: seq<string>) returns (filtered: Doc)
      ensures filtered == map k | k in fields && k in updateData :: updateData[k]
    {
      filtered := map[];
      for i := 0 to |fields|
        invariant filtered == map k | k in fields[..i] && k in updateData :: updateData[k]
      {
        assert fields[..i + 1] == fields[..i] + [fields[i]];
        if fields[i] in updateData {
          filtered := filtered[fields[i] := updateData[fields[i]]];
        }
      }
      assert fields[..|fields|] == fields;
    }

    /** `updateUserByAdmin(id, updateData, requestingUser)`. */
    method UpdateUserByAdmin(id: Id, updateData: Doc, requester: Option<Doc>, now: int) returns (r: Result<Doc>)
      requires Valid()
      modifies model.users, emitter
      ensures Valid() && model.users.nextId == old(model.users.nextId)
      ensures "role" in updateData && !IsSuperadmin(requester) ==>
        r == Err(RoleChangeDenied) && model.users.records == old(model.users.records) && emitter.events == old(emitter.events)
      ensures ("role" !in updateData || IsSuperadmin(requester)) && (|AdminPicked(updateData)| == 0 || id !in old(model.users.records)) ==>
        && r == Err(if |AdminPicked(updateData)| == 0 then NoValidFields else UpdateFailed)
        && model.users.records == old(model.users.records) && emitter.events == old(emitter.events)
      ensures ("role" !in updateData || IsSuperadmin(requester)) && |AdminPicked(updateData)| > 0 && id in old(model.users.records) ==>
        var after := Patched(old(model.users.records)[id], AdminPicked(updateData), {}, now);
        && model.users.records == old(model.users.records)[id := after]
        && r == Ok(Selected(model.schema, after, {}) - {"password"})
        && emitter.events == old(emitter.events) +
             [Updated("User", id, Some(Selected(model.schema, old(model.users.records)[id], {})), Selected(model.schema, after, {}), requester)]
    {
      var fields := ["firstName", "lastName", "email", "isActive"];
      if "role" in updateData {
        if !IsSuperadmin(requester) {
          return Err(RoleChangeDenied);
        }
        fields := fields + ["role"];
      }
      var filtered := PickFields(updateData, fields);
      AdminFieldsListed(updateData, fields);
      if |filtered| == 0 {
        return Err(NoValidFields);
      }
      if id !in model.users.records {
        return Err(UpdateFailed);
      }
      r := ApplyAdminUpdate(id, filtered, requester, now);
    }

    /** The write and the change log entry of a permitted administrator update. */
    method ApplyAdminUpdate(id: Id, filtered: Doc, requester: Option<Doc>, now: int) returns (r: Result<Doc>)
      requires Valid() && id in model.users.records && filtered.Keys <= DeclaredPaths
      modifies model.users, emitter
      ensures Valid() && model.users.nextId == old(model.users.nextId)
      ensures var after := Patched(old(model.users.records)[id], filtered, {}, now);
        && model.users.records == old(model.users.records)[id := after]
        && r == Ok(Selected(model.schema, after, {}) - {"password"})
        && emitter.events == old(emitter.events) +
             [Updated("User", id, Some(Selected(model.schema, old(model.users.records)[id], {})), Selected(model.schema, after, {}), requester)]
    {
      var before := Selected(model.schema, model.users.records[id], {});
      var after := SetFields(id, filtered, now);
      emitter.Emit(Updated("User", id, Some(before), Selected(model.schema, after, {}), requester));
      r := Ok(Selected(model.schema, after, {}) - {"password"});
    }

    /** `$set: {password}` with the `$unset` of a token flow, on the record with that id. */
    method StorePassword(id: Id, hashed: string, unset: set<string>, now: int) returns (r: Doc)
      requires model.Valid() && id in model.users.records
      modifies model.users
      ensures model.Valid() && model.users.nextId == old(model.users.nextId)
      ensures r == Patched(old(model.users.records)[id], map["password" := Str(hashed)], unset, now)
      ensures model.users.records == old(model.users.records)[id := r]
    {
      var assign := map["password" := Str(hashed)];
      StrictKeepsDeclared(model.schema, assign);
      var updated := model.UpdateById(id, assign, unset, now);
      r := updated.value;
    }

    /** `changePassword(userId, currentPassword, newPassword)`; `salt` is the fresh salt.
      * The sessions of the user are not touched. */
    method ChangePassword(userId: Id, current: Value, newPassword: Value, salt: string, now: int) returns (r: Result<()>)
      requires Valid()
      modifies model.users, emitter
      ensures Valid() && model.users.nextId == old(model.users.nextId)
      ensures var error := ChangeError(current, newPassword, old(model.users.FindById(userId)), derive);
        error.Some? ==> r == Err(error.value) && model.users.records == old(model.users.records) && emitter.events == old(emitter.events)
      ensures ChangeError(current, newPassword, old(model.users.FindById(userId)), derive).None? ==>
        var u := old(model.users.records)[userId];
        && r == Ok(())
        && model.users.records == old(model.users.records)[userId :=
             Patched(u, map["password" := Str(HashPassword(newPassword.s, salt, derive))], {}, now)]
        && emitter.events == old(emitter.events) + [PasswordChanged(userId, Selected(model.schema, u, {"password"}))]
    {
      if !Truthy(current) || !Truthy(newPassword) {
        return Err(PasswordsRequired);
      }
      if !IsValidPassword(JsString(newPassword)) {
        return Err(PolicyError);
      }
      var found := model.users.FindById(userId);
      if found.None? {
        return Err(UserNotFound);
      }
      var u := found.value;
      var stored := StoredPassword(u);
      if stored.None? {
        return Err(NoStoredHash);
      }
      if !current.Str? {
        return Err(NotAString);
      }
      if !VerifyPassword(current.s, stored.value, derive) {
        return Err(WrongCurrentPassword);
      }
      if !newPassword.Str? {
        return Err(NotAString);
      }
      StoreAndLog(userId, HashPassword(newPassword.s, salt, derive), {}, PasswordChanged(userId, Selected(model.schema, u, {"password"})), now);
      r := Ok(());
    }

    /** A password write on the record with that id, then its change log event. */
    method StoreAndLog(id: Id, hashed: string, unset: set<string>, event: Event, now: int)
      requires model.Valid() && id in model.users.records
      modifies model.users, emitter
      ensures model.Valid() && model.users.nextId == old(model.users.nextId)
      ensures model.users.records == old(model.users.records)[id :=
        Patched(old(model.users.records)[id], map["password" := Str(hashed)], unset, now)]
      ensures emitter.events == old(emitter.events) + [event]
    {
      var after := StorePassword(id, hashed, unset, now);
      emitter.Emit(event);
    }

    /** `generatePasswordResetToken(email)`; `rawToken` is the fresh random token, handed
      * back with the record as looked up when a reset is granted. */
    method GeneratePasswordResetToken(email: Value, rawToken: string, now: int) returns (r: Result<Option<(string, Doc)>>)
      requires Valid()
      modifies model.users
      ensures Valid() && model.users.nextId == old(model.users.nextId)
      ensures !Truthy(email) || !email.Str? ==>
        r == Err(if !Truthy(email) then EmailRequired else NotAString) && model.users.records == old(model.users.records)
      ensures Truthy(email) && email.Str? && (old(model.ByEmail(email.s)).None? || InCooldown(old(model.ByEmail(email.s)).value, now)) ==>
        r == Ok(None) && model.users.records == old(model.users.records)
      ensures Truthy(email) && email.Str? && old(model.ByEmail(email.s)).Some? && !InCooldown(old(model.ByEmail(email.s)).value, now) ==>
        var u := old(model.ByEmail(email.s)).value;
        && r == Ok(Some((rawToken, Selected(model.schema, u, {"lastPasswordResetRequest"}))))
        && model.users.records == old(model.users.records)[u["_id"].n := Patched(u, ResetRequest(rawToken, sha, now), {}, now)]
    {
      if !Truthy(email) {
        return Err(EmailRequired);
      }
      if !email.Str? {
        return Err(NotAString);
      }
      var found := model.ByEmail(email.s);
      if found.None? {
        return Ok(None);
      }
      var u := found.value;
      if InCooldown(u, now) {
        return Ok(None);
      }
      DocumentHasId(model.users, u);
      var after := SetFields(u["_id"].n, ResetRequest(rawToken, sha, now), now);
      r := Ok(Some((rawToken, Selected(model.schema, u, {"lastPasswordResetRequest"}))));
    }

    /** `resetPassword(token, newPassword)`: the password set, the reset fields removed,
      * and every session of the user ended. */
    method ResetPassword(token: Value, newPassword: Value, salt: string, now: int) returns (r: Result<()>)
      requires Valid()
      modifies model.users, sessions.sessions, emitter
      ensures Valid() && model.users.nextId == old(model.users.nextId)
      ensures TokenRequestError(token, newPassword).Some? ==>
        && r == Err(TokenRequestError(token, newPassword).value)
        && model.users.records == old(model.users.records) && sessions.sessions.records == old(sessions.sessions.records)
        && emitter.events == old(emitter.events)
      ensures TokenRequestError(token, newPassword).None? && (old(model.ByResetToken(sha(token.s), now)).None? || !newPassword.Str?) ==>
        && r == Err(if old(model.ByResetToken(sha(token.s), now)).None? then InvalidResetToken else NotAString)
        && model.users.records == old(model.users.records) && sessions.sessions.records == old(sessions.sessions.records)
        && emitter.events == old(emitter.events)
      ensures TokenRequestError(token, newPassword).None? && old(model.ByResetToken(sha(token.s), now)).Some? && newPassword.Str? ==>
        var u := old(model.ByResetToken(sha(token.s), now)).value;
        && "_id" in u && u["_id"].Num? && u["_id"].n >= 0
        && r == Ok(())
        && model.users.records == old(model.users.records)[u["_id"].n :=
             Patched(u, map["password" := Str(HashPassword(newPassword.s, salt, derive))], ResetPaths, now)]
        && sessions.sessions.records == WithoutUser(old(sessions.sessions.records), u["_id"].n)
        && emitter.events == old(emitter.events) +
             [PasswordSetByToken(u["_id"].n, Selected(model.schema, u, {"passwordResetToken", "passwordResetExpires", "password"}))]
    {
      var error := TokenRequestError(token, newPassword);
      if error.Some? {
        return Err(error.value);
      }
      var found := model.ByResetToken(sha(token.s), now);
      if found.None? {
        return Err(InvalidResetToken);
      }
      if !newPassword.Str? {
        return Err(NotAString);
      }
      var u := found.value;
      DocumentHasId(model.users, u);
      ApplyReset(u, HashPassword(newPassword.s, salt, derive), now);
      r := Ok(());
    }

    /** The writes of an accepted reset: the password, the sessions and the change log. */
    method ApplyReset(u: Doc, hashed: string, now: int)
      requires Valid() && "_id" in u && u["_id"].Num? && u["_id"].n >= 0
      requires u["_id"].n in model.users.records && model.users.records[u["_id"].n] == u
      modifies model.users, sessions.sessions, emitter
      ensures Valid() && model.users.nextId == old(model.users.nextId)
      ensures model.users.records == old(model.users.records)[u["_id"].n :=
        Patched(u, map["password" := Str(hashed)], ResetPaths, now)]
      ensures sessions.sessions.records == WithoutUser(old(sessions.sessions.records), u["_id"].n)
      ensures emitter.events == old(emitter.events) +
        [PasswordSetByToken(u["_id"].n, Selected(model.schema, u, {"passwordResetToken", "passwordResetExpires", "password"}))]
    {
      var id: Id := u["_id"].n;
      var before := Selected(model.schema, u, {"passwordResetToken", "passwordResetExpires", "password"});
      var after := StorePassword(id, hashed, ResetPaths, now);
      sessions.DestroyAllUserSessions(id);
      emitter.Emit(PasswordSetByToken(id, before));
    }

    /** `setPasswordWithToken(token, newPassword)`: the password set and the invitation
      * fields removed; sessions are not touched. */
    method SetPasswordWithToken(token: Value, newPassword: Value, salt: string, now: int) returns (r: Result<()>)
      requires Valid()
      modifies model.users, emitter
      ensures Valid() && model.users.nextId == old(model.users.nextId)
      ensures TokenRequestError(token, newPassword).Some? ==>
        && r == Err(TokenRequestError(token, newPassword).value)
        && model.users.records == old(model.users.records) && emitter.events == old(emitter.events)
      ensures TokenRequestError(token, newPassword).None? && (old(model.ByInvitationToken(sha(token.s), now)).None? || !newPassword.Str?) ==>
        && r == Err(if old(model.ByInvitationToken(sha(token.s), now)).None? then InvalidInvitationToken else NotAString)
        && model.users.records == old(model.users.records) && emitter.events == old(emitter.events)
      ensures TokenRequestError(token, newPassword).None? && old(model.ByInvitationToken(sha(token.s), now)).Some? && newPassword.Str? ==>
        var u := old(model.ByInvitationToken(sha(token.s), now)).value;
        && "_id" in u && u["_id"].Num? && u["_id"].n >= 0
        && r == Ok(())
        && model.users.records == old(model.users.records)[u["_id"].n :=
             Patched(u, map["password" := Str(HashPassword(newPassword.s, salt, derive))], InvitationPaths, now)]
        && emitter.events == old(emitter.events) +
             [PasswordSetByToken(u["_id"].n, Selected(model.schema, u, {"invitationToken", "invitationTokenExpires", "password"}))]
    {
      var error := TokenRequestError(token, newPassword);
      if error.Some? {
        return Err(error.value);
      }
      var found := model.ByInvitationToken(sha(token.s), now);
      if found.None? {
        return Err(InvalidInvitationToken);
      }
      if !newPassword.Str? {
        return Err(NotAString);
      }
      AcceptInvitation(found.value, HashPassword(newPassword.s, salt, derive), now);
      r := Ok(());
    }

    /** The write and the log entry once the invitation token has found `u`: the
      * password is set and the invitation fields are cleared. */
    method AcceptInvitation(u: Doc, hashed: string, now: int)
      requires Valid() && u in model.users.Documents()
      modifies model.users, emitter
      ensures Valid() && model.users.nextId == old(model.users.nextId)
      ensures "_id" in u && u["_id"].Num? && u["_id"].n >= 0
      ensures model.users.records == old(model.users.records)[u["_id"].n :=
        Patched(u, map["password" := Str(hashed)], InvitationPaths, now)]
      ensures emitter.events == old(emitter.events) +
        [PasswordSetByToken(u["_id"].n, Selected(model.schema, u, {"invitationToken", "invitationTokenExpires", "password"}))]
    {
      DocumentHasId(model.users, u);
      var id: Id := u["_id"].n;
      var before := Selected(model.schema, u, {"invitationToken", "invitationTokenExpires", "password"});
      StoreAndLog(id, hashed, InvitationPaths, PasswordSetByToken(id, before), now);
    }

    /** `searchUsers(searchTerm)`: the public view of every active user whose name or
      * e-mail contains the term; a term of fewer than two UTF-16 code units is refused. */
    method SearchUsers(term: string) returns (r: Result<seq<Doc>>)
      requires Valid()
      ensures JsLength(term) < 2 ==> r == Err(SearchTermTooShort)
      ensures JsLength(term) >= 2 ==> r.Ok?
      ensures r.Ok? ==> forall d :: d in r.value <==>
        exists u :: u in model.users.Documents() && SearchHit(u, term) && d == SanitizeUserForPublic(Selected(model.schema, u, {}))
    {
      if JsLength(term) < 2 {
        return Err(SearchTermTooShort);
      }
      var found := model.SearchUsers(term);
      r := Ok(PublicViews(model.schema, found));
      PublicViewsCover(model.schema, found, model.users.Documents(), term);
    }
  }
}
