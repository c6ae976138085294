// The validators and the session check of api/inc/helpers.js.  The e-mail and
// password regular expressions are written out as character predicates.

module ApiHelpers {
  import opened Wrappers
  import opened Strings
  import opened Values
  import opened Credentials
  import opened Store
  import opened AuthSessions

  // ---- sanitizeUserForPublic ---------------------------------------------------

  const PrivateUserFields: set<string> := {"password", "loginAttempts", "lockUntil", "metadata"}

  function SanitizeUserForPublic(user: Doc): (r: Doc)
    ensures forall k :: k in r <==> k in user && k !in PrivateUserFields
    ensures forall k :: k in r ==> r[k] == user[k]
  {
    user - PrivateUserFields
  }

  /** Sanitizing twice is sanitizing once, and a sanitized record has no secret. */
  lemma SanitizeIdempotent(user: Doc)
    ensures SanitizeUserForPublic(SanitizeUserForPublic(user)) == SanitizeUserForPublic(user)
    ensures "password" !in SanitizeUserForPublic(user) && "lockUntil" !in SanitizeUserForPublic(user)
  {
  }

  // ---- isValidEmail ------------------------------------------------------------

  /** `[a-zA-Z0-9]([<inner>]*[a-zA-Z0-9])?`: alphanumeric ends, `inner` in between. */
  predicate Segment(p: string, inner: string)
  {
    |p| >= 1 && IsAlnum(p[0]) && IsAlnum(p[|p| - 1]) &&
    forall j :: 0 <= j < |p| ==> IsAlnum(p[j]) || p[j] in inner
  }

  /** `<label>\.[a-zA-Z]{2,}` for the part after the `@`. */
  predicate DomainPart(d: string)
  {
    exists j :: 0 <= j < |d| - 2 && d[j] == '.' && Segment(d[..j], ".-") &&
      forall k :: j < k < |d| ==> IsLetter(d[k])
  }

  predicate EmailShape(s: string)
  {
    exists i :: 0 <= i < |s| && s[i] == '@' && Segment(s[..i], "._+-") && DomainPart(s[i + 1..])
  }

  /** `isValidEmail`: a non-empty string without `..` that has the address shape. */
  predicate IsValidEmail(email: Value)
  {
    Truthy(email) && email.Str? && !Contains(email.s, "..") && EmailShape(email.s)
  }

  lemma SegmentHasNoAt(p: string, inner: string)
    requires Segment(p, inner) && '@' !in inner
    ensures forall k :: 0 <= k < |p| ==> p[k] != '@'
  {
  }

  lemma DomainHasNoAt(d: string)
    requires DomainPart(d)
    ensures forall k :: 0 <= k < |d| ==> d[k] != '@'
    ensures IsLetter(d[|d| - 1]) && IsLetter(d[|d| - 2])
  {
    var j :| 0 <= j < |d| - 2 && d[j] == '.' && Segment(d[..j], ".-") && forall k :: j < k < |d| ==> IsLetter(d[k]);
    SegmentHasNoAt(d[..j], ".-");
    forall k | 0 <= k < |d| ensures d[k] != '@' {
      if k < j { assert d[k] == d[..j][k]; }
    }
  }

  /** A valid address has exactly one `@`, starts with an alphanumeric and ends
    * with at least two letters. */
  lemma ValidEmailShape(s: string)
    requires IsValidEmail(Str(s))
    ensures exists i :: 0 <= i < |s| && s[i] == '@'
    ensures forall i, j :: 0 <= i < |s| && 0 <= j < |s| && s[i] == '@' && s[j] == '@' ==> i == j
    ensures IsAlnum(s[0]) && IsLetter(s[|s| - 1]) && IsLetter(s[|s| - 2])
  {
    var i :| 0 <= i < |s| && s[i] == '@' && Segment(s[..i], "._+-") && DomainPart(s[i + 1..]);
    var d := s[i + 1..];
    SegmentHasNoAt(s[..i], "._+-");
    DomainHasNoAt(d);
    assert s[0] == s[..i][0];
    assert s[|s| - 1] == d[|d| - 1] && s[|s| - 2] == d[|d| - 2];
    forall c | 0 <= c < |s| && c != i ensures s[c] != '@' {
      if c < i {
        assert s[c] == s[..i][c];
      } else {
        assert s[c] == d[c - i - 1];
      }
    }
  }

  // ---- isValidPassword ---------------------------------------------------------

  /** The punctuation the password character class admits besides letters and digits. */
  const PasswordSymbols: set<char> := {
    '@', '$', '!', '%', '*', '?', '&', '^', '#', '(', ')', '_', '+', '-', '=', '[', ']',
    '{', '}', ';', '\'', ':', '"', '\\', '|', ',', '.', '<', '>', '/', '~', '`'}

  predicate PasswordChar(c: char)
  {
    IsAlnum(c) || c in PasswordSymbols
  }

  /** `isValidPassword`: eight or more admitted characters, with a lower-case
    * letter, an upper-case letter, a digit and a non-alphanumeric character. */
  predicate IsValidPassword(p: string)
  {
    |p| >= 8 &&
    (forall i :: 0 <= i < |p| ==> PasswordChar(p[i])) &&
    (exists i :: 0 <= i < |p| && IsLower(p[i])) &&
    (exists i :: 0 <= i < |p| && IsUpper(p[i])) &&
    (exists i :: 0 <= i < |p| && IsDigit(p[i])) &&
    (exists i :: 0 <= i < |p| && !IsAlnum(p[i]))
  }

  /** The non-alphanumeric character a valid password needs is one of the listed
    * symbols; white space is never admitted. */
  lemma ValidPasswordSymbols(p: string)
    requires IsValidPassword(p)
    ensures exists i :: 0 <= i < |p| && p[i] in PasswordSymbols
    ensures forall i :: 0 <= i < |p| ==> !IsSpace(p[i])
  {
    var i :| 0 <= i < |p| && !IsAlnum(p[i]);
    assert PasswordChar(p[i]);
    forall j | 0 <= j < |p| ensures !IsSpace(p[j]) {
      PasswordCharNotSpace(p[j]);
    }
  }

  /** No admitted character is white space: every symbol lies above the space. */
  lemma PasswordCharNotSpace(c: char)
    requires PasswordChar(c)
    ensures !IsSpace(c)
  {
    if c in PasswordSymbols {
      assert '!' <= c;
    }
  }

  lemma SpaceNotAdmitted()
    ensures !PasswordChar(' ')
  {
  }

  // ---- validateAuth -----------------------------------------------------------

  datatype AuthCheck = NotAuthenticated | Authenticated(principal: Doc, scope: string)

  /** `validateAuth(token)`: the principal of the session stored under the token's
    * hash, with scope `all`. */
  function ValidateAuth(token: Value, sessions: seq<Doc>, users: map<Id, Doc>, sha: string -> string): (r: AuthCheck)
    ensures r.Authenticated? ==> r.scope == "all" && token.Str? && token.s != ""
  {
    if !Truthy(token) || !token.Str? then NotAuthenticated
    else
      var hashed := HashAuthToken(token, sha);
      if hashed.None? then NotAuthenticated
      else
        var principal := UserByToken(sessions, users, hashed.value);
        if principal.None? then NotAuthenticated else Authenticated(principal.value, "all")
  }

  /** A token authenticates exactly when a session is stored under its hash. */
  lemma ValidateAuthCharacterised(token: Value, sessions: seq<Doc>, users: map<Id, Doc>, sha: string -> string)
    requires forall s: Doc :: s in sessions && "token" in s ==> s["token"].Str?
    ensures ValidateAuth(token, sessions, users, sha).Authenticated? <==>
      token.Str? && token.s != "" &&
      exists s :: s in sessions && "token" in s && s["token"] == Str(sha(token.s))
  {
    if token.Str? && token.s != "" {
      UserByTokenFound(sessions, users, sha(token.s));
    }
  }
}
