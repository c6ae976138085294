// Password storage and token hashing (api/inc/helpers.js).  The key-derivation
// function (PBKDF2-SHA512) and SHA-256 are not modelled: they are parameters,
// and the only thing the model uses about them is that they are functions.
// Random salts and tokens are parameters too.

module Credentials {
  import opened Wrappers
  import opened Strings
  import opened Values

  /** `hashPassword`: the salt, a colon, and the derived key. */
  function HashPassword(password: string, salt: string, derive: (string, string) -> string): string
  {
    salt + ":" + derive(password, salt)
  }

  /** `verifyPassword`: split the stored value at its colons and compare the
    * second piece with the key derived from the candidate and the first piece. */
  function VerifyPassword(password: string, stored: string, derive: (string, string) -> string): bool
  {
    var parts := Split(stored, ':');
    |parts| >= 2 && parts[1] == derive(password, parts[0])
  }

  /** A stored hash accepts exactly the passwords whose derived key equals the
    * original's (for a hex salt and a hex derived key, neither holding a colon). */
  lemma VerifyHashRoundTrip(original: string, candidate: string, salt: string, derive: (string, string) -> string)
    requires ':' !in salt && ':' !in derive(original, salt)
    ensures VerifyPassword(candidate, HashPassword(original, salt, derive), derive) <==>
      derive(candidate, salt) == derive(original, salt)
  {
    SplitAfterPiece(salt, ':', derive(original, salt));
    SplitNoSeparator(derive(original, salt), ':');
    assert salt + ":" + derive(original, salt) == salt + [':'] + derive(original, salt);
  }

  lemma VerifyAcceptsOriginal(password: string, salt: string, derive: (string, string) -> string)
    requires ':' !in salt && ':' !in derive(password, salt)
    ensures VerifyPassword(password, HashPassword(password, salt, derive), derive)
  {
    VerifyHashRoundTrip(password, password, salt, derive);
  }

  /** A stored value without a colon matches no password at all. */
  lemma VerifyNeedsColon(password: string, stored: string, derive: (string, string) -> string)
    requires ':' !in stored
    ensures !VerifyPassword(password, stored, derive)
  {
    SplitNoSeparator(stored, ':');
  }

  /** `hashAuthToken`: SHA-256 of a non-empty string token, null otherwise. */
  function HashAuthToken(token: Value, sha: string -> string): (r: Option<string>)
    ensures r.Some? <==> token.Str? && token.s != ""
    ensures r.Some? ==> r.value == sha(token.s)
  {
    if !Truthy(token) || !token.Str? then None else Some(sha(token.s))
  }
}
