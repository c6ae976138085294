// The two password forms of the frontend and how their checks relate to the
// server's password policy: the set-password page reached from an invitation
// (frontend/src/Pages/SetPassword.jsx) and the profile page with its name form
// and change-password form (frontend/src/Pages/Profile.jsx).

module PasswordForms {
  import opened Wrappers
  import opened Strings
  import opened Values
  import ApiHelpers

  predicate HasUpper(p: string) { exists i :: 0 <= i < |p| && IsUpper(p[i]) }
  predicate HasLower(p: string) { exists i :: 0 <= i < |p| && IsLower(p[i]) }
  predicate HasDigit(p: string) { exists i :: 0 <= i < |p| && IsDigit(p[i]) }
  /** `/[^A-Za-z0-9]/`: any character but a letter or digit, white space included. */
  predicate HasOther(p: string) { exists i :: 0 <= i < |p| && !IsAlnum(p[i]) }

  predicate AllSpace(s: string) { forall i :: 0 <= i < |s| ==> IsSpace(s[i]) }

  /** `!s.trim()`: the text is empty or white space only. */
  lemma TrimBlank(s: string)
    ensures Trim(s) == [] <==> AllSpace(s)
  {
    var t := TrimStart(s);
    if t != [] {
      assert !IsSpace(t[0]);
      assert t[0] == s[|s| - |t|];
    }
  }

  // ---- the set-password page --------------------------------------------------------------

  const PasswordRequired := "Password is required."
  const PasswordTooShort := "Password must be at least 8 characters."
  const PasswordClasses := "Password must contain uppercase, lowercase, a number, and a special character."
  const PasswordsDiffer := "Passwords do not match."

  /** The page's message for the password field, if any: the first rule broken. */
  function PasswordError(password: string): (r: Option<string>)
    ensures r.None? <==> (Trim(password) != [] && JsLength(password) >= 8 &&
      HasUpper(password) && HasLower(password) && HasDigit(password) && HasOther(password))
  {
    if Trim(password) == [] then Some(PasswordRequired)
    else if JsLength(password) < 8 then Some(PasswordTooShort)
    else if !HasUpper(password) || !HasLower(password) || !HasDigit(password) || !HasOther(password) then
      Some(PasswordClasses)
    else None
  }

  /** `validate()`: the error map, one entry per field in error. */
  function Validate(password: string, confirmPassword: string): (errors: map<string, string>)
    ensures "password" in errors <==> PasswordError(password).Some?
    ensures "password" in errors ==> errors["password"] == PasswordError(password).value
    ensures "confirmPassword" in errors <==> password != confirmPassword
    ensures "confirmPassword" in errors ==> errors["confirmPassword"] == PasswordsDiffer
    ensures errors.Keys <= {"password", "confirmPassword"}
  {
    var p := if PasswordError(password).Some? then map["password" := PasswordError(password).value] else map[];
    if password != confirmPassword then p["confirmPassword" := PasswordsDiffer] else p
  }

  /** The form is sent exactly when the password has some non-blank text, eight or
    * more characters, all four character classes, and equals its confirmation. */
  lemma SetPasswordAccepts(password: string, confirmPassword: string)
    ensures |Validate(password, confirmPassword)| == 0 <==>
      !AllSpace(password) && JsLength(password) >= 8 && HasUpper(password) && HasLower(password) &&
      HasDigit(password) && HasOther(password) && password == confirmPassword
  {
    TrimBlank(password);
    var e := Validate(password, confirmPassword);
    if |e| == 0 {
      assert "password" !in e && "confirmPassword" !in e;
    } else {
      var k :| k in e;
    }
  }

  /** The messages in the order the page checks them: blank text first, then the
    * length, then the character classes. */
  lemma PasswordErrorOrder(password: string)
    ensures AllSpace(password) ==> PasswordError(password) == Some(PasswordRequired)
    ensures !AllSpace(password) && JsLength(password) < 8 ==> PasswordError(password) == Some(PasswordTooShort)
    ensures (!AllSpace(password) && JsLength(password) >= 8 &&
             !(HasUpper(password) && HasLower(password) && HasDigit(password) && HasOther(password))) ==>
      PasswordError(password) == Some(PasswordClasses)
  {
    TrimBlank(password);
  }

  /** The server admits only ASCII characters, so its length and the page's agree. */
  lemma ServerPasswordUnits(password: string)
    requires ApiHelpers.IsValidPassword(password)
    ensures JsLength(password) == |password|
  {
    forall i | 0 <= i < |password| ensures password[i] as int <= 0xFFFF {
      assert ApiHelpers.PasswordChar(password[i]);
    }
    JsLengthBmp(password);
  }

  /** Three emoji and four ASCII characters make ten code units: the page accepts
    * the password although it has only seven characters. */
  lemma EmojiPasswordExample()
    ensures |Validate("\U{1F600}\U{1F600}\U{1F600}Ab1!", "\U{1F600}\U{1F600}\U{1F600}Ab1!")| == 0
  {
    var p := "\U{1F600}\U{1F600}\U{1F600}Ab1!";
    assert |p| == 7 && JsLength(p) == 10;
    assert IsUpper(p[3]) && IsLower(p[4]) && IsDigit(p[5]) && !IsAlnum(p[6]) && !IsSpace(p[0]);
    TrimBlank(p);
    SetPasswordAccepts(p, p);
  }

  /** Every password the server's policy admits passes the page when confirmed. */
  lemma ServerValidPassesSetPassword(password: string)
    requires ApiHelpers.IsValidPassword(password)
    ensures |Validate(password, password)| == 0
  {
    ServerPasswordUnits(password);
    ApiHelpers.ValidPasswordSymbols(password);
    SetPasswordAccepts(password, password);
  }

  /** The page counts a space as the special character, which the server's policy
    * does not admit: such a password passes the page and is refused by the server. */
  lemma SpaceSatisfiesPageOnly(password: string)
    requires PasswordError(password).None?
    requires exists i :: 0 <= i < |password| && password[i] == ' '
    ensures !ApiHelpers.IsValidPassword(password)
  {
    var i :| 0 <= i < |password| && password[i] == ' ';
    ApiHelpers.SpaceNotAdmitted();
  }

  lemma SpaceExample()
    ensures |Validate("Abcdefg1 ", "Abcdefg1 ")| == 0 && !ApiHelpers.IsValidPassword("Abcdefg1 ")
  {
    var p := "Abcdefg1 ";
    assert IsUpper(p[0]) && IsLower(p[1]) && IsDigit(p[7]) && !IsAlnum(p[8]) && !IsSpace(p[0]);
    SetPasswordAccepts(p, p);
    assert PasswordError(p).None? by {
      TrimBlank(p);
    }
    SpaceSatisfiesPageOnly(p);
  }

  // ---- the profile page ---------------------------------------------------------------------

  const NamesRequired := "First name and last name are required."

  /** `handleSave()` up to the request: both names must have non-blank text, and
    * the trimmed names are sent. */
  function ProfileUpdate(firstName: string, lastName: string): (r: Result<(string, string)>)
    ensures r.Err? <==> AllSpace(firstName) || AllSpace(lastName)
    ensures r.Err? ==> r.msg == NamesRequired
    ensures r.Ok? ==> r.value.0 != [] && r.value.1 != [] && r.value.0 == Trim(r.value.0) && r.value.1 == Trim(r.value.1)
  {
    TrimBlank(firstName);
    TrimBlank(lastName);
    if Trim(firstName) == [] || Trim(lastName) == [] then Err(NamesRequired)
    else
      TrimOfTrimmed(firstName);
      TrimOfTrimmed(lastName);
      Ok((Trim(firstName), Trim(lastName)))
  }

  /** Trimming twice changes nothing. */
  lemma TrimOfTrimmed(s: string)
    ensures Trim(Trim(s)) == Trim(s)
  {
    var t := Trim(s);
    if t != [] {
      assert TrimStart(t) == t;
      assert TrimEnd(t) == t;
    }
  }

  /** `result?.message && !result?._id`: an answer without an id that carries a
    * message is a failure. */
  predicate ProfileSaveFailed(result: Value)
  {
    result.Obj? && (var m := ObjGet(result.entries, "message"); m.Some? && Truthy(m.value)) &&
    !(var id := ObjGet(result.entries, "_id"); id.Some? && Truthy(id.value))
  }

  const FieldsRequired := "All password fields are required."
  const ConfirmationDiffers := "New password and confirmation do not match."
  const PolicyMessage := "Password must be at least 8 characters with uppercase, lowercase, and number."

  /** A line terminator, which `.` in a JavaScript regular expression does not match. */
  predicate IsLineTerminator(c: char)
  {
    c == '\n' || c == '\r' || c == '\U{2028}' || c == '\U{2029}'
  }

  /** `/^(?=.*[a-z])(?=.*[A-Z])(?=.*[0-9]).{8,}$/`; without the `u` flag each `.`
    * matches one UTF-16 code unit, so the eight are counted in code units. */
  predicate ProfilePolicy(p: string)
  {
    JsLength(p) >= 8 && (forall i :: 0 <= i < |p| ==> !IsLineTerminator(p[i])) && HasLower(p) && HasUpper(p) && HasDigit(p)
  }

  /** `handleChangePassword()` up to the request: the three checks in order. */
  function PasswordChange(currentPassword: string, newPassword: string, confirmPassword: string): (r: Result<(string, string)>)
    ensures r.Ok? <==> currentPassword != "" && newPassword != "" && newPassword == confirmPassword && ProfilePolicy(newPassword)
    ensures r.Ok? ==> r.value == (currentPassword, newPassword)
  {
    if currentPassword == "" || newPassword == "" || confirmPassword == "" then Err(FieldsRequired)
    else if newPassword != confirmPassword then Err(ConfirmationDiffers)
    else if !ProfilePolicy(newPassword) then Err(PolicyMessage)
    else Ok((currentPassword, newPassword))
  }

  /** The messages in the order the form checks them. */
  lemma PasswordChangeOrder(currentPassword: string, newPassword: string, confirmPassword: string)
    ensures currentPassword == "" || newPassword == "" || confirmPassword == "" ==>
      PasswordChange(currentPassword, newPassword, confirmPassword) == Err(FieldsRequired)
    ensures currentPassword != "" && newPassword != "" && confirmPassword != "" && newPassword != confirmPassword ==>
      PasswordChange(currentPassword, newPassword, confirmPassword) == Err(ConfirmationDiffers)
    ensures currentPassword != "" && newPassword != "" && newPassword == confirmPassword && !ProfilePolicy(newPassword) ==>
      PasswordChange(currentPassword, newPassword, confirmPassword) == Err(PolicyMessage)
  {
  }

  /** Every password the server's policy admits passes the profile form. */
  lemma ServerValidPassesProfile(currentPassword: string, newPassword: string)
    requires currentPassword != ""
    requires ApiHelpers.IsValidPassword(newPassword)
    ensures PasswordChange(currentPassword, newPassword, newPassword).Ok?
  {
    ServerPasswordUnits(newPassword);
    forall i | 0 <= i < |newPassword| ensures !IsLineTerminator(newPassword[i]) {
      assert ApiHelpers.PasswordChar(newPassword[i]);
    }
  }

  /** The profile form needs no special character, so it sends passwords the
    * server's policy refuses. */
  lemma ProfileLooserThanServer(currentPassword: string, newPassword: string)
    requires currentPassword != ""
    requires ProfilePolicy(newPassword)
    requires forall i :: 0 <= i < |newPassword| ==> IsAlnum(newPassword[i])
    ensures PasswordChange(currentPassword, newPassword, newPassword).Ok?
    ensures !ApiHelpers.IsValidPassword(newPassword)
  {
  }

  lemma ProfileExample()
    ensures PasswordChange("old", "Abcdefg1", "Abcdefg1").Ok? && !ApiHelpers.IsValidPassword("Abcdefg1")
  {
    var p := "Abcdefg1";
    assert IsUpper(p[0]) && IsLower(p[1]) && IsDigit(p[7]);
    assert forall i :: 0 <= i < |p| ==> IsAlnum(p[i]);
    ProfileLooserThanServer("old", p);
  }

  /** What a request of the profile page gives back: a throw or an answer. */
  datatype Outcome = Threw(errorMessage: Option<Value>) | Answered(result: Value)

  /** A message shown to the user and whether it reports success. */
  datatype Toast = Toast(text: Value, success: bool)

  function Prop(v: Value, k: string): Option<Value>
  {
    if v.Obj? then ObjGet(v.entries, k) else None
  }

  /** The profile page's form state. */
  class ProfilePage {
    var user: Value
    var firstName: string
    var lastName: string
    var currentPassword: string
    var newPassword: string
    var confirmPassword: string

    constructor(user: Value, firstName: string, lastName: string)
      ensures this.user == user && this.firstName == firstName && this.lastName == lastName
      ensures currentPassword == "" && newPassword == "" && confirmPassword == ""
    {
      this.user := user;
      this.firstName := firstName;
      this.lastName := lastName;
      currentPassword := "";
      newPassword := "";
      confirmPassword := "";
    }

    /** `handleSave()`: returns the names sent, if any, and the message shown; a
      * successful answer becomes the signed-in user. */
    method Save(outcome: Outcome) returns (sent: Option<(string, string)>, toast: Toast)
      modifies this
      ensures firstName == old(firstName) && lastName == old(lastName)
      ensures currentPassword == old(currentPassword) && newPassword == old(newPassword)
      ensures confirmPassword == old(confirmPassword)
      ensures sent.None? <==> ProfileUpdate(firstName, lastName).Err?
      ensures sent.Some? ==> sent.value == ProfileUpdate(firstName, lastName).value
      ensures sent.None? ==> toast == Toast(Str(NamesRequired), false) && user == old(user)
      ensures sent.Some? && outcome.Threw? ==> toast == Toast(Str("Failed to update profile."), false) && user == old(user)
      ensures sent.Some? && outcome.Answered? && ProfileSaveFailed(outcome.result) ==>
        !toast.success && user == old(user)
      ensures sent.Some? && outcome.Answered? && !ProfileSaveFailed(outcome.result) ==>
        toast == Toast(Str("Profile updated successfully."), true) && user == outcome.result
    {
      var update := ProfileUpdate(firstName, lastName);
      if update.Err? {
        return None, Toast(Str(update.msg), false);
      }
      sent := Some(update.value);
      toast := ProfileAnswered(outcome);
    }

    /** The part of `handleSaveProfile()` after the request: the message shown, and
      * the user replaced only by a successful answer. */
    method ProfileAnswered(outcome: Outcome) returns (toast: Toast)
      modifies this
      ensures firstName == old(firstName) && lastName == old(lastName)
      ensures currentPassword == old(currentPassword) && newPassword == old(newPassword)
      ensures confirmPassword == old(confirmPassword)
      ensures outcome.Threw? ==> toast == Toast(Str("Failed to update profile."), false) && user == old(user)
      ensures outcome.Answered? && ProfileSaveFailed(outcome.result) ==> !toast.success && user == old(user)
      ensures outcome.Answered? && !ProfileSaveFailed(outcome.result) ==>
        toast == Toast(Str("Profile updated successfully."), true) && user == outcome.result
    {
      match outcome {
        case Threw(_) =>
          toast := Toast(Str("Failed to update profile."), false);
        case Answered(result) =>
          if ProfileSaveFailed(result) {
            toast := Toast(Prop(result, "message").value, false);
          } else {
            user := result;
            toast := Toast(Str("Profile updated successfully."), true);
          }
      }
    }

    /** `handleChangePassword()`: returns the passwords sent, if any, and the
      * message shown; the three fields are cleared only after a success. */
    method ChangePassword(outcome: Outcome) returns (sent: Option<(string, string)>, toast: Toast)
      modifies this
      ensures user == old(user) && firstName == old(firstName) && lastName == old(lastName)
      ensures var check := PasswordChange(old(currentPassword), old(newPassword), old(confirmPassword));
        && (sent.None? <==> check.Err?)
        && (check.Err? ==> toast == Toast(Str(check.msg), false))
        && (check.Ok? ==> sent == Some(check.value))
      ensures var cleared := currentPassword == "" && newPassword == "" && confirmPassword == "";
        var kept := currentPassword == old(currentPassword) && newPassword == old(newPassword) &&
          confirmPassword == old(confirmPassword);
        && (sent.Some? && outcome.Answered? && !(Prop(outcome.result, "error").Some? && Truthy(Prop(outcome.result, "error").value)) ==>
              cleared && toast == Toast(Str("Password changed successfully."), true))
        && (!(sent.Some? && outcome.Answered? && !(Prop(outcome.result, "error").Some? && Truthy(Prop(outcome.result, "error").value))) ==>
              kept && !toast.success)
    {
      var check := PasswordChange(currentPassword, newPassword, confirmPassword);
      if check.Err? {
        return None, Toast(Str(check.msg), false);
      }
      sent := Some(check.value);
      match outcome {
        case Threw(m) =>
          toast := Toast(if m.Some? && Truthy(m.value) then m.value else Str("Failed to change password."), false);
        case Answered(result) =>
          var error := Prop(result, "error");
          if error.Some? && Truthy(error.value) {
            toast := Toast(error.value, false);
          } else {
            currentPassword := "";
            newPassword := "";
            confirmPassword := "";
            toast := Toast(Str("Password changed successfully."), true);
          }
      }
    }
  }
}
