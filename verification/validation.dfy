/**
 * The field rules of the sign-in and registration forms
 * (screens/LoginScreen.tsx and screens/RegisterScreen.tsx apply the same
 * rules with the same messages): blank checks after `trim()`, the e-mail
 * pattern `^\S+@\S+\.\S+$`, the minimum password length and the
 * confirmation check. Each rule is a function from the field to its error
 * message, the empty string meaning "no error".
 */
module Validation {
  import opened JsString

  const EmailRequired: string := "Email is required"
  const EmailInvalid: string := "Please enter a valid email"
  const PasswordRequired: string := "Password is required"
  const PasswordTooShort: string := "Password must be at least 6 characters"
  const NameRequired: string := "Name is required"
  const ConfirmRequired: string := "Please confirm your password"
  const ConfirmMismatch: string := "Passwords do not match"

  const MinPasswordLength: nat := 6

  /**
   * What `^\S+@\S+\.\S+$` accepts: no whitespace at all, an '@' with at
   * least one character before it, and after it a '.' with at least one
   * character on each side.
   */
  ghost predicate EmailPattern(s: string)
    ensures EmailPattern(s) ==> |s| >= 5 && NoWs(s) && '@' in s && '.' in s
  {
    NoWs(s) && exists i, j :: 1 <= i && i + 2 <= j <= |s| - 2 && s[i] == '@' && s[j] == '.'
  }

  /** The first index at or after `from` holding `c`, or -1. */
  function IndexOfFrom(s: string, c: char, from: nat): (i: int)
    requires from <= |s|
    ensures i == -1 || (from <= i < |s| && s[i] == c)
    ensures i == -1 ==> forall k :: from <= k < |s| ==> s[k] != c
    ensures i >= 0 ==> forall k :: from <= k < i ==> s[k] != c
    decreases |s| - from
  {
    if from == |s| then -1
    else if s[from] == c then from
    else IndexOfFrom(s, c, from + 1)
  }

  /**
   * Running the pattern: the earliest '@' after the first character and the
   * last '.' before the last character are the best candidates, so the
   * string matches when those two are far enough apart.
   */
  function EmailMatches(s: string): (m: bool)
    ensures m ==> |s| >= 5 && NoWs(s) && '@' in s && '.' in s
  {
    if |s| < 5 || !NoWs(s) then false
    else
      var at := IndexOfFrom(s, '@', 1);
      var dot := LastIndexOf(s[..|s| - 1], '.');
      if at >= 1 && dot >= at + 2 then
        assert s[at] == '@' && s[dot] == s[..|s| - 1][dot];
        true
      else false
  }

  /** The matcher accepts exactly the strings the pattern describes. */
  lemma EmailMatchesIffPattern(s: string)
    ensures EmailMatches(s) <==> EmailPattern(s)
  {
    if EmailMatches(s) {
      var at := IndexOfFrom(s, '@', 1);
      var dot := LastIndexOf(s[..|s| - 1], '.');
      assert s[dot] == s[..|s| - 1][dot];
      assert 1 <= at && at + 2 <= dot <= |s| - 2 && s[at] == '@' && s[dot] == '.';
    }
    if EmailPattern(s) {
      var i, j :| 1 <= i && i + 2 <= j <= |s| - 2 && s[i] == '@' && s[j] == '.';
      var at := IndexOfFrom(s, '@', 1);
      assert 1 <= at <= i;
      var init := s[..|s| - 1];
      var dot := LastIndexOf(init, '.');
      assert init[j] == '.';
      assert dot >= j;
    }
  }

  /** A string the pattern accepts is never blank: it holds an '@'. */
  lemma PatternIsNotBlank(s: string)
    requires EmailPattern(s)
    ensures Trim(s) != []
  {
    var i, j :| 1 <= i && i + 2 <= j <= |s| - 2 && s[i] == '@' && s[j] == '.';
    TrimEmptyIffAllWs(s);
    assert !IsWs(s[i]);
  }

  /** The e-mail rule: required after trimming, then the pattern on the untrimmed text. */
  function EmailError(email: string): (e: string)
    ensures Trim(email) == [] ==> e == EmailRequired
    ensures Trim(email) != [] && !EmailPattern(email) ==> e == EmailInvalid
    ensures e == "" <==> EmailPattern(email)
  {
    EmailMatchesIffPattern(email);
    if Trim(email) == [] then EmailRequired
    else if !EmailMatches(email) then EmailInvalid
    else
      PatternIsNotBlank(email);
      ""
  }

  /**
   * The pattern runs on the untrimmed text, so a non-blank address with a
   * space anywhere in it, even a leading or trailing one, is rejected as
   * invalid rather than trimmed.
   */
  lemma SpacedEmailIsInvalid(email: string)
    requires !NoWs(email) && !AllWs(email)
    ensures EmailError(email) == EmailInvalid
  {
    TrimEmptyIffAllWs(email);
  }

  /** The password rule: required, then at least six UTF-16 code units; never trimmed. */
  function PasswordError(password: string): (e: string)
    ensures password == [] ==> e == PasswordRequired
    ensures password != [] && Utf16Length(password) < MinPasswordLength ==> e == PasswordTooShort
    ensures e == "" <==> Utf16Length(password) >= MinPasswordLength
  {
    if password == [] then PasswordRequired
    else if Utf16Length(password) < MinPasswordLength then PasswordTooShort
    else ""
  }

  /** Six spaces are an acceptable password: the rule does not trim. */
  lemma BlankPasswordAccepted()
    ensures PasswordError("      ") == ""
  {
  }

  /** The name rule: required after trimming. */
  function NameError(name: string): (e: string)
    ensures e == "" <==> !AllWs(name)
    ensures e != "" ==> e == NameRequired
  {
    TrimEmptyIffAllWs(name);
    if Trim(name) == [] then NameRequired else ""
  }

  /** The confirmation rule: required, then equal to the password. */
  function ConfirmError(password: string, confirmPassword: string): (e: string)
    ensures confirmPassword == [] ==> e == ConfirmRequired
    ensures confirmPassword != [] && password != confirmPassword ==> e == ConfirmMismatch
    ensures e == "" <==> confirmPassword != [] && password == confirmPassword
  {
    if confirmPassword == [] then ConfirmRequired
    else if password != confirmPassword then ConfirmMismatch
    else ""
  }
}
