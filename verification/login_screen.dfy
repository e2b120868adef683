/**
 * The sign-in form (screens/LoginScreen.tsx): its field state,
 * `validateInputs`, which checks both fields and records one error message
 * per field, and the guard of `handleLogin`, which asks for a sign-in only
 * when validation passes.
 */
module LoginScreen {
  import opened Wrappers
  import opened JsString
  import opened Validation

  /** The credentials `handleLogin` hands to the sign-in thunk. */
  datatype SignInRequest = SignInRequest(email: string, password: string)

  /** The form is acceptable: a well-formed address and a password of six or more code units. */
  ghost predicate LoginValid(email: string, password: string)
  {
    EmailPattern(email) && Utf16Length(password) >= MinPasswordLength
  }

  /** The screen's `useState` fields. */
  class LoginForm {
    var email: string
    var password: string
    var emailError: string
    var passwordError: string

    constructor ()
      ensures email == "" && password == "" && emailError == "" && passwordError == ""
    {
      email := "";
      password := "";
      emailError := "";
      passwordError := "";
    }

    /**
     * `validateInputs`: both fields are checked, one after the other, and
     * each error is set or cleared on its own; the result says whether both
     * ended empty.
     */
    method ValidateInputs() returns (isValid: bool)
      modifies this
      ensures email == old(email) && password == old(password)
      ensures emailError == EmailError(email) && passwordError == PasswordError(password)
      ensures isValid <==> emailError == "" && passwordError == ""
      ensures isValid <==> LoginValid(email, password)
    {
      isValid := true;

      if Trim(email) == [] {
        emailError := EmailRequired;
        isValid := false;
      } else if !EmailMatches(email) {
        emailError := EmailInvalid;
        isValid := false;
      } else {
        emailError := "";
      }

      if password == [] {
        passwordError := PasswordRequired;
        isValid := false;
      } else if Utf16Length(password) < MinPasswordLength {
        passwordError := PasswordTooShort;
        isValid := false;
      } else {
        passwordError := "";
      }

      EmailMatchesIffPattern(email);
      assert emailError == EmailError(email);
    }

    /** `handleLogin`: the sign-in request, sent only when the form validates. */
    method HandleLogin() returns (request: Option<SignInRequest>)
      modifies this
      ensures email == old(email) && password == old(password)
      ensures emailError == EmailError(email) && passwordError == PasswordError(password)
      ensures request.Some? <==> LoginValid(email, password)
      ensures request.Some? ==> request.value == SignInRequest(email, password)
    {
      var ok := ValidateInputs();
      if ok {
        request := Some(SignInRequest(email, password));
      } else {
        request := None;
      }
    }
  }
}
