/**
 * The registration form (screens/RegisterScreen.tsx): four fields,
 * `validateInputs`, which checks all four independently and records one
 * error message per field, and the guard of `handleRegister`.
 */
module RegisterScreen {
  import opened Wrappers
  import opened JsString
  import opened Validation

  /** What `handleRegister` hands to the sign-up thunk. */
  datatype SignUpRequest = SignUpRequest(name: string, email: string, password: string)

  /** The form is acceptable: a name, a well-formed address, a long enough password, and its confirmation. */
  ghost predicate RegisterValid(name: string, email: string, password: string, confirmPassword: string)
  {
    !AllWs(name) && EmailPattern(email) && Utf16Length(password) >= MinPasswordLength
    && confirmPassword == password
  }

  /** The screen's `useState` fields. */
  class RegisterForm {
    var name: string
    var email: string
    var password: string
    var confirmPassword: string
    var nameError: string
    var emailError: string
    var passwordError: string
    var confirmPasswordError: string

    constructor ()
      ensures name == "" && email == "" && password == "" && confirmPassword == ""
      ensures nameError == "" && emailError == "" && passwordError == "" && confirmPasswordError == ""
    {
      name, email, password, confirmPassword := "", "", "", "";
      nameError, emailError, passwordError, confirmPasswordError := "", "", "", "";
    }

    /** The field values are what validation left alone. */
    predicate SameFields(n: string, e: string, p: string, c: string)
      reads this
    {
      name == n && email == e && password == p && confirmPassword == c
    }

    /** The name block of `validateInputs`. */
    method CheckName() returns (ok: bool)
      modifies this
      ensures SameFields(old(name), old(email), old(password), old(confirmPassword))
      ensures emailError == old(emailError) && passwordError == old(passwordError)
      ensures confirmPasswordError == old(confirmPasswordError)
      ensures nameError == NameError(name) && (ok <==> nameError == "")
    {
      TrimEmptyIffAllWs(name);
      if Trim(name) == [] {
        nameError := NameRequired;
        ok := false;
      } else {
        nameError := "";
        ok := true;
      }
    }

    /** The e-mail block of `validateInputs`. */
    method CheckEmail() returns (ok: bool)
      modifies this
      ensures SameFields(old(name), old(email), old(password), old(confirmPassword))
      ensures nameError == old(nameError) && passwordError == old(passwordError)
      ensures confirmPasswordError == old(confirmPasswordError)
      ensures emailError == EmailError(email) && (ok <==> emailError == "")
    {
      EmailMatchesIffPattern(email);
      if Trim(email) == [] {
        emailError := EmailRequired;
        ok := false;
      } else if !EmailMatches(email) {
        emailError := EmailInvalid;
        ok := false;
      } else {
        emailError := "";
        ok := true;
      }
    }

    /** The password block of `validateInputs`. */
    method CheckPassword() returns (ok: bool)
      modifies this
      ensures SameFields(old(name), old(email), old(password), old(confirmPassword))
      ensures nameError == old(nameError) && emailError == old(emailError)
      ensures confirmPasswordError == old(confirmPasswordError)
      ensures passwordError == PasswordError(password) && (ok <==> passwordError == "")
    {
      if password == [] {
        passwordError := PasswordRequired;
        ok := false;
      } else if Utf16Length(password) < MinPasswordLength {
        passwordError := PasswordTooShort;
        ok := false;
      } else {
        passwordError := "";
        ok := true;
      }
    }

    /** The confirmation block of `validateInputs`. */
    method CheckConfirm() returns (ok: bool)
      modifies this
      ensures SameFields(old(name), old(email), old(password), old(confirmPassword))
      ensures nameError == old(nameError) && emailError == old(emailError)
      ensures passwordError == old(passwordError)
      ensures confirmPasswordError == ConfirmError(password, confirmPassword) && (ok <==> confirmPasswordError == "")
    {
      if confirmPassword == [] {
        confirmPasswordError := ConfirmRequired;
        ok := false;
      } else if password != confirmPassword {
        confirmPasswordError := ConfirmMismatch;
        ok := false;
      } else {
        confirmPasswordError := "";
        ok := true;
      }
    }

    /**
     * `validateInputs`: all four blocks run in turn, each setting or
     * clearing its own error (the confirmation is compared even when the
     * password itself is rejected); the result says whether all four errors
     * ended empty.
     */
    method ValidateInputs() returns (isValid: bool)
      modifies this
      ensures SameFields(old(name), old(email), old(password), old(confirmPassword))
      ensures nameError == NameError(name) && emailError == EmailError(email)
      ensures passwordError == PasswordError(password)
      ensures confirmPasswordError == ConfirmError(password, confirmPassword)
      ensures isValid <==> nameError == "" && emailError == "" && passwordError == "" && confirmPasswordError == ""
      ensures isValid <==> RegisterValid(name, email, password, confirmPassword)
    {
      isValid := true;
      var ok := CheckName();
      if !ok { isValid := false; }
      ok := CheckEmail();
      if !ok { isValid := false; }
      ok := CheckPassword();
      if !ok { isValid := false; }
      ok := CheckConfirm();
      if !ok { isValid := false; }
    }

    /** `handleRegister`: the sign-up request, sent only when the form validates. */
    method HandleRegister() returns (request: Option<SignUpRequest>)
      modifies this
      ensures SameFields(old(name), old(email), old(password), old(confirmPassword))
      ensures nameError == NameError(name) && emailError == EmailError(email)
      ensures passwordError == PasswordError(password)
      ensures confirmPasswordError == ConfirmError(password, confirmPassword)
      ensures request.Some? <==> RegisterValid(name, email, password, confirmPassword)
      ensures request.Some? ==> request.value == SignUpRequest(name, email, password)
    {
      var ok := ValidateInputs();
      if ok {
        request := Some(SignUpRequest(name, email, password));
      } else {
        request := None;
      }
    }
  }

  /** A valid registration has a non-empty confirmation: the length rule already rules out an empty one. */
  lemma ValidConfirmationIsNonEmpty(name: string, email: string, password: string, confirmPassword: string)
    requires RegisterValid(name, email, password, confirmPassword)
    ensures ConfirmError(password, confirmPassword) == ""
  {
  }
}
