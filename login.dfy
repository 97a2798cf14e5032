/**
 * The login page's submit handler: an email is accepted exactly when it
 * contains an `@`; the handler sets the error text and the toast and, on
 * acceptance, signs the user in with the email as typed.
 */
module LoginPage {
  import opened Wrappers
  import opened JsText

  const InvalidEmailError := "Please enter a valid email address."
  const FailureMessage := "Login failed: Invalid email address."
  const SuccessMessage := "Login successful! Redirecting..."

  datatype ToastType = Success | Error

  /** The `{show, type, message}` object of the toast cell. */
  datatype Toast = Toast(show: bool, kind: ToastType, message: string)

  const HiddenToast := Toast(false, Success, "")

  /** The cells one submission writes, and the argument `login` receives, if called. */
  datatype Submission = Submission(error: string, toast: Toast, loginWith: Option<string>)

  /** `email.includes("@")`. */
  predicate IsAcceptedEmail(email: string) {
    Includes(email, '@')
  }

  /** What `handleSubmit` leaves behind for a given email. */
  function Submit(email: string): (r: Submission)
    ensures r.toast.show
    ensures r.loginWith.Some? <==> exists k :: 0 <= k < |email| && email[k] == '@'
    ensures r.toast.kind == Success <==> r.loginWith.Some?
    ensures r.error == "" <==> r.loginWith.Some?
    ensures r.loginWith.Some? ==> r.loginWith.value == email && r.toast.message == SuccessMessage
    ensures r.loginWith.None? ==> r.error == InvalidEmailError && r.toast.message == FailureMessage
  {
    if !IsAcceptedEmail(email) then
      Submission(InvalidEmailError, Toast(true, Error, FailureMessage), None)
    else
      Submission("", Toast(true, Success, SuccessMessage), Some(email))
  }

  /** Any text around an `@` passes, `"@"` alone included; text without one fails. */
  lemma {:induction false} SubmitExamples(before: string, after: string)
    ensures Submit(before + "@" + after).loginWith == Some(before + "@" + after)
    ensures Submit("@").loginWith == Some("@")
    ensures Submit("").loginWith.None?
    ensures Submit("user.example.com").toast == Toast(true, Error, FailureMessage)
  {
    var e := before + "@" + after;
    assert e[|before|] == '@';
    assert "@"[0] == '@';
  }

  /** The form's state cells, and the emails `login` has been called with. */
  class LoginForm {
    var email: string
    var error: string
    var toast: Toast
    /** Calls made to the authentication context's `login`, oldest first. */
    var logins: seq<string>

    constructor ()
      ensures email == "" && error == "" && toast == HiddenToast && logins == []
    {
      email := "";
      error := "";
      toast := HiddenToast;
      logins := [];
    }

    /** Typing into the field. */
    method SetEmail(text: string)
      modifies this`email
      ensures email == text
    {
      email := text;
    }

    /** `handleSubmit`: validate, then set the error, sign in and show the toast. */
    method HandleSubmit() returns (accepted: bool)
      modifies this`error, this`toast, this`logins
      ensures accepted <==> IsAcceptedEmail(email)
      ensures error == Submit(email).error && toast == Submit(email).toast
      ensures logins == old(logins) + (if accepted then [email] else [])
    {
      if !IsAcceptedEmail(email) {
        error := InvalidEmailError;
        toast := Toast(true, Error, FailureMessage);
        accepted := false;
        return;
      }
      error := "";
      logins := logins + [email];
      toast := Toast(true, Success, SuccessMessage);
      accepted := true;
    }
  }
}
