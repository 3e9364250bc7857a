/** The sign-up form: the shared guard, then the error alert chosen from the
    authentication provider's error code. */
module SignUpScreen {
  import opened Js

  const EmailInUse: string := "auth/email-already-in-use"
  const InvalidEmail: string := "auth/invalid-email"
  const WeakPassword: string := "auth/weak-password"

  const EmailInUseMessage: string := "That email address is already in use!"
  const InvalidEmailMessage: string := "That email address is invalid!"
  const WeakPasswordMessage: string := "Password should be at least 6 characters."
  const FallbackMessage: string := "Something went wrong. Try again."

  /** The alert text for a failed account creation. */
  function ErrorMessage(code: string): (m: string)
    ensures code == EmailInUse ==> m == EmailInUseMessage
    ensures code == InvalidEmail ==> m == InvalidEmailMessage
    ensures code == WeakPassword ==> m == WeakPasswordMessage
    ensures m == FallbackMessage <==> code != EmailInUse && code != InvalidEmail && code != WeakPassword
  {
    if code == EmailInUse then EmailInUseMessage
    else if code == InvalidEmail then InvalidEmailMessage
    else if code == WeakPassword then WeakPasswordMessage
    else FallbackMessage
  }

  /** The three recognised codes each get a message of their own. */
  lemma KnownCodesDistinguished(a: string, b: string)
    requires a in {EmailInUse, InvalidEmail, WeakPassword} && b in {EmailInUse, InvalidEmail, WeakPassword}
    ensures ErrorMessage(a) == ErrorMessage(b) <==> a == b
  {
  }

  /** The alert after the request settles: `None` is success, `Some(code)`
      a rejection with that code. */
  function ResultAlert(failure: Option<string>): (r: (string, string))
    ensures failure.None? ==> r == ("Success", "User account created!")
    ensures failure.Some? ==> r.0 == "Error" && r.1 == ErrorMessage(failure.value)
  {
    match failure
    case None => ("Success", "User account created!")
    case Some(code) => ("Error", ErrorMessage(code))
  }
}
