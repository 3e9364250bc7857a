/** The sign-in form: the shared guard, an error message chosen from the
    error code, and the toast actually shown. */
module SignInScreen {
  import opened Js

  const InvalidEmail: string := "auth/invalid-email"
  const UserNotFound: string := "auth/user-not-found"
  const WrongPassword: string := "auth/wrong-password"

  const InvalidEmailMessage: string := "Invalid email address."
  const UserNotFoundMessage: string := "No user found with this email."
  const WrongPasswordMessage: string := "Incorrect password."
  const FallbackMessage: string := "Something went wrong."

  /** The message computed for a failed sign-in. */
  function ErrorMessage(code: string): (m: string)
    ensures code == InvalidEmail ==> m == InvalidEmailMessage
    ensures code == UserNotFound ==> m == UserNotFoundMessage
    ensures code == WrongPassword ==> m == WrongPasswordMessage
    ensures m == FallbackMessage <==> code != InvalidEmail && code != UserNotFound && code != WrongPassword
  {
    if code == InvalidEmail then InvalidEmailMessage
    else if code == UserNotFound then UserNotFoundMessage
    else if code == WrongPassword then WrongPasswordMessage
    else FallbackMessage
  }

  /** A toast: its type, its first line and its optional second line. */
  datatype Toast = Toast(kind: string, text1: string, text2: Option<string>)

  /** The toast after the request settles, as written: on failure it carries
      only "Login Failed", whatever the code. */
  function ResultToast(failure: Option<string>): (t: Toast)
    ensures failure.None? ==> t == Toast("success", "Success", Some("Logged in successfully!"))
    ensures failure.Some? ==> t.kind == "error" && t.text1 == "Login Failed" && t.text2.None?
  {
    match failure
    case None => Toast("success", "Success", Some("Logged in successfully!"))
    case Some(_) => Toast("error", "Login Failed", None)
  }

  /** The computed message never reaches the user: two codes with different
      messages produce the same toast. */
  lemma MessageIsDropped()
    ensures ErrorMessage(WrongPassword) != ErrorMessage(UserNotFound)
    ensures ResultToast(Some(WrongPassword)) == ResultToast(Some(UserNotFound))
  {
  }

  /** The toast the handler evidently means to show: the computed message as
      its second line. */
  function IntendedResultToast(failure: Option<string>): (t: Toast)
    ensures failure.None? ==> t == ResultToast(None)
    ensures failure.Some? ==> t.kind == "error" && t.text1 == "Login Failed"
    ensures failure.Some? ==> t.text2 == Some(ErrorMessage(failure.value))
  {
    match failure
    case None => ResultToast(None)
    case Some(code) => Toast("error", "Login Failed", Some(ErrorMessage(code)))
  }

  /** With the message shown, failures the handler tells apart look different
      to the user. */
  lemma IntendedToastDistinguishesCodes(a: string, b: string)
    requires ErrorMessage(a) != ErrorMessage(b)
    ensures IntendedResultToast(Some(a)) != IntendedResultToast(Some(b))
  {
  }
}
