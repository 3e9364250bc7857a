/** The input guard the sign-in and sign-up forms share. */
module Auth {
  import opened Text

  const MissingFields: string := "Please enter both email and password"

  /** What pressing the form button does: an error alert, or a request with
      these credentials. */
  datatype Attempt = Refused(title: string, message: string) | Sent(email: string, password: string)

  /** `if (!email || !password) alert; else send(email.trim(), password)`:
      the guard looks at the raw email, the request gets the trimmed email and
      the password exactly as typed. */
  function Submit(email: string, password: string): (r: Attempt)
    ensures r.Refused? <==> email == "" || password == ""
    ensures r.Refused? ==> r == Refused("Error", MissingFields)
    ensures r.Sent? ==> r.email == Trim(email) && r.password == password
    ensures r.Sent? ==> exists i, j :: 0 <= i <= j <= |email| && r.email == email[i..j]
                                       && AllSpace(email[..i]) && AllSpace(email[j..])
  {
    if email == "" || password == "" then Refused("Error", MissingFields)
    else
      TrimIsInfix(email);
      Sent(Trim(email), password)
  }

  /** Because the guard sees the untrimmed email, an email of only white
      space passes it and an empty email is sent. */
  lemma BlankEmailPassesGuard(email: string, password: string)
    requires email != "" && AllSpace(email) && password != ""
    ensures Submit(email, password) == Sent("", password)
  {
  }
}
