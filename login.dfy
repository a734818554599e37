/** Signing in: the two submit checks (both fields filled, then the email pattern), the
    loading flag, and the demo routing that sends admin and LGU emails to the Admin area. */
module Login {
  import opened Common
  import opened Text
  import SignUp

  /** The outcome of a submit. */
  datatype Outcome = MissingField | InvalidEmail | Accepted

  /** `handleLogin`'s checks, first failure winning. The email pattern is the same one the
      sign-up form uses. */
  function Check(email: string, password: string): (r: Outcome)
    ensures r == MissingField <==> email == "" || password == ""
    ensures r == InvalidEmail <==> email != "" && password != "" && !SignUp.ValidEmail(email)
    ensures r == Accepted <==> password != "" && SignUp.ValidEmail(email)
  {
    if email == "" || password == "" then MissingField
    else if !SignUp.ValidEmail(email) then InvalidEmail
    else Accepted
  }

  /** Where a completed sign-in goes: 'Admin' when the email contains 'admin' or 'lgu' as
      written (case matters), 'Main' otherwise. */
  function Route(email: string): (screen: string)
    ensures screen == "Admin" <==> Includes(email, "admin") || Includes(email, "lgu")
    ensures screen == "Main" <==> !(Includes(email, "admin") || Includes(email, "lgu"))
  {
    if Includes(email, "admin") || Includes(email, "lgu") then "Admin" else "Main"
  }

  /** The password's content plays no part: two non-empty passwords give the same outcome,
      and the route depends on the email alone. */
  lemma PasswordIrrelevant(email: string, p1: string, p2: string)
    requires p1 != "" && p2 != ""
    ensures Check(email, p1) == Check(email, p2)
  {
  }

  /** The shipped LGU account signs in to the Admin area. */
  lemma ShippedAdminRoute()
    ensures Route("admin@lgu.gov.ph") == "Admin"
  {
    assert StartsWith("admin@lgu.gov.ph", "admin");
  }

  /** Case matters: the same address in capitals goes to Main. */
  lemma CapitalsRouteToMain()
    ensures Route("ADMIN@LGU.GOV.PH") == "Main"
  {
    var caps := "ADMIN@LGU.GOV.PH";
    assert forall j :: 0 <= j < |caps| ==> caps[j] != 'a' && caps[j] != 'l';
    ExcludesWithoutFirstChar(caps, "admin");
    ExcludesWithoutFirstChar(caps, "lgu");
  }

  /** The screen's state; `submittedEmail` is the email the pending sign-in was made with. */
  class LoginScreen {
    var email: string
    var password: string
    var isLoading: bool
    var submittedEmail: string

    constructor ()
      ensures email == "" && password == "" && !isLoading
    {
      email, password, isLoading, submittedEmail := "", "", false, "";
    }

    /** Typing into the two fields. */
    method Fill(e: string, p: string)
      modifies this
      ensures email == e && password == p && isLoading == old(isLoading)
      ensures submittedEmail == old(submittedEmail)
    {
      email, password := e, p;
    }

    /** Whether the Sign In button accepts a press. */
    function ButtonEnabled(): (enabled: bool)
      reads this
      ensures enabled <==> !isLoading
    {
      !isLoading
    }

    /** `handleLogin`: checks in order; loading starts only when both pass. */
    method HandleLogin() returns (outcome: Outcome)
      modifies this
      ensures outcome == Check(old(email), old(password))
      ensures email == old(email) && password == old(password)
      ensures isLoading == (outcome == Accepted || old(isLoading))
      ensures submittedEmail == if outcome == Accepted then email else old(submittedEmail)
    {
      if email == "" || password == "" {
        return MissingField;
      }
      if !SignUp.ValidEmail(email) {
        return InvalidEmail;
      }
      isLoading := true;
      submittedEmail := email;
      outcome := Accepted;
    }

    /** The sign-in timer fires: loading ends and the route is replaced by Admin or Main. */
    method CompleteLogin() returns (next: Nav)
      modifies this
      ensures !isLoading && email == old(email) && password == old(password)
      ensures next == Replace(Route(submittedEmail))
    {
      isLoading := false;
      next := Replace(Route(submittedEmail));
    }
  }
}
