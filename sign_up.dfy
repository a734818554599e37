/** Account creation: the email pattern shared with the login form, the password rule and
    strength meter, and the submit checks, which run in order so that the first failure is
    the one reported. */
module SignUp {
  import opened Common
  import opened Text

  /** A run of `[^\s@]+`: non-empty, with no white space and no '@'. */
  predicate Part(t: string) {
    |t| > 0 && forall i :: 0 <= i < |t| ==> !IsWhiteSpace(t[i]) && t[i] != '@'
  }

  /** `/^[^\s@]+@[^\s@]+\.[^\s@]+$/.test(s)`: some '@' at `a` and some '.' at `d` cut `s`
      into three such runs. */
  predicate ValidEmail(s: string)
    ensures ValidEmail(s) ==> |s| >= 5 && '@' in s && '.' in s
  {
    exists a, d :: 0 < a < d < |s| && SplitsAt(s, a, d)
  }

  /** The '@' at `a` and the '.' at `d` cut `s` into three runs of `[^\s@]+`. */
  predicate SplitsAt(s: string, a: int, d: int) {
    0 < a && a + 1 < d < |s| - 1 && s[a] == '@' && s[d] == '.'
    && Part(s[..a]) && Part(s[a + 1..d]) && Part(s[d + 1..])
  }

  /** The same condition stated as properties of the whole string: exactly one '@', which is
      not the first character, no white space, and a '.' in the part after the '@' that is
      neither its first nor its last character. */
  ghost predicate EmailShape(s: string) {
    (forall i :: 0 <= i < |s| ==> !IsWhiteSpace(s[i]))
    && exists a :: 0 < a < |s| && s[a] == '@'
         && (forall i :: 0 <= i < |s| && s[i] == '@' ==> i == a)
         && exists k :: a + 1 < k < |s| - 1 && s[k] == '.'
  }

  /** The pattern accepts exactly the strings of that shape. */
  lemma ValidEmailIff(s: string)
    ensures ValidEmail(s) <==> EmailShape(s)
  {
    if ValidEmail(s) {
      ValidEmailHasShape(s);
    }
    if EmailShape(s) {
      ShapeIsValidEmail(s);
    }
  }

  lemma ValidEmailHasShape(s: string)
    requires ValidEmail(s)
    ensures EmailShape(s)
  {
    var a, d :| 0 < a < d < |s| && SplitsAt(s, a, d);
    var local, domain, tld := s[..a], s[a + 1..d], s[d + 1..];
    forall i | 0 <= i < |s| ensures !IsWhiteSpace(s[i]) && (s[i] == '@' ==> i == a) {
      if i < a {
        assert s[i] == local[i] && !IsWhiteSpace(local[i]) && local[i] != '@';
      } else if a < i < d {
        assert s[i] == domain[i - a - 1] && !IsWhiteSpace(domain[i - a - 1]) && domain[i - a - 1] != '@';
      } else if d < i {
        assert s[i] == tld[i - d - 1] && !IsWhiteSpace(tld[i - d - 1]) && tld[i - d - 1] != '@';
      }
    }
    assert forall i :: 0 <= i < |s| && s[i] == '@' ==> i == a;
    assert exists k :: a + 1 < k < |s| - 1 && s[k] == '.' by {
      assert a + 1 < d < |s| - 1 && s[d] == '.';
    }
  }

  lemma ShapeIsValidEmail(s: string)
    requires EmailShape(s)
    ensures ValidEmail(s)
  {
    var a :| 0 < a < |s| && s[a] == '@'
       && (forall i :: 0 <= i < |s| && s[i] == '@' ==> i == a)
       && exists k :: a + 1 < k < |s| - 1 && s[k] == '.';
    var d :| a + 1 < d < |s| - 1 && s[d] == '.';
    var local, domain, tld := s[..a], s[a + 1..d], s[d + 1..];
    assert Part(local) by {
      forall i | 0 <= i < |local| ensures !IsWhiteSpace(local[i]) && local[i] != '@' {
        assert local[i] == s[i];
      }
    }
    assert Part(domain) by {
      forall i | 0 <= i < |domain| ensures !IsWhiteSpace(domain[i]) && domain[i] != '@' {
        assert domain[i] == s[a + 1 + i];
      }
    }
    assert Part(tld) by {
      forall i | 0 <= i < |tld| ensures !IsWhiteSpace(tld[i]) && tld[i] != '@' {
        assert tld[i] == s[d + 1 + i];
      }
    }
    assert SplitsAt(s, a, d);
  }

  /** Examples at the edges of the pattern. */
  lemma EmailExamples()
    ensures ValidEmail("a@b.c")
    ensures !ValidEmail("a@b.")
    ensures !ValidEmail("a@@b.c")
    ensures !ValidEmail("a b@c.d")
  {
    var s := "a@b.c";
    assert s[..1] == "a" && s[2..3] == "b" && s[4..] == "c";
    assert Part(s[..1]) && Part(s[2..3]) && Part(s[4..]);
    assert SplitsAt(s, 1, 3);
    var t := "a@b.";
    assert forall i :: 0 <= i < |t| && t[i] == '@' ==> i == 1;
    ValidEmailIff(t);
    var u := "a@@b.c";
    assert u[1] == '@' && u[2] == '@';
    ValidEmailIff(u);
    var w := "a b@c.d";
    assert IsWhiteSpace(w[1]);
    ValidEmailIff(w);
  }

  /** `validatePassword`: at least six characters. */
  predicate ValidPassword(p: string)
    ensures ValidPassword(p) ==> p != "" && PasswordStrength(p).color != Error
  {
    |p| >= 6
  }

  /** The strength meter's text and colour. */
  datatype Strength = Strength(strength: string, color: Color)

  /** `getPasswordStrength`, banded by length. */
  function PasswordStrength(p: string): (r: Strength)
    ensures |p| == 0 <==> r == Strength("none", Gray)
    ensures 1 <= |p| <= 5 <==> r == Strength("weak", Error)
    ensures 6 <= |p| <= 7 <==> r == Strength("medium", Warning)
    ensures |p| >= 8 <==> r == Strength("strong", Success)
  {
    if |p| == 0 then Strength("none", Gray)
    else if |p| < 6 then Strength("weak", Error)
    else if |p| < 8 then Strength("medium", Warning)
    else Strength("strong", Success)
  }

  /** The rule and the meter agree: a password is accepted exactly when the meter says
      medium or strong. */
  lemma ValidPasswordIffStrong(p: string)
    ensures ValidPassword(p) <==> PasswordStrength(p).strength in {"medium", "strong"}
  {
  }

  /** The meter is shown exactly when a password has been typed. */
  function StrengthShown(p: string): (shown: bool)
    ensures shown <==> p != ""
  {
    |p| > 0
  }

  /** The form as submitted. */
  datatype Form = Form(fullName: string, email: string, password: string,
                       confirmPassword: string, selectedRole: string)

  /** The outcome of a submit: the error reported, or acceptance. */
  datatype Outcome = MissingField | InvalidEmail | ShortPassword | PasswordMismatch | Accepted

  predicate AllFilled(f: Form) {
    f.fullName != "" && f.email != "" && f.password != "" && f.confirmPassword != "" && f.selectedRole != ""
  }

  /** `handleSignUp`'s checks. Each outcome holds exactly when every earlier check passed and
      its own failed: the first failure wins. */
  function Check(f: Form): (r: Outcome)
    ensures r == MissingField <==> !AllFilled(f)
    ensures r == InvalidEmail <==> AllFilled(f) && !ValidEmail(f.email)
    ensures r == ShortPassword <==> AllFilled(f) && ValidEmail(f.email) && !ValidPassword(f.password)
    ensures r == PasswordMismatch <==>
              AllFilled(f) && ValidEmail(f.email) && ValidPassword(f.password) && f.password != f.confirmPassword
    ensures r == Accepted <==>
              AllFilled(f) && ValidEmail(f.email) && ValidPassword(f.password) && f.password == f.confirmPassword
  {
    if !AllFilled(f) then MissingField
    else if !ValidEmail(f.email) then InvalidEmail
    else if !ValidPassword(f.password) then ShortPassword
    else if f.password != f.confirmPassword then PasswordMismatch
    else Accepted
  }

  /** The email need not be checked for the password mismatch to be found: a short password
      is reported before a mismatch, so a mismatch report implies six characters or more. */
  lemma MismatchImpliesLongEnough(f: Form)
    requires Check(f) == PasswordMismatch
    ensures |f.password| >= 6 && PasswordStrength(f.password).strength != "weak"
  {
  }

  /** The screen's state. */
  class SignUpScreen {
    var fullName: string
    var email: string
    var password: string
    var confirmPassword: string
    var selectedRole: string
    var isLoading: bool

    function CurrentForm(): Form
      reads this
    {
      Form(fullName, email, password, confirmPassword, selectedRole)
    }

    constructor ()
      ensures CurrentForm() == Form("", "", "", "", "") && !isLoading
    {
      fullName, email, password, confirmPassword, selectedRole := "", "", "", "", "";
      isLoading := false;
    }

    /** Typing into the fields and choosing a role. */
    method Fill(f: Form)
      modifies this
      ensures CurrentForm() == f && isLoading == old(isLoading)
    {
      fullName, email, password, confirmPassword, selectedRole :=
        f.fullName, f.email, f.password, f.confirmPassword, f.selectedRole;
    }

    /** `handleSignUp`: the checks in order; loading starts only when all of them pass. */
    method HandleSignUp() returns (outcome: Outcome)
      modifies this
      ensures outcome == Check(old(CurrentForm()))
      ensures CurrentForm() == old(CurrentForm())
      ensures isLoading == (outcome == Accepted || old(isLoading))
    {
      if fullName == "" || email == "" || password == "" || confirmPassword == "" || selectedRole == "" {
        return MissingField;
      }
      if !ValidEmail(email) {
        return InvalidEmail;
      }
      if !ValidPassword(password) {
        return ShortPassword;
      }
      if password != confirmPassword {
        return PasswordMismatch;
      }
      isLoading := true;
      outcome := Accepted;
    }

    /** The account-creation timer fires: loading ends, and OK on its alert opens Login. */
    method CompleteSignUp() returns (next: Nav)
      modifies this
      ensures !isLoading && CurrentForm() == old(CurrentForm())
      ensures next == Navigate("Login")
    {
      isLoading := false;
      next := Navigate("Login");
    }
  }
}
