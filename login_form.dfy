/**
 * The sign-in / registration form of src/components/auth/Login.jsx: an ordered chain of checks
 * whose first failure becomes the form error, and the submit guard in front of the auth calls.
 */
module LoginForm {
  import opened Wrappers

  const FillAllFields := "Please fill in all required fields"
  const UsernameTooShort := "Username must be at least 3 characters"
  const PasswordTooShort := "Password must be at least 6 characters"
  const PhoneRequired := "Phone number is required"
  const PhoneNotTenDigits := "Phone number must be 10 digits"

  datatype Credentials = Credentials(username: string, password: string, phone: string)

  datatype LoginField = Username | Password | Phone

  /** The call `handleSubmit` makes once the form is valid. */
  datatype AuthRequest =
    | SignIn(username: string, password: string)
    | Register(username: string, password: string, phone: string)

  /** One step of the chain: whether it passes and what it reports when it does not. */
  datatype Check = Check(passes: bool, message: string)

  /** The phone pattern: exactly ten ASCII decimal digits and nothing else. */
  function IsTenDigits(s: string): (ok: bool)
    ensures ok ==> s != "" && |s| == 10
  {
    |s| == 10 && forall i :: 0 <= i < |s| ==> '0' <= s[i] <= '9'
  }

  /** The checks of `validateForm`, in the order they run; the phone checks only in registration mode. */
  function Checks(f: Credentials, isLogin: bool): (c: seq<Check>)
    ensures |c| == if isLogin then 3 else 5
    ensures forall i :: 0 <= i < |c| ==>
      c[i].message == [FillAllFields, UsernameTooShort, PasswordTooShort, PhoneRequired, PhoneNotTenDigits][i]
    ensures (forall i :: 0 <= i < |c| ==> c[i].passes) <==>
      |f.username| >= 3 && |f.password| >= 6 && (!isLogin ==> IsTenDigits(f.phone))
  {
    var c :=
      [ Check(f.username != "" && f.password != "", FillAllFields),
        Check(|f.username| >= 3, UsernameTooShort),
        Check(|f.password| >= 6, PasswordTooShort) ] +
      (if isLogin then []
       else [ Check(f.phone != "", PhoneRequired),
              Check(IsTenDigits(f.phone), PhoneNotTenDigits) ]);
    assert (forall i :: 0 <= i < |c| ==> c[i].passes) ==>
      c[1].passes && c[2].passes && (!isLogin ==> c[4].passes);
    c
  }

  /** The message of the first failing check, or `None` when all pass. */
  function FirstFailure(checks: seq<Check>): (r: Option<string>)
    ensures r.None? <==> forall i :: 0 <= i < |checks| ==> checks[i].passes
    ensures r.Some? ==> exists i :: 0 <= i < |checks| && !checks[i].passes && checks[i].message == r.value &&
                                    forall j :: 0 <= j < i ==> checks[j].passes
  {
    if checks == [] then None
    else if !checks[0].passes then Some(checks[0].message)
    else
      var r := FirstFailure(checks[1..]);
      assert forall i :: 1 <= i < |checks| ==> checks[i] == checks[1..][i - 1];
      assert r.Some? ==> exists i :: 0 <= i < |checks| && !checks[i].passes && checks[i].message == r.value &&
                                     forall j :: 0 <= j < i ==> checks[j].passes by {
        if r.Some? {
          var k :| 0 <= k < |checks[1..]| && !checks[1..][k].passes && checks[1..][k].message == r.value &&
                   forall j :: 0 <= j < k ==> checks[1..][j].passes;
          assert !checks[k + 1].passes && checks[k + 1].message == r.value;
        }
      }
      r
  }

  /** When the checks before position k pass and check k fails, check k is the one reported. */
  lemma {:induction false} FirstFailureAt(checks: seq<Check>, k: nat)
    requires k < |checks| && !checks[k].passes
    requires forall j :: 0 <= j < k ==> checks[j].passes
    ensures FirstFailure(checks) == Some(checks[k].message)
  {
    if k > 0 {
      assert checks[0].passes;
      FirstFailureAt(checks[1..], k - 1);
    }
  }

  /** The form error `validateForm` leaves behind: the first failing check's message, or '' when valid. */
  function LoginError(f: Credentials, isLogin: bool): string {
    FirstFailure(Checks(f, isLogin)).GetOr("")
  }

  /** An empty username or password is reported before anything else. */
  lemma MissingFieldReportedFirst(f: Credentials, isLogin: bool)
    requires f.username == "" || f.password == ""
    ensures FirstFailure(Checks(f, isLogin)) == Some(FillAllFields)
  {
  }

  /** With both fields filled, a username under 3 characters is the error. */
  lemma ShortUsernameReported(f: Credentials, isLogin: bool)
    requires f.username != "" && f.password != "" && |f.username| < 3
    ensures FirstFailure(Checks(f, isLogin)) == Some(UsernameTooShort)
  {
  }

  /** Past the first two checks, a password under 6 characters is the error. */
  lemma ShortPasswordReported(f: Credentials, isLogin: bool)
    requires f.username != "" && |f.username| >= 3 && f.password != "" && |f.password| < 6
    ensures FirstFailure(Checks(f, isLogin)) == Some(PasswordTooShort)
  {
    FirstFailureAt(Checks(f, isLogin), 2);
  }

  /** In registration mode, once the common checks pass, the phone must be present and exactly ten digits. */
  lemma RegistrationPhoneChecks(f: Credentials)
    requires f.username != "" && |f.username| >= 3 && f.password != "" && |f.password| >= 6
    ensures f.phone == "" ==> FirstFailure(Checks(f, false)) == Some(PhoneRequired)
    ensures f.phone != "" && !IsTenDigits(f.phone) ==> FirstFailure(Checks(f, false)) == Some(PhoneNotTenDigits)
    ensures FirstFailure(Checks(f, false)).None? <==> IsTenDigits(f.phone)
  {
    var cs := Checks(f, false);
    if f.phone == "" {
      FirstFailureAt(cs, 3);
    } else if !IsTenDigits(f.phone) {
      FirstFailureAt(cs, 4);
    }
  }

  /** In sign-in mode the phone is never looked at. */
  lemma SignInIgnoresPhone(f: Credentials, phone: string)
    ensures LoginError(f, true) == LoginError(f.(phone := phone), true)
    ensures FirstFailure(Checks(f, true)).None? <==>
      f.username != "" && |f.username| >= 3 && f.password != "" && |f.password| >= 6
  {
    assert Checks(f, true) == Checks(f.(phone := phone), true);
    var cs := Checks(f, true);
    assert FirstFailure(cs).None? <==> cs[0].passes && cs[1].passes && cs[2].passes;
  }

  /** The credentials with one field replaced by the text typed into it. */
  function WithField(f: Credentials, field: LoginField, value: string): Credentials {
    match field
    case Username => f.(username := value)
    case Password => f.(password := value)
    case Phone => f.(phone := value)
  }

  class Login {
    var isLogin: bool
    var formData: Credentials
    var formError: string

    constructor ()
      ensures isLogin && formData == Credentials("", "", "") && formError == ""
    {
      isLogin := true;
      formData := Credentials("", "", "");
      formError := "";
    }

    method HandleChange(field: LoginField, value: string)
      modifies this`formData
      ensures formData == WithField(old(formData), field, value)
    {
      formData := WithField(formData, field, value);
    }

    /** The link under the button switches between signing in and creating an account. */
    method ToggleMode()
      modifies this`isLogin
      ensures isLogin == !old(isLogin)
    {
      isLogin := !isLogin;
    }

    /**
     * `validateForm`: run the checks in order and stop at the first failure, recording its
     * message; when all pass, clear the error and answer true.
     */
    method ValidateForm() returns (valid: bool)
      modifies this`formError
      ensures valid <==> FirstFailure(Checks(formData, isLogin)).None?
      ensures formError == LoginError(formData, isLogin)
      ensures valid <==> formError == ""
    {
      ghost var cs := Checks(formData, isLogin);
      if formData.username == "" || formData.password == "" {
        FirstFailureAt(cs, 0);
        formError := FillAllFields;
        return false;
      }
      if |formData.username| < 3 {
        FirstFailureAt(cs, 1);
        formError := UsernameTooShort;
        return false;
      }
      if |formData.password| < 6 {
        FirstFailureAt(cs, 2);
        formError := PasswordTooShort;
        return false;
      }
      if !isLogin {
        if formData.phone == "" {
          FirstFailureAt(cs, 3);
          formError := PhoneRequired;
          return false;
        }
        if !IsTenDigits(formData.phone) {
          FirstFailureAt(cs, 4);
          formError := PhoneNotTenDigits;
          return false;
        }
      }
      assert forall i :: 0 <= i < |cs| ==> cs[i].passes;
      formError := "";
      valid := true;
    }

    /** `handleSubmit`: an invalid form makes no auth call; a valid one signs in or registers by mode. */
    method HandleSubmit() returns (request: Option<AuthRequest>)
      modifies this`formError
      ensures formError == LoginError(formData, isLogin)
      ensures request.None? <==> FirstFailure(Checks(formData, isLogin)).Some?
      ensures request.Some? && isLogin ==> request.value == SignIn(formData.username, formData.password)
      ensures request.Some? && !isLogin ==>
        request.value == Register(formData.username, formData.password, formData.phone)
    {
      var valid := ValidateForm();
      if !valid {
        return None;
      }
      if isLogin {
        request := Some(SignIn(formData.username, formData.password));
      } else {
        request := Some(Register(formData.username, formData.password, formData.phone));
      }
    }
  }
}
