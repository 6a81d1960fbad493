/** The password-reset form: two matching passwords of six or more characters
    start the update. */
module ResetPassword {
  import opened Wrappers
  import opened Text

  datatype ResetError = PasswordsDiffer | PasswordTooShort

  /** The shortest accepted password, in UTF-16 code units (`password.length`). */
  const MinLength: nat := 6

  /** The two guards of `handleSubmit`, mismatch first. */
  function CheckReset(password: string, confirmPassword: string): (r: Option<ResetError>)
    ensures r == Some(PasswordsDiffer) <==> password != confirmPassword
    ensures r == Some(PasswordTooShort) <==>
      password == confirmPassword && Utf16Length(password) < MinLength
    ensures r.None? <==> password == confirmPassword && Utf16Length(password) >= MinLength
  {
    if password != confirmPassword then Some(PasswordsDiffer)
    else if Utf16Length(password) < MinLength then Some(PasswordTooShort)
    else None
  }

  /** A short mismatched pair is reported as a mismatch. */
  lemma ShortMismatchReportsMismatch(password: string, confirmPassword: string)
    requires password != confirmPassword && |password| < MinLength
    ensures CheckReset(password, confirmPassword) == Some(PasswordsDiffer)
  {
  }

  class ResetPasswordPage {
    var password: string
    var confirmPassword: string
    var loading: bool

    constructor()
      ensures password == "" && confirmPassword == "" && !loading
    {
      password := "";
      confirmPassword := "";
      loading := false;
    }

    method SetPassword(v: string)
      modifies this
      ensures password == v && confirmPassword == old(confirmPassword) && loading == old(loading)
    {
      password := v;
    }

    method SetConfirmPassword(v: string)
      modifies this
      ensures confirmPassword == v && password == old(password) && loading == old(loading)
    {
      confirmPassword := v;
    }

    /** `handleSubmit`: a failed guard changes nothing; a passed one turns the
        spinner on. The passwords are never changed. */
    method Submit() returns (r: Option<ResetError>)
      modifies this
      ensures r == CheckReset(password, confirmPassword)
      ensures password == old(password) && confirmPassword == old(confirmPassword)
      ensures r.Some? ==> loading == old(loading)
      ensures r.None? ==> loading
      ensures loading && !old(loading) ==>
        password == confirmPassword && Utf16Length(password) >= MinLength
    {
      r := CheckReset(password, confirmPassword);
      if r.None? {
        loading := true;
      }
    }

    /** The timer callback: the spinner stops and the page navigates to the dashboard. */
    method Finish() returns (navigateToDashboard: bool)
      modifies this
      ensures !loading && navigateToDashboard
      ensures password == old(password) && confirmPassword == old(confirmPassword)
    {
      loading := false;
      navigateToDashboard := true;
    }
  }
}
