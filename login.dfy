/**
 * The sign-in / sign-up form (`pages/login.tsx`): the ordered validation
 * checks that run before any call to the identity provider, and the mode
 * toggle.
 */
module Login {
  import opened Wrappers

  const FillAllFields := "Please fill in all fields"
  const EnterName := "Please enter your name"
  const PasswordsDiffer := "Passwords do not match"
  const PasswordTooShort := "Password must be at least 8 characters"

  /** The shortest password sign-up accepts. */
  const MinPasswordLength := 8

  /**
   * The first failing check of `handleSubmit`, or `None` when the form may
   * go on to the identity provider. Empty email or password fails first in
   * both modes; sign-up then asks for a name, matching passwords and a
   * long enough password, in that order.
   */
  function ValidationError(isLogin: bool, email: string, password: string, confirmPassword: string, name: string): (r: Option<string>)
    ensures r.None? <==>
              email != "" && password != "" &&
              (!isLogin ==> name != "" && password == confirmPassword && |password| >= MinPasswordLength)
    ensures r.Some? ==> r.value in [FillAllFields, EnterName, PasswordsDiffer, PasswordTooShort]
  {
    if email == "" || password == "" then Some(FillAllFields)
    else if !isLogin && name == "" then Some(EnterName)
    else if !isLogin && password != confirmPassword then Some(PasswordsDiffer)
    else if !isLogin && |password| < MinPasswordLength then Some(PasswordTooShort)
    else None
  }

  /** A missing email or password is reported first, whatever else is wrong and in either mode. */
  lemma MissingFieldsReportedFirst(isLogin: bool, email: string, password: string, confirmPassword: string, name: string)
    requires email == "" || password == ""
    ensures ValidationError(isLogin, email, password, confirmPassword, name) == Some(FillAllFields)
  {
  }

  /** Signing in checks nothing but the presence of email and password. */
  lemma SignInChecksPresenceOnly(email: string, password: string, c1: string, n1: string, c2: string, n2: string)
    ensures ValidationError(true, email, password, c1, n1) == ValidationError(true, email, password, c2, n2)
    ensures ValidationError(true, email, password, c1, n1) != Some(EnterName)
    ensures ValidationError(true, email, password, c1, n1) != Some(PasswordsDiffer)
    ensures ValidationError(true, email, password, c1, n1) != Some(PasswordTooShort)
  {
  }

  /**
   * In sign-up mode each message names the first check that fails: a
   * message implies that every earlier check passed and this one failed.
   */
  lemma SignUpChecksInOrder(email: string, password: string, confirmPassword: string, name: string)
    requires email != "" && password != ""
    ensures ValidationError(false, email, password, confirmPassword, name) == Some(EnterName) <==> name == ""
    ensures ValidationError(false, email, password, confirmPassword, name) == Some(PasswordsDiffer) <==>
              name != "" && password != confirmPassword
    ensures ValidationError(false, email, password, confirmPassword, name) == Some(PasswordTooShort) <==>
              name != "" && password == confirmPassword && |password| < MinPasswordLength
  {
  }

  /** The state of the `LoginSignup` form. */
  class LoginForm {
    var isLogin: bool
    var email: string
    var password: string
    var confirmPassword: string
    var name: string
    var error: string
    var isLoading: bool

    /** The form as first shown: sign-in mode, every field empty, not loading. */
    constructor()
      ensures isLogin && email == "" && password == "" && confirmPassword == "" && name == ""
      ensures error == "" && !isLoading
    {
      isLogin := true;
      email := "";
      password := "";
      confirmPassword := "";
      name := "";
      error := "";
      isLoading := false;
    }

    /**
     * The synchronous start of `handleSubmit`: the error is cleared and
     * loading starts, then the checks run. A failing check shows its
     * message, stops loading and returns before any call to the identity
     * provider; `proceed` says whether that call would be made.
     */
    method Validate() returns (proceed: bool)
      modifies this
      ensures proceed <==> ValidationError(isLogin, email, password, confirmPassword, name).None?
      ensures !proceed ==> error == ValidationError(isLogin, email, password, confirmPassword, name).value && !isLoading
      ensures proceed ==> error == "" && isLoading
      ensures isLogin == old(isLogin) && email == old(email) && password == old(password)
      ensures confirmPassword == old(confirmPassword) && name == old(name)
    {
      error := "";
      isLoading := true;
      if email == "" || password == "" {
        error := FillAllFields;
        isLoading := false;
        return false;
      }
      if !isLogin {
        if name == "" {
          error := EnterName;
          isLoading := false;
          return false;
        }
        if password != confirmPassword {
          error := PasswordsDiffer;
          isLoading := false;
          return false;
        }
        if |password| < MinPasswordLength {
          error := PasswordTooShort;
          isLoading := false;
          return false;
        }
      }
      return true;
    }

    /**
     * The mode toggle: the mode flips, the error and both password fields
     * are cleared, email and name are kept. Submitting right after a
     * toggle therefore always stops at the first check.
     */
    method ToggleMode()
      modifies this
      ensures isLogin == !old(isLogin)
      ensures error == "" && password == "" && confirmPassword == ""
      ensures email == old(email) && name == old(name) && isLoading == old(isLoading)
      ensures ValidationError(isLogin, email, password, confirmPassword, name) == Some(FillAllFields)
    {
      isLogin := !isLogin;
      error := "";
      password := "";
      confirmPassword := "";
    }
  }
}
