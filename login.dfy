/** Signing in: the two guards and the handling of the outcome. */
module Login {
  import opened Wrappers
  import opened Alerts

  const InvalidEmail: string := "Please enter a valid email!"
  const InvalidPassword: string := "Please enter a valid password!"
  const SignInFailed: string := "Invalid email or Password"

  /** The guards of `login_pressed`: the email is checked before the password. */
  function LoginValidation(email: string, password: string): (r: Option<string>)
    ensures r.None? <==> email != "" && password != ""
    ensures r == Some(InvalidEmail) <==> email == ""
    ensures r == Some(InvalidPassword) <==> email != "" && password == ""
  {
    if email == "" then Some(InvalidEmail)
    else if password == "" then Some(InvalidPassword)
    else None
  }

  class LoginScreen {
    var emailText: string
    var passwordText: string

    constructor ()
      ensures emailText == "" && passwordText == ""
    {
      emailText, passwordText := "", "";
    }

    /**
     * `login_pressed` and the sign-in completion: sign-in is attempted only
     * past both guards; then both fields are cleared whatever the outcome,
     * and only success navigates home.
     */
    method LoginPressed(signInOk: bool) returns (attempted: bool, alert: Alert, navigated: bool)
      modifies this
      ensures attempted <==> old(emailText) != "" && old(passwordText) != ""
      ensures !attempted ==>
        && alert == ErrorAlert(LoginValidation(old(emailText), old(passwordText)).value)
        && !navigated && emailText == old(emailText) && passwordText == old(passwordText)
      ensures attempted ==>
        && emailText == "" && passwordText == ""
        && navigated == signInOk
        && alert == if signInOk then LoginSuccess else ErrorAlert(SignInFailed)
    {
      var invalid := LoginValidation(emailText, passwordText);
      if invalid.Some? {
        return false, ErrorAlert(invalid.value), false;
      }
      attempted := true;
      emailText, passwordText := "", "";
      if signInOk {
        navigated, alert := true, LoginSuccess;
      } else {
        navigated, alert := false, ErrorAlert(SignInFailed);
      }
    }
  }
}
