/**
 * The login screen (src/screens/LoginScreen.tsx): the two field checks
 * and the call to `login`, which is made only when both pass.
 */
module Login {
  import opened Wrappers
  import opened Text
  import opened Email

  const PasswordRequired: string := "Senha é obrigatória"
  const PasswordShort: string := "Senha deve ter no mínimo 6 caracteres"

  datatype LoginErrors = LoginErrors(email: string, password: string)

  /** What `login` is given. */
  datatype Credentials = Credentials(email: string, password: string)

  /** The password field's message: required, then at least six characters. */
  function PasswordError(password: string): string {
    if password == "" then PasswordRequired
    else if |password| < 6 then PasswordShort
    else ""
  }

  /** The form passes exactly when the e-mail matches the pattern and the password has at least six characters. */
  lemma LoginValidMeans(email: string, password: string)
    ensures EmailError(email) == "" && PasswordError(password) == "" <==> LooksLikeEmail(email) && |password| >= 6
  {
    EmailErrorMeans(email);
  }

  class LoginScreen {
    var email: string
    var password: string
    var loading: bool
    var errors: LoginErrors

    constructor ()
      ensures email == "" && password == "" && !loading && errors == LoginErrors("", "")
    {
      email, password, loading := "", "", false;
      errors := LoginErrors("", "");
    }

    /** `validate`: set both messages and report whether both are empty. */
    method Validate() returns (valid: bool)
      modifies this`errors
      ensures errors == LoginErrors(EmailError(email), PasswordError(password))
      ensures valid <==> errors == LoginErrors("", "")
    {
      valid := true;
      var newErrors := LoginErrors("", "");
      if IsBlank(email) {
        newErrors := newErrors.(email := EmailRequired);
        valid := false;
      } else if !LooksLikeEmail(email) {
        newErrors := newErrors.(email := EmailInvalid);
        valid := false;
      }
      if password == "" {
        newErrors := newErrors.(password := PasswordRequired);
        valid := false;
      } else if |password| < 6 {
        newErrors := newErrors.(password := PasswordShort);
        valid := false;
      }
      errors := newErrors;
    }

    /**
     * `handleLogin`: `login` gets the trimmed e-mail and the password only
     * when `validate` passes; loading is over whatever `login` did (its
     * errors are handled by the session context).
     */
    method HandleLogin() returns (sent: Option<Credentials>)
      modifies this`errors, this`loading
      ensures errors == LoginErrors(EmailError(email), PasswordError(password))
      ensures sent.Some? <==> LooksLikeEmail(email) && |password| >= 6
      ensures sent.Some? ==> sent.value == Credentials(Trim(email), password) && LooksLikeEmail(sent.value.email)
      ensures sent.Some? ==> !loading
      ensures sent.None? ==> loading == old(loading)
    {
      var valid := Validate();
      LoginValidMeans(email, password);
      if !valid {
        return None;
      }
      loading := true;
      EmailErrorMeans(email);
      sent := Some(Credentials(Trim(email), password));
      loading := false;
    }
  }
}
