/**
 * The sign-up screen (src/screens/SignupScreen.tsx): the four field
 * checks, the strength meter, and the call to `signup`, which is made only
 * when every check passes.
 */
module Signup {
  import opened Wrappers
  import opened Text
  import opened Email
  import opened Password

  const NameRequired: string := "Nome é obrigatório"
  const PasswordRequired: string := "Senha é obrigatória"
  const TooWeak: string := "Senha muito fraca"
  const ConfirmRequired: string := "Confirme sua senha"
  const Mismatch: string := "As senhas não coincidem"

  datatype SignupErrors = SignupErrors(name: string, email: string, password: string, confirmPassword: string)

  /** What `signup` is given. */
  datatype SignupRequest = SignupRequest(name: string, email: string, password: string)

  function NameError(name: string): string {
    if IsBlank(name) then NameRequired else ""
  }

  /** The password field's message: required, then the first strength hint (`Senha muito fraca` when there is none). */
  function PasswordError(password: string): string {
    if password == "" then PasswordRequired
    else if !Strength(password).isValid then
      (var hints := Strength(password).feedback; if |hints| > 0 && hints[0] != "" then hints[0] else TooWeak)
    else ""
  }

  function ConfirmError(password: string, confirmPassword: string): string {
    if confirmPassword == "" then ConfirmRequired
    else if password != confirmPassword then Mismatch
    else ""
  }

  function ErrorsOf(name: string, email: string, password: string, confirmPassword: string): SignupErrors {
    SignupErrors(NameError(name), EmailError(email), PasswordError(password), ConfirmError(password, confirmPassword))
  }

  /** Every hint `validatePasswordStrength` gives is a non-empty message. */
  lemma HintsNonEmpty(pw: string)
    ensures forall i :: 0 <= i < |Strength(pw).feedback| ==> Strength(pw).feedback[i] != ""
  {
    var fb := Strength(pw).feedback;
    assert forall m :: m in fb ==> m != "" by {
      if |pw| >= MinLength {
        GapNonEmpty(LongEnough, pw);
        GapNonEmpty(HasLowercase, pw);
        GapNonEmpty(HasUppercase, pw);
        GapNonEmpty(HasDigit, pw);
        GapNonEmpty(HasSpecial, pw);
        assert fb == CriteriaFeedback(pw) + (if IsCommon(pw) then [CommonMessage] else PenaltyHints(pw));
      }
    }
    forall i | 0 <= i < |fb|
      ensures fb[i] != ""
    {
      assert fb[i] in fb;
    }
  }

  /** A criterion's hint, when there is one, is not empty. */
  lemma GapNonEmpty(c: Criterion, pw: string)
    ensures forall m :: m in Gap(c, pw) ==> m != ""
  {
    assert |Message(c)| > 0;
  }

  /**
   * A rejected password's message is its first strength hint: the
   * `Senha muito fraca` fallback is never shown. An accepted one has none.
   */
  lemma PasswordErrorIsFirstHint(password: string)
    ensures password == "" ==> PasswordError(password) == PasswordRequired
    ensures password != "" && !Strength(password).isValid ==>
      |Strength(password).feedback| > 0 && PasswordError(password) == Strength(password).feedback[0]
    ensures PasswordError(password) == "" <==> Strength(password).isValid
  {
    if !Strength(password).isValid {
      RejectedHasFeedback(password);
      HintsNonEmpty(password);
    }
    if password == "" {
      assert !Strength(password).isValid;
    }
  }

  /**
   * The form passes exactly when the name is not blank, the e-mail matches
   * the pattern, the password is accepted by the strength check, and the
   * confirmation repeats it.
   */
  lemma SignupValidMeans(name: string, email: string, password: string, confirmPassword: string)
    ensures ErrorsOf(name, email, password, confirmPassword) == SignupErrors("", "", "", "") <==>
      !IsBlank(name) && LooksLikeEmail(email) && Strength(password).isValid && confirmPassword == password
  {
    EmailErrorMeans(email);
    PasswordErrorIsFirstHint(password);
  }

  /** The password branch of `validate`, with the strength computed step by step. */
  method CheckPassword(password: string) returns (message: string)
    ensures message == PasswordError(password)
    ensures message != "" <==> !Strength(password).isValid
  {
    PasswordErrorIsFirstHint(password);
    if password == "" {
      return PasswordRequired;
    }
    var strength := ValidatePasswordStrength(password);
    message := "";
    if !strength.isValid {
      message := if |strength.feedback| > 0 && strength.feedback[0] != "" then strength.feedback[0] else TooWeak;
    }
  }

  class SignupScreen {
    var name: string
    var email: string
    var password: string
    var confirmPassword: string
    var loading: bool
    var passwordStrength: PasswordStrength
    var errors: SignupErrors

    constructor ()
      ensures name == "" && email == "" && password == "" && confirmPassword == "" && !loading
      ensures passwordStrength == PasswordStrength(0, [], false) && errors == SignupErrors("", "", "", "")
    {
      name, email, password, confirmPassword, loading := "", "", "", "", false;
      passwordStrength := PasswordStrength(0, [], false);
      errors := SignupErrors("", "", "", "");
    }

    /** `handlePasswordChange`: the field and the meter follow the text typed. */
    method HandlePasswordChange(text: string)
      modifies this`password, this`passwordStrength
      ensures password == text && passwordStrength == Strength(text)
    {
      password := text;
      passwordStrength := ValidatePasswordStrength(text);
    }

    /** `validate`: set the four messages and report whether all are empty. */
    method Validate() returns (valid: bool)
      modifies this`errors
      ensures errors == ErrorsOf(name, email, password, confirmPassword)
      ensures valid <==> errors == SignupErrors("", "", "", "")
    {
      var name, email, password, confirmPassword := name, email, password, confirmPassword;
      valid := true;
      var newErrors := SignupErrors("", "", "", "");
      if IsBlank(name) {
        newErrors := newErrors.(name := NameRequired);
        valid := false;
      }
      if IsBlank(email) {
        newErrors := newErrors.(email := EmailRequired);
        valid := false;
      } else if !LooksLikeEmail(email) {
        newErrors := newErrors.(email := EmailInvalid);
        valid := false;
      }
      var passwordMessage := CheckPassword(password);
      if passwordMessage != "" {
        newErrors := newErrors.(password := passwordMessage);
        valid := false;
      }
      if confirmPassword == "" {
        newErrors := newErrors.(confirmPassword := ConfirmRequired);
        valid := false;
      } else if password != confirmPassword {
        newErrors := newErrors.(confirmPassword := Mismatch);
        valid := false;
      }
      errors := newErrors;
    }

    /**
     * `handleSignup`: `signup` gets the trimmed name and e-mail and the
     * password as typed, only when `validate` passes; loading is over
     * whatever `signup` did.
     */
    method HandleSignup() returns (sent: Option<SignupRequest>)
      modifies this`errors, this`loading
      ensures errors == ErrorsOf(name, email, password, confirmPassword)
      ensures sent.Some? <==> !IsBlank(name) && LooksLikeEmail(email) && Strength(password).isValid && confirmPassword == password
      ensures sent.Some? ==> sent.value == SignupRequest(Trim(name), Trim(email), password)
      ensures sent.Some? ==> !loading
      ensures sent.None? ==> loading == old(loading)
    {
      var valid := Validate();
      SignupValidMeans(name, email, password, confirmPassword);
      if !valid {
        return None;
      }
      loading := true;
      sent := Some(SignupRequest(Trim(name), Trim(email), password));
      loading := false;
    }
  }
}
