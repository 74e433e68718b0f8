/**
 * The sign-up form's submit: the password confirmation is checked first,
 * then the two agreements, and only then is the account requested.
 */
module SignUp {
  import opened Wrappers

  datatype SignUpError = PasswordMismatch | AgreementsMissing

  function Message(e: SignUpError): string {
    match e
    case PasswordMismatch => "Passwords do not match"
    case AgreementsMissing => "Please agree to Terms & Conditions and Privacy Policy"
  }

  /** The checks `handleSubmit` makes before calling `signUp`, in their order. */
  function Check(password: string, confirmPassword: string, agreeTerms: bool, agreePrivacy: bool): (r: Option<SignUpError>)
    ensures r == Some(PasswordMismatch) <==> password != confirmPassword
    ensures r == Some(AgreementsMissing) <==> password == confirmPassword && !(agreeTerms && agreePrivacy)
  {
    if password != confirmPassword then Some(PasswordMismatch)
    else if !agreeTerms || !agreePrivacy then Some(AgreementsMissing)
    else None
  }

  /** A mismatch is reported whatever the agreements are. */
  lemma MismatchFirst(password: string, confirmPassword: string, agreeTerms: bool, agreePrivacy: bool)
    requires password != confirmPassword
    ensures Check(password, confirmPassword, agreeTerms, agreePrivacy) == Check(password, confirmPassword, true, true)
  {
  }

  /** How the `signUp` call ends: it succeeds, throws an `Error` with a message, or throws something else. */
  datatype Attempt = Succeeded | ThrewError(message: string) | ThrewOther

  /** The message shown when `signUp` throws. */
  function FailureMessage(a: Attempt): (m: string)
    requires !a.Succeeded?
    ensures a.ThrewError? ==> m == a.message
    ensures a.ThrewOther? ==> m == "Failed to create account. Please try again."
  {
    if a.ThrewError? then a.message else "Failed to create account. Please try again."
  }

  /** The arguments `signUp` is called with. */
  datatype Request = Request(email: string, password: string, fullName: string, phone: string)

  class SignUpForm {
    var fullName: string
    var email: string
    var phone: string
    var password: string
    var confirmPassword: string
    var agreeTerms: bool
    var agreePrivacy: bool
    var error: string
    var loading: bool

    constructor()
      ensures fullName == "" && email == "" && phone == "" && password == "" && confirmPassword == ""
      ensures !agreeTerms && !agreePrivacy && error == "" && !loading
    {
      fullName, email, phone, password, confirmPassword := "", "", "", "", "";
      agreeTerms, agreePrivacy := false, false;
      error, loading := "", false;
    }

    /**
     * `handleSubmit`: clears the error; a failed check sets its message and
     * requests nothing; otherwise `signUp` is called once with the form's
     * fields, and `attempt` says how it ended.
     */
    method Submit(attempt: Attempt) returns (sent: Option<Request>, succeeded: bool)
      modifies this
      ensures var c := Check(old(password), old(confirmPassword), old(agreeTerms), old(agreePrivacy));
        (c.Some? ==> sent == None && !succeeded && error == Message(c.value) && loading == old(loading))
        && (c.None? ==>
          sent == Some(Request(old(email), old(password), old(fullName), old(phone)))
          && succeeded == attempt.Succeeded? && !loading
          && error == (if attempt.Succeeded? then "" else FailureMessage(attempt)))
      ensures fullName == old(fullName) && email == old(email) && phone == old(phone)
      ensures password == old(password) && confirmPassword == old(confirmPassword)
      ensures agreeTerms == old(agreeTerms) && agreePrivacy == old(agreePrivacy)
    {
      error := "";
      var c := Check(password, confirmPassword, agreeTerms, agreePrivacy);
      if c.Some? {
        error := Message(c.value);
        return None, false;
      }
      loading := true;
      sent := Some(Request(email, password, fullName, phone));
      if attempt.Succeeded? {
        succeeded := true;
      } else {
        succeeded := false;
        error := FailureMessage(attempt);
      }
      loading := false;
    }
  }
}
