/**
 * The sign-in form of the client: three submit handlers (sign in or sign
 * up, send a reset link, set a new password) that clear the messages, call
 * the authentication service, and change the form's fields by the outcome.
 *
 * The service's answer is a parameter: it succeeded, it answered with an
 * error message, or the call threw.
 */
module AuthForm {
  import opened Wrappers

  datatype Outcome = Succeeded | Refused(message: string) | Threw

  /** The service call a handler makes, with its arguments. */
  datatype Call =
    | SignUp(email: string, password: string)
    | SignIn(email: string, password: string)
    | SendResetLink(email: string)
    | UpdatePassword(password: string)

  /** The form's fields. */
  datatype FormState = FormState(
    isSignUp: bool,
    isForgotPassword: bool,
    isResetPassword: bool,
    email: string,
    password: string,
    newPassword: string,
    confirmPassword: string,
    error: string,
    success: string,
    loading: bool)

  const MismatchMessage: string := "Passwords do not match"
  const TooShortMessage: string := "Password must be at least 6 characters"
  const UnexpectedMessage: string := "An unexpected error occurred"
  const AccountCreatedMessage: string :=
    "Account created! Please check your email to verify your account before signing in."
  const ResetLinkSentMessage: string :=
    "Password reset link sent to your email. Check your inbox to proceed."
  const PasswordUpdatedMessage: string :=
    "Password updated successfully! You can now sign in with your new password."
  const MinPasswordLength: nat := 6

  /** The message an unsuccessful call leaves in `error`. */
  function FailureMessage(o: Outcome): string
    requires !o.Succeeded?
  {
    if o.Refused? then o.message else UnexpectedMessage
  }

  /**
   * The checks of `handleResetPassword` before any call: a mismatch is
   * reported first, then a password shorter than six characters.
   */
  function ResetProblem(newPassword: string, confirmPassword: string): (r: Option<string>)
    ensures r.None? <==> newPassword == confirmPassword && |newPassword| >= MinPasswordLength
    ensures r == Some(MismatchMessage) <==> newPassword != confirmPassword
    ensures r == Some(TooShortMessage) <==> newPassword == confirmPassword && |newPassword| < MinPasswordLength
  {
    if newPassword != confirmPassword then Some(MismatchMessage)
    else if |newPassword| < MinPasswordLength then Some(TooShortMessage)
    else None
  }

  // --------------------------------------------- the three transitions

  /**
   * `handleSubmit`: a successful sign-up reports it, clears the credentials
   * and returns to sign-in mode; a successful sign-in changes no field
   * besides the cleared messages; a failure sets its message.
   */
  function Submitted(s: FormState, o: Outcome): (r: FormState)
    ensures r.error == (if o.Succeeded? then "" else FailureMessage(o))
    ensures r.success == (if o.Succeeded? && s.isSignUp then AccountCreatedMessage else "")
    ensures !r.loading
    ensures o.Succeeded? && s.isSignUp ==> r.email == "" && r.password == "" && !r.isSignUp
    ensures !(o.Succeeded? && s.isSignUp) ==>
              r.email == s.email && r.password == s.password && r.isSignUp == s.isSignUp
    ensures r.isForgotPassword == s.isForgotPassword && r.isResetPassword == s.isResetPassword
    ensures r.newPassword == s.newPassword && r.confirmPassword == s.confirmPassword
  {
    var s := s.(error := "", success := "", loading := true);
    var s := match o
      case Succeeded =>
        if s.isSignUp then s.(success := AccountCreatedMessage, email := "", password := "", isSignUp := false)
        else s
      case Refused(m) => s.(error := m)
      case Threw => s.(error := UnexpectedMessage);
    s.(loading := false)
  }

  /** `handleForgotPassword`: a sent link is reported and the e-mail field cleared. */
  function ForgotSubmitted(s: FormState, o: Outcome): (r: FormState)
    ensures r.error == (if o.Succeeded? then "" else FailureMessage(o))
    ensures r.success == (if o.Succeeded? then ResetLinkSentMessage else "")
    ensures r.email == (if o.Succeeded? then "" else s.email)
    ensures !r.loading
    ensures r.(error := s.error, success := s.success, email := s.email, loading := s.loading) == s
  {
    var s := s.(error := "", success := "", loading := true);
    var s := match o
      case Succeeded => s.(success := ResetLinkSentMessage, email := "")
      case Refused(m) => s.(error := m)
      case Threw => s.(error := UnexpectedMessage);
    s.(loading := false)
  }

  /**
   * `handleResetPassword`: a validation problem is reported without a call
   * and without touching `loading`; otherwise a successful update clears
   * both password fields and leaves reset mode.
   */
  function ResetSubmitted(s: FormState, o: Outcome): (r: FormState)
    ensures ResetProblem(s.newPassword, s.confirmPassword).Some? ==>
              r == s.(error := ResetProblem(s.newPassword, s.confirmPassword).value, success := "")
    ensures ResetProblem(s.newPassword, s.confirmPassword).None? ==>
              && !r.loading
              && r.error == (if o.Succeeded? then "" else FailureMessage(o))
              && r.success == (if o.Succeeded? then PasswordUpdatedMessage else "")
              && (o.Succeeded? ==> r.newPassword == "" && r.confirmPassword == "" && !r.isResetPassword)
              && (!o.Succeeded? ==> r.newPassword == s.newPassword && r.confirmPassword == s.confirmPassword
                                    && r.isResetPassword == s.isResetPassword)
    ensures r.isSignUp == s.isSignUp && r.isForgotPassword == s.isForgotPassword
    ensures r.email == s.email && r.password == s.password
  {
    var s := s.(error := "", success := "");
    match ResetProblem(s.newPassword, s.confirmPassword)
    case Some(problem) => s.(error := problem)
    case None =>
      var s := s.(loading := true);
      var s := match o
        case Succeeded =>
          s.(success := PasswordUpdatedMessage, newPassword := "", confirmPassword := "", isResetPassword := false)
        case Refused(m) => s.(error := m)
        case Threw => s.(error := UnexpectedMessage);
      s.(loading := false)
  }

  /** The call `handleResetPassword` makes, if any. */
  function ResetCall(s: FormState): (c: Option<Call>)
    ensures c.Some? <==> ResetProblem(s.newPassword, s.confirmPassword).None?
  {
    if ResetProblem(s.newPassword, s.confirmPassword).None? then Some(UpdatePassword(s.newPassword)) else None
  }

  /**
   * Every handler clears `error` and `success` before anything else: the
   * messages a submit leaves never depend on those held before it.
   */
  lemma MessagesCleared(s: FormState, o: Outcome, error: string, success: string)
    ensures var t := s.(error := error, success := success);
            && Submitted(t, o) == Submitted(s, o)
            && ForgotSubmitted(t, o) == ForgotSubmitted(s, o)
            && ResetSubmitted(t, o) == ResetSubmitted(s, o)
  {
  }

  // ------------------------------------------------------------ the form

  class Form {
    var isSignUp: bool
    var isForgotPassword: bool
    var isResetPassword: bool
    var email: string
    var password: string
    var newPassword: string
    var confirmPassword: string
    var error: string
    var success: string
    var loading: bool

    function State(): FormState
      reads this
    {
      FormState(isSignUp, isForgotPassword, isResetPassword, email, password,
                newPassword, confirmPassword, error, success, loading)
    }

    /** The form as first shown; `resetRequested` is whether the page address has `reset=true`. */
    constructor (resetRequested: bool)
      ensures State() == FormState(false, false, resetRequested, "", "", "", "", "", "", false)
    {
      isSignUp, isForgotPassword, isResetPassword := false, false, resetRequested;
      email, password, newPassword, confirmPassword := "", "", "", "";
      error, success, loading := "", "", false;
    }

    method HandleSubmit(outcome: Outcome) returns (call: Call)
      modifies this
      ensures call == if old(isSignUp) then SignUp(old(email), old(password)) else SignIn(old(email), old(password))
      ensures State() == Submitted(old(State()), outcome)
    {
      error := "";
      success := "";
      loading := true;
      call := if isSignUp then SignUp(email, password) else SignIn(email, password);
      match outcome {
        case Refused(m) =>
          error := m;
        case Threw =>
          error := UnexpectedMessage;
        case Succeeded =>
          if isSignUp {
            success := AccountCreatedMessage;
            email := "";
            password := "";
            isSignUp := false;
          }
      }
      loading := false;
    }

    method HandleForgotPassword(outcome: Outcome) returns (call: Call)
      modifies this
      ensures call == SendResetLink(old(email))
      ensures State() == ForgotSubmitted(old(State()), outcome)
    {
      error := "";
      success := "";
      loading := true;
      call := SendResetLink(email);
      match outcome {
        case Refused(m) =>
          error := m;
        case Threw =>
          error := UnexpectedMessage;
        case Succeeded =>
          success := ResetLinkSentMessage;
          email := "";
      }
      loading := false;
    }

    method HandleResetPassword(outcome: Outcome) returns (call: Option<Call>)
      modifies this
      ensures call == ResetCall(old(State()))
      ensures State() == ResetSubmitted(old(State()), outcome)
    {
      error := "";
      success := "";
      if newPassword != confirmPassword {
        error := MismatchMessage;
        return None;
      }
      if |newPassword| < MinPasswordLength {
        error := TooShortMessage;
        return None;
      }
      loading := true;
      call := Some(UpdatePassword(newPassword));
      match outcome {
        case Refused(m) =>
          error := m;
        case Threw =>
          error := UnexpectedMessage;
        case Succeeded =>
          success := PasswordUpdatedMessage;
          newPassword := "";
          confirmPassword := "";
          isResetPassword := false;
      }
      loading := false;
    }
  }
}
