/** The verify-email page: it checks the token of its address once, and offers to send the
    link again, after which the offer waits out a sixty-second cooldown. */
module VerifyEmailPage {
  import opened Common
  import opened Http
  import opened Forms
  import opened AuthContext

  datatype Status = Idle | Verifying | Verified | Failed

  datatype VerifyBody = VerifyBody(success: bool, error: Option<string>)
  datatype ResendBody = ResendBody(error: Option<string>)

  const VerificationFailed: string := "Verification failed"
  const NetworkError: string := "Network error. Please try again."
  const ResendFailed: string := "Failed to resend"
  const Cooldown: int := 60
  const VerifiedToast: string := "Email verified successfully!"

  /** "Sending...", "Resend in {n}s", or the invitation to resend. */
  datatype Caption = Sending | ResendIn(seconds: int) | ResendPrompt

  /** The status and message that the verification request ends with. */
  function VerifyResult(outcome: Outcome<VerifyBody>): (r: (Status, string))
    ensures r.0 == Verified <==> outcome.Ok? && outcome.body.success
    ensures r.0 != Verified ==> r.0 == Failed
    ensures outcome.Threw? ==> r.1 == NetworkError
    ensures !outcome.Threw? && !(outcome.Ok? && outcome.body.success) ==> r.1 == OrElse(outcome.body.error, VerificationFailed)
    ensures r.0 == Failed ==> r.1 != ""
  {
    match outcome
    case Ok(body) => if body.success then (Verified, "") else (Failed, OrElse(body.error, VerificationFailed))
    case NotOk(body) => (Failed, OrElse(body.error, VerificationFailed))
    case Threw(_) => (Failed, NetworkError)
  }

  class VerifyEmailView {
    const token: Option<string>
    var status: Status
    var errorMessage: string
    var isResending: bool
    var resendCooldown: int

    ghost predicate Valid()
      reads this
    {
      0 <= resendCooldown <= Cooldown
    }

    constructor(token: Option<string>)
      ensures Valid()
      ensures this.token == token && status == (if Truthy(token) then Verifying else Idle)
      ensures errorMessage == "" && !isResending && resendCooldown == 0
    {
      this.token := token;
      status := if Truthy(token) then Verifying else Idle;
      errorMessage := "";
      isResending := false;
      resendCooldown := 0;
    }

    /** The end of the verification the page starts when it has a token; only such a page
        verifies. */
    method VerifyDone(outcome: Outcome<VerifyBody>) returns (refresh: bool, toast: Option<Toast>)
      requires Valid() && Truthy(token)
      modifies this
      ensures Valid()
      ensures status == VerifyResult(outcome).0
      ensures status == Failed ==> errorMessage == VerifyResult(outcome).1
      ensures status == Verified ==> errorMessage == old(errorMessage)
      ensures refresh <==> status == Verified
      ensures status == Verified ==> toast == Some(SuccessToast(VerifiedToast))
      ensures status != Verified ==> toast.None?
      ensures isResending == old(isResending) && resendCooldown == old(resendCooldown)
    {
      var r := VerifyResult(outcome);
      status := r.0;
      if r.0 != Verified {
        errorMessage := r.1;
        toast := None;
      } else {
        toast := Some(SuccessToast(VerifiedToast));
      }
      refresh := r.0 == Verified;
    }

    /** One second of the cooldown timer, which runs only while the cooldown is positive. */
    method Tick()
      requires Valid()
      modifies this
      ensures Valid()
      ensures resendCooldown == (if old(resendCooldown) > 0 then old(resendCooldown) - 1 else old(resendCooldown))
      ensures status == old(status) && errorMessage == old(errorMessage) && isResending == old(isResending)
    {
      if resendCooldown > 0 {
        resendCooldown := resendCooldown - 1;
      }
    }

    /** Whether a resend button is shown: always on the waiting page, and on the failure page
        only for a signed-in user whose address is unverified. */
    predicate ResendButtonShown(user: Option<User>)
      reads this
    {
      status == Idle || (status == Failed && user.Some? && !user.value.emailVerified)
    }

    /** Whether the shown resend button is disabled. */
    predicate ResendDisabled(user: Option<User>)
      reads this
    {
      isResending || resendCooldown > 0 || (status == Idle && user.None?)
    }

    /** Pressing the resend button; nothing happens when it is hidden or disabled. */
    method ClickResend(user: Option<User>) returns (sent: bool)
      requires Valid()
      modifies this
      ensures Valid()
      ensures sent <==> old(ResendButtonShown(user)) && !old(ResendDisabled(user))
      ensures sent ==> isResending
      ensures !sent ==> isResending == old(isResending)
      ensures status == old(status) && errorMessage == old(errorMessage) && resendCooldown == old(resendCooldown)
    {
      sent := ResendButtonShown(user) && !ResendDisabled(user);
      if sent {
        isResending := true;
      }
    }

    /** The end of a resend: a sent email starts the cooldown. */
    method ResendDone(outcome: Outcome<ResendBody>) returns (toast: Toast)
      requires Valid()
      modifies this
      ensures Valid()
      ensures !isResending
      ensures outcome.Ok? ==> toast == SuccessToast("Verification email sent!") && resendCooldown == Cooldown
      ensures outcome.NotOk? ==> toast == ErrorToast(OrElse(outcome.body.error, ResendFailed))
      ensures outcome.Threw? ==> toast == ErrorToast(outcome.message)
      ensures !outcome.Ok? ==> resendCooldown == old(resendCooldown)
      ensures status == old(status) && errorMessage == old(errorMessage)
    {
      match outcome {
        case Ok(_) =>
          toast := SuccessToast("Verification email sent!");
          resendCooldown := Cooldown;
        case NotOk(body) =>
          toast := ErrorToast(OrElse(body.error, ResendFailed));
        case Threw(message) =>
          toast := ErrorToast(message);
      }
      isResending := false;
    }

    /** The caption of the resend button. */
    function ResendCaption(): (c: Caption)
      reads this
      ensures isResending ==> c == Sending
      ensures !isResending && resendCooldown > 0 ==> c == ResendIn(resendCooldown)
      ensures c == ResendPrompt <==> !isResending && resendCooldown <= 0
    {
      if isResending then Sending else if resendCooldown > 0 then ResendIn(resendCooldown) else ResendPrompt
    }

    function Title(): (t: string)
      reads this
      ensures status == Verified ==> t == "Email Verified!"
      ensures status == Failed ==> t == "Verification Failed"
      ensures status == Idle || status == Verifying ==> t == "Check Your Email"
    {
      if status == Verified then "Email Verified!" else if status == Failed then "Verification Failed" else "Check Your Email"
    }
  }

  /** For a signed-in user, the button invites a resend exactly when it can be pressed. */
  lemma PromptIffEnabled(v: VerifyEmailView, user: User)
    ensures v.ResendCaption() == ResendPrompt <==> !v.ResendDisabled(Some(user))
  {
  }

  /** After an email is sent again, the resend button stays disabled for exactly sixty ticks. */
  method CooldownRunsOut(user: User) returns (disabledAt59: bool, enabledAt60: bool)
    ensures disabledAt59 && enabledAt60
  {
    var page := new VerifyEmailView(None);
    var sent := page.ClickResend(Some(user));
    var toast := page.ResendDone(Ok(ResendBody(None)));
    var ticks := 0;
    while ticks < Cooldown - 1
      invariant 0 <= ticks <= Cooldown - 1
      invariant page.Valid() && page.resendCooldown == Cooldown - ticks
      invariant page.status == Idle && !page.isResending
    {
      page.Tick();
      ticks := ticks + 1;
    }
    disabledAt59 := page.ResendDisabled(Some(user));
    page.Tick();
    enabledAt60 := !page.ResendDisabled(Some(user));
  }
}
