/** The reset-password page: the password rules (those of the register page), and the status of
    the one reset request the page sends for the token in its address. */
module ResetPasswordPage {
  import opened Common
  import opened Http
  import opened Forms
  import opened PasswordPolicy
  import RegisterPage

  const NoToken: string := "No reset token found. Please request a new password reset."
  const ResetFailed: string := "Failed to reset password"
  const ResetDone: string := "Password reset successfully!"

  /** `resetPasswordSchema`: the password rules and a matching confirmation. */
  function ResetIssues(password: string, confirm: string): (r: seq<Issue>)
    ensures r == [] <==> Acceptable(password) && password == confirm
  {
    OnPassword(PasswordIssues(password)) +
    (if password != confirm then [Issue(ConfirmPassword, PasswordsDiffer)] else [])
  }

  function OnPassword(messages: seq<string>): (r: seq<Issue>)
    ensures |r| == |messages|
    ensures forall i :: 0 <= i < |r| ==> r[i] == Issue(Password, messages[i])
  {
    if messages == [] then [] else [Issue(Password, messages[0])] + OnPassword(messages[1..])
  }

  /** The reset schema is the register schema without its email field. */
  lemma {:induction false} SameRulesAsRegister(password: string, confirm: string)
    ensures ResetIssues(password, confirm) == RegisterPage.RegisterIssues(true, password, confirm)
  {
    var p := PasswordIssues(password);
    var a := OnPassword(p);
    var b := RegisterPage.OnField(Password, p);
    assert |a| == |b|;
    assert forall i :: 0 <= i < |a| ==> a[i] == b[i];
    assert a == b;
    assert [] + b == b;
  }

  datatype Status = Ready | Submitting | Success | Failed

  /** The body posted to `/api/auth/reset-password`. */
  datatype ResetRequest = ResetRequest(token: string, password: string)

  /** The body of the answer, as far as the page reads it. */
  datatype ResetBody = ResetBody(error: Option<string>)

  class ResetPasswordForm {
    /** The `token` parameter of the page's address. */
    const token: Option<string>
    var status: Status
    var errorMessage: string
    /** `submittingRef`: set by the first accepted submit and never cleared. */
    var submitting: bool
    /** Every request the page has sent. */
    ghost var sent: seq<ResetRequest>

    ghost predicate Valid()
      reads this
    {
      |sent| <= 1 &&
      (submitting <==> |sent| == 1) &&
      (sent != [] ==> Truthy(token) && sent[0].token == token.value) &&
      (!submitting ==> status == (if Truthy(token) then Ready else Failed)) &&
      (status == Ready ==> !submitting)
    }

    constructor(token: Option<string>)
      ensures Valid()
      ensures this.token == token && !submitting && sent == []
      ensures status == (if Truthy(token) then Ready else Failed)
      ensures errorMessage == (if Truthy(token) then "" else NoToken)
    {
      this.token := token;
      status := if Truthy(token) then Ready else Failed;
      errorMessage := if Truthy(token) then "" else NoToken;
      submitting := false;
      sent := [];
    }

    /** The form's submit: the schema first, then `onSubmit`, which sends the request only once
        per page and only with a token. */
    method HandleSubmit(password: string, confirm: string) returns (request: Option<ResetRequest>)
      requires Valid()
      modifies this
      ensures Valid()
      ensures request.Some? <==> ResetIssues(password, confirm) == [] && Truthy(token) && !old(submitting)
      ensures request.Some? ==> request.value == ResetRequest(token.value, password) &&
                                status == Submitting && submitting && sent == [request.value]
      ensures request.None? ==> status == old(status) && submitting == old(submitting) && sent == old(sent)
      ensures errorMessage == old(errorMessage)
    {
      if ResetIssues(password, confirm) != [] {
        return None;
      }
      if !Truthy(token) || submitting {
        return None;
      }
      submitting := true;
      status := Submitting;
      request := Some(ResetRequest(token.value, password));
      sent := sent + [request.value];
    }

    /** The end of the request: success, or the error the answer names (else the fallback), or
        the message of what was thrown. */
    method Complete(outcome: Outcome<ResetBody>) returns (toast: Toast)
      requires Valid() && status == Submitting
      modifies this
      ensures Valid()
      ensures submitting && sent == old(sent)
      ensures outcome.Ok? <==> status == Success
      ensures outcome.Ok? ==> toast == SuccessToast(ResetDone) && errorMessage == old(errorMessage)
      ensures outcome.NotOk? ==> errorMessage == OrElse(outcome.body.error, ResetFailed)
      ensures outcome.Threw? ==> errorMessage == outcome.message
      ensures !outcome.Ok? ==> status == Failed && toast == ErrorToast(errorMessage)
    {
      match outcome {
        case Ok(_) =>
          status := Success;
          toast := SuccessToast(ResetDone);
        case NotOk(body) =>
          status := Failed;
          errorMessage := OrElse(body.error, ResetFailed);
          toast := ErrorToast(errorMessage);
        case Threw(message) =>
          status := Failed;
          errorMessage := message;
          toast := ErrorToast(errorMessage);
      }
    }

    /** The move to the dashboard is scheduled only after a successful reset. */
    predicate RedirectScheduled()
      reads this
    {
      status == Success
    }

    function Title(): (t: string)
      reads this
      ensures t == "Password Reset!" <==> RedirectScheduled()
      ensures t == "Password Reset!" || t == "Set New Password"
    {
      if status == Success then "Password Reset!" else "Set New Password"
    }

    /** The form is shown only while the page waits for a first submit. */
    predicate ShowsForm()
      reads this
    {
      status == Ready
    }
  }

  /** Two submits of a valid password on one page send a single request. */
  method SubmitTwice(token: string, password: string) returns (first: Option<ResetRequest>, second: Option<ResetRequest>)
    requires token != "" && Acceptable(password)
    ensures first == Some(ResetRequest(token, password)) && second.None?
  {
    var page := new ResetPasswordForm(Some(token));
    first := page.HandleSubmit(password, password);
    second := page.HandleSubmit(password, password);
  }

  /** Even after a failed request the page sends no second one: the only way to retry is a new
      page. */
  method RetryAfterFailure(token: string, password: string, outcome: Outcome<ResetBody>)
    returns (toast: Toast, retry: Option<ResetRequest>)
    requires token != "" && Acceptable(password)
    ensures retry.None?
    ensures outcome.Ok? <==> toast.SuccessToast?
  {
    var page := new ResetPasswordForm(Some(token));
    var first := page.HandleSubmit(password, password);
    toast := page.Complete(outcome);
    retry := page.HandleSubmit(password, password);
  }
}
