/** The account page: whether it offers the change-password form, and that form's submit, with
    the error message it composes from the backend's answer. */
module AccountPage {
  import opened Common
  import opened Http
  import opened Forms
  import opened AuthContext

  /** An account signed up through Discord has no password and gets an explanation instead. */
  predicate ShowsChangeForm(user: Option<User>) {
    user.Some? && user.value.hasPassword
  }

  /** `details` of a refused change: absent, a list of messages, or one message. */
  datatype Details = Absent | List(items: seq<string>) | Text(text: string)

  datatype ChangeBody = ChangeBody(details: Details, error: Option<string>)

  const ChangeFailed: string := "Failed to change password"
  const Mismatch: string := "New passwords do not match"
  const Changed: string := "Password changed successfully"

  /** `items.join(sep)`. */
  function Join(items: seq<string>, sep: string): (r: string)
    ensures items == [] ==> r == ""
    ensures |items| == 1 ==> r == items[0]
    ensures |items| >= 2 ==> |r| >= |sep|
  {
    if items == [] then ""
    else if |items| == 1 then items[0]
    else items[0] + sep + Join(items[1..], sep)
  }

  /** Joining one more item appends the separator and the item: `join` read from the left,
      independently of the definition's recursion from the right. */
  lemma {:induction false} JoinSnoc(items: seq<string>, x: string, sep: string)
    requires items != []
    ensures Join(items + [x], sep) == Join(items, sep) + sep + x
  {
    if |items| == 1 {
      assert (items + [x])[1..] == [x];
    } else {
      assert (items + [x])[1..] == items[1..] + [x];
      JoinSnoc(items[1..], x, sep);
    }
  }

  /** The message of a refused change: the details (a list of them joined by ". "), else the
      error, else the fallback. A list counts even when it is empty. */
  function ErrorMessage(body: ChangeBody): (m: string)
    ensures body.details.List? ==> m == Join(body.details.items, ". ")
    ensures body.details.Text? && body.details.text != "" ==> m == body.details.text
    ensures (body.details.Absent? || body.details == Text("")) ==> m == OrElse(body.error, ChangeFailed)
  {
    match body.details
    case List(items) => Join(items, ". ")
    case Text(t) => if t != "" then t else OrElse(body.error, ChangeFailed)
    case Absent => OrElse(body.error, ChangeFailed)
  }

  /** The message is empty only for a list of details with no text in it: no item, or one
      empty item. */
  lemma ErrorMessageEmpty(body: ChangeBody)
    ensures ErrorMessage(body) == "" <==> body.details.List? && (body.details.items == [] || body.details.items == [""])
  {
  }

  /** The submit button is disabled while a change runs and while any field is empty. */
  predicate SubmitDisabled(isLoading: bool, current: string, next: string, confirm: string) {
    isLoading || current == "" || next == "" || confirm == ""
  }

  /** The browser's own checks of the form (`required`, and `minLength` 8 on the two new
      fields): a form that fails them is not submitted. */
  predicate ConstraintsMet(current: string, next: string, confirm: string) {
    current != "" && |next| >= 8 && |confirm| >= 8
  }

  datatype ChangeRequest = ChangeRequest(currentPassword: string, newPassword: string)

  class ChangePasswordForm {
    var currentPassword: string
    var newPassword: string
    var confirmPassword: string
    var isLoading: bool

    constructor()
      ensures currentPassword == "" && newPassword == "" && confirmPassword == "" && !isLoading
    {
      currentPassword := "";
      newPassword := "";
      confirmPassword := "";
      isLoading := false;
    }

    /** Typing into the three fields. */
    method Edit(current: string, next: string, confirm: string)
      modifies this
      ensures currentPassword == current && newPassword == next && confirmPassword == confirm
      ensures isLoading == old(isLoading)
    {
      currentPassword, newPassword, confirmPassword := current, next, confirm;
    }

    /** `handleSubmit` up to its request: two different new passwords are refused on the spot,
        without a request and without the loading state. */
    method BeginSubmit() returns (request: Option<ChangeRequest>, toast: Option<Toast>)
      requires ConstraintsMet(currentPassword, newPassword, confirmPassword)
      modifies this
      ensures newPassword != confirmPassword ==>
        request.None? && toast == Some(ErrorToast(Mismatch)) && isLoading == old(isLoading)
      ensures newPassword == confirmPassword ==>
        request == Some(ChangeRequest(currentPassword, newPassword)) && toast.None? && isLoading
      ensures currentPassword == old(currentPassword) && newPassword == old(newPassword) &&
              confirmPassword == old(confirmPassword)
    {
      if newPassword != confirmPassword {
        return None, Some(ErrorToast(Mismatch));
      }
      isLoading := true;
      request := Some(ChangeRequest(currentPassword, newPassword));
      toast := None;
    }

    /** `handleSubmit` after its request: a change clears the three fields and refreshes the
        user; a refusal keeps them. The loading state ends either way. */
    method FinishSubmit(outcome: Outcome<ChangeBody>) returns (toast: Toast, refresh: bool)
      modifies this
      ensures !isLoading
      ensures refresh <==> outcome.Ok?
      ensures outcome.Ok? ==> toast == SuccessToast(Changed) &&
                              currentPassword == "" && newPassword == "" && confirmPassword == ""
      ensures outcome.NotOk? ==> toast == ErrorToast(ErrorMessage(outcome.body))
      ensures outcome.Threw? ==> toast == ErrorToast(outcome.message)
      ensures !outcome.Ok? ==> currentPassword == old(currentPassword) && newPassword == old(newPassword) &&
                               confirmPassword == old(confirmPassword)
    {
      match outcome {
        case Ok(_) =>
          toast := SuccessToast(Changed);
          currentPassword, newPassword, confirmPassword := "", "", "";
          refresh := true;
        case NotOk(body) =>
          toast := ErrorToast(ErrorMessage(body));
          refresh := false;
        case Threw(message) =>
          toast := ErrorToast(message);
          refresh := false;
      }
      isLoading := false;
    }

    predicate Disabled()
      reads this
    {
      SubmitDisabled(isLoading, currentPassword, newPassword, confirmPassword)
    }
  }

  /** A successful change leaves the form empty, so its button disabled until retyped; a
      refused one leaves it ready for another attempt. */
  method ChangeOnce(current: string, next: string, outcome: Outcome<ChangeBody>)
    returns (sent: Option<ChangeRequest>, disabledAfter: bool)
    requires current != "" && |next| >= 8
    ensures sent == Some(ChangeRequest(current, next))
    ensures disabledAfter <==> outcome.Ok?
  {
    var form := new ChangePasswordForm();
    form.Edit(current, next, next);
    var toast;
    sent, toast := form.BeginSubmit();
    var done, refresh := form.FinishSubmit(outcome);
    disabledAfter := form.Disabled();
  }
}
