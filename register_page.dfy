/** The register page: its form rules and how a submit ends. The strength meter it shows is in
    `PasswordPolicy`. */
module RegisterPage {
  import opened Common
  import opened Forms
  import opened PasswordPolicy

  const Created: string := "Account created successfully!"
  const RegistrationFailed: string := "Registration failed"

  /** `registerSchema`: a valid email address (whether zod's email pattern accepts it is an
      input), the password rules, and a confirmation equal to the password. The confirmation
      check runs even when the other rules fail. */
  function RegisterIssues(emailValid: bool, password: string, confirm: string): (r: seq<Issue>)
    ensures r == [] <==> emailValid && Acceptable(password) && password == confirm
    ensures FieldMessage(r, Email).Some? <==> !emailValid
    ensures !emailValid ==> FieldMessage(r, Email) == Some(InvalidEmail)
    ensures FieldMessage(r, ConfirmPassword) == (if password == confirm then None else Some(PasswordsDiffer))
    ensures FieldMessage(r, Password).Some? <==> !Acceptable(password)
    ensures !Acceptable(password) ==> FieldMessage(r, Password) == Some(PasswordIssues(password)[0])
  {
    var email := if !emailValid then [Issue(Email, InvalidEmail)] else [];
    var pw := OnField(Password, PasswordIssues(password));
    var mismatch := if password != confirm then [Issue(ConfirmPassword, PasswordsDiffer)] else [];
    FieldMessageAppend(email + pw, mismatch, Email);
    FieldMessageAppend(email + pw, mismatch, Password);
    FieldMessageAppend(email + pw, mismatch, ConfirmPassword);
    FieldMessageAppend(email, pw, Email);
    FieldMessageAppend(email, pw, Password);
    FieldMessageAppend(email, pw, ConfirmPassword);
    OnFieldMessage(Password, PasswordIssues(password), Password);
    OnFieldMessage(Password, PasswordIssues(password), Email);
    OnFieldMessage(Password, PasswordIssues(password), ConfirmPassword);
    email + pw + mismatch
  }

  lemma OnFieldMessage(field: Field, messages: seq<string>, asked: Field)
    ensures FieldMessage(OnField(field, messages), asked) ==
            if field == asked && messages != [] then Some(messages[0]) else None
  {
  }

  /** The messages of a string check, reported on one field. */
  function OnField(field: Field, messages: seq<string>): (r: seq<Issue>)
    ensures |r| == |messages|
    ensures forall i :: 0 <= i < |r| ==> r[i] == Issue(field, messages[i])
  {
    seq(|messages|, i requires 0 <= i < |messages| => Issue(field, messages[i]))
  }

  /** How `onSubmit` ends: the account is created and the dashboard opens, or the thrown
      message is shown. */
  function OnSubmit(register: Completion): (e: Effect)
    ensures e.navigate.Some? <==> register.Resolved?
    ensures register.Resolved? ==> e == Effect(SuccessToast(Created), Some("/dashboard"))
    ensures register.ThrewError? ==> e == Effect(ErrorToast(register.message), None)
    ensures register.ThrewOther? ==> e == Effect(ErrorToast(RegistrationFailed), None)
  {
    Submitted(register, Created, "/dashboard", RegistrationFailed)
  }
}
