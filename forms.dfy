/** What the form pages share: the validation issues a schema reports, the message a form shows
    beside a field, and the toast and navigation a submit ends with. */
module Forms {
  import opened Common

  datatype Field = Email | Password | ConfirmPassword

  /** One failed rule of a schema, reported on a field. */
  datatype Issue = Issue(field: Field, message: string)

  datatype Toast = SuccessToast(message: string) | ErrorToast(message: string)

  /** How a submit ends: the toast shown, and the page navigated to, if any. */
  datatype Effect = Effect(toast: Toast, navigate: Option<string>)

  const InvalidEmail: string := "Please enter a valid email address"
  const PasswordsDiffer: string := "Passwords don't match"

  /** The message shown under `field`: the first issue reported on it. */
  function FieldMessage(issues: seq<Issue>, field: Field): (r: Option<string>)
    ensures r.Some? <==> exists i :: 0 <= i < |issues| && issues[i].field == field
    ensures r.Some? ==> exists i :: 0 <= i < |issues| && issues[i] == Issue(field, r.value) &&
                                    forall j :: 0 <= j < i ==> issues[j].field != field
  {
    if issues == [] then None
    else if issues[0].field == field then Some(issues[0].message)
    else
      var r := FieldMessage(issues[1..], field);
      assert forall i :: 1 <= i < |issues| ==> issues[i] == issues[1..][i - 1];
      r
  }

  /** The message on a field of two issue lists reported one after the other: the first
      list's, when it has one. */
  lemma {:induction false} FieldMessageAppend(a: seq<Issue>, b: seq<Issue>, field: Field)
    ensures FieldMessage(a + b, field) == if FieldMessage(a, field).Some? then FieldMessage(a, field) else FieldMessage(b, field)
  {
    if a != [] {
      assert (a + b)[1..] == a[1..] + b;
      FieldMessageAppend(a[1..], b, field);
    } else {
      assert a + b == b;
    }
  }

  /** How an awaited call ended: it resolved, or it threw an `Error` with a message, or it
      threw something else. */
  datatype Completion = Resolved | ThrewError(message: string) | ThrewOther

  /** `error instanceof Error ? error.message : fallback`. */
  function ThrownMessage(c: Completion, fallback: string): (r: string)
    requires !c.Resolved?
    ensures c.ThrewError? ==> r == c.message
    ensures c.ThrewOther? ==> r == fallback
  {
    if c.ThrewError? then c.message else fallback
  }

  /** The end of a sign-in or sign-up submit: when the call resolved, the success toast and the
      navigation to `target`; otherwise the thrown message, or `fallback`, and no navigation. */
  function Submitted(c: Completion, welcome: string, target: string, fallback: string): (e: Effect)
    ensures e.navigate.Some? <==> c.Resolved?
    ensures c.Resolved? ==> e == Effect(SuccessToast(welcome), Some(target))
    ensures c.ThrewError? ==> e == Effect(ErrorToast(c.message), None)
    ensures c.ThrewOther? ==> e == Effect(ErrorToast(fallback), None)
  {
    if c.Resolved? then Effect(SuccessToast(welcome), Some(target))
    else Effect(ErrorToast(ThrownMessage(c, fallback)), None)
  }
}
