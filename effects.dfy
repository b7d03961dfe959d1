/**
 * What the two components can observe of the hosted backend, and what they do
 * to the outside world: the answer of each backend call, and the trace of
 * calls and toast notices they emit.
 */
module Effects {
  import opened Wrappers
  import opened RegistrationStorage

  /**
   * How an awaited backend call settled: it resolved without an error, it
   * resolved with an error object (whose `message` may be absent), or the
   * awaited promise rejected with an exception (whose `message` may be absent).
   */
  datatype Outcome = Resolved | ReturnedError(message: Option<string>) | Threw(message: Option<string>)

  datatype ToastKind = SuccessToast | ErrorToast | WarningToast

  datatype Effect =
    /** insert into `registration_requests` */
    | InsertRegistration(row: RegistrationRow)
    /** invoke the `send-confirmation-email` function with `{ email, parentName }` */
    | InvokeEmail(email: string, parentName: string)
    /** invoke the `send-confirmation-sms` function with `{ phone, parentName }` */
    | InvokeSms(phone: string, parentName: string)
    /** update `registration_requests` set status = 'verified' where email = the value */
    | UpdateStatus(email: string)
    /** a toast notice */
    | Toast(kind: ToastKind, message: string)
    /** a 3000 ms timer whose callback resets the form */
    | ScheduleReset

  predicate IsNotification(e: Effect)
  {
    e.InvokeEmail? || e.InvokeSms?
  }

  predicate IsWrite(e: Effect)
  {
    e.InsertRegistration? || e.UpdateStatus?
  }

  /** The number of table writes (inserts and updates) in a trace. */
  function WriteCount(effects: seq<Effect>): (n: nat)
    ensures n <= |effects|
    ensures n == 0 <==> forall i :: 0 <= i < |effects| ==> !IsWrite(effects[i])
  {
    if effects == [] then 0
    else (if IsWrite(effects[0]) then 1 else 0) + WriteCount(effects[1..])
  }

  lemma {:induction false} WriteCountAppend(a: seq<Effect>, b: seq<Effect>)
    ensures WriteCount(a + b) == WriteCount(a) + WriteCount(b)
  {
    if a == [] {
      assert a + b == b;
    } else {
      assert (a + b)[0] == a[0] && (a + b)[1..] == a[1..] + b;
      WriteCountAppend(a[1..], b);
    }
  }
}
