/**
 * The registration form component's submission flow. The asynchronous
 * `onSubmit` handler runs in segments separated by its awaits; each segment
 * is a transition of the component state, started either by the user's
 * submit or by the settling of the call it awaits. The 3000 ms reset timer is
 * an explicit event of its own.
 */
module Submission {
  import opened Wrappers
  import opened RegistrationSchema
  import opened RegistrationStorage
  import opened Effects
  import RegistrationTable

  /** Where the `onSubmit` call in flight, if any, is suspended. */
  datatype Phase =
    | Idle
    | AwaitingInsert(data: FormValues)
    | AwaitingEmail(data: FormValues)
    | AwaitingSms(data: FormValues)

  /**
   * The component's state: its three state hooks, the form's field values,
   * the suspended handler, and whether a reset timer is pending.
   */
  datatype FormState = FormState(
    isSubmitting: bool,
    isSuccess: bool,
    error: Option<string>,
    fields: FormInput,
    phase: Phase,
    resetPending: bool)

  /** A transition: the new state and the effects emitted on the way, in order. */
  datatype Step = Step(next: FormState, effects: seq<Effect>)

  const SubmitFallback := "Failed to submit registration. Please try again."
  const FailureNotice := "Registration failed. Please try again."
  const WarningNotice := "Registration saved but notification delivery may be delayed"
  const SuccessNotice := "Registration submitted successfully!"

  /** The state on mount: the defaults shown, nothing in flight, no error, no timer. */
  function Initial(): (s: FormState)
    ensures Consistent(s) && CanSubmit(s)
    ensures s.fields == Defaults() && s.error == None && s.phase.Idle?
  {
    FormState(false, false, None, Defaults(), Idle, false)
  }

  /**
   * The component invariant: `isSubmitting` is set exactly while a handler is
   * suspended, a submission in flight shows neither success nor an error, and
   * a reset timer is pending exactly while the success view is shown. So the
   * ungated timer callback never meets a submission in flight.
   */
  predicate Consistent(s: FormState)
    ensures Consistent(s) && s.resetPending ==> s.phase.Idle? && !s.isSubmitting && s.isSuccess
    ensures Consistent(s) && s.isSubmitting ==> !s.resetPending
  {
    && (s.isSubmitting <==> !s.phase.Idle?)
    && (s.isSubmitting ==> !s.isSuccess && s.error == None)
    && (s.resetPending <==> s.isSuccess)
    && (s.isSuccess ==> s.error == None)
  }

  /**
   * A submit can happen only while the form is rendered (the success view
   * replaces it) and its submit button is enabled (it is disabled while
   * submitting).
   */
  predicate CanSubmit(s: FormState)
    ensures CanSubmit(s) && Consistent(s) ==> s.phase.Idle? && !s.resetPending
  {
    !s.isSuccess && !s.isSubmitting
  }

  /** `error.message || fallback` for an insert that failed. */
  function ErrorText(o: Outcome): (t: string)
    requires !o.Resolved?
    ensures t != ""
    ensures t == SubmitFallback || o.message == Some(t)
    ensures o.message.Some? && o.message.value != "" ==> t == o.message.value
  {
    if o.message.Some? && o.message.value != "" then o.message.value else SubmitFallback
  }

  /** Typing into the form while it is shown. */
  function AfterEdit(s: FormState, input: FormInput): (t: Step)
    requires !s.isSuccess
    ensures Consistent(s) ==> Consistent(t.next)
    ensures t.next == s.(fields := input) && t.effects == []
  {
    Step(s.(fields := input), [])
  }

  /** The handler's first segment: enter submitting, clear the error, issue the insert. */
  function AfterSubmit(s: FormState, data: FormValues): (t: Step)
    requires CanSubmit(s)
    ensures Consistent(s) ==> Consistent(t.next)
    ensures t.next.isSubmitting && t.next.error == None && t.next.phase == AwaitingInsert(data)
    ensures t.effects == [InsertRegistration(ToStorage(data))]
  {
    Step(s.(isSubmitting := true, error := None, phase := AwaitingInsert(data)),
         [InsertRegistration(ToStorage(data))])
  }

  /**
   * The insert settled. On success the e-mail function is invoked; on an error
   * (returned and rethrown, or thrown) the handler's catch and finally run.
   */
  function AfterInsert(s: FormState, o: Outcome): (t: Step)
    requires s.phase.AwaitingInsert?
    ensures Consistent(s) ==> Consistent(t.next)
    ensures o.Resolved? <==> t.next.phase.AwaitingEmail?
    ensures o.Resolved? ==>
      && t.next == s.(phase := AwaitingEmail(s.phase.data))
      && t.effects == [InvokeEmail(s.phase.data.email, s.phase.data.parentName)]
    ensures !o.Resolved? ==>
      && t.next.error == Some(ErrorText(o)) && !t.next.isSubmitting && t.next.phase.Idle?
      && t.next.isSuccess == s.isSuccess
      && t.effects == [Toast(ErrorToast, FailureNotice)]
  {
    var data := s.phase.data;
    if o.Resolved? then
      Step(s.(phase := AwaitingEmail(data)), [InvokeEmail(data.email, data.parentName)])
    else
      Step(s.(error := Some(ErrorText(o)), isSubmitting := false, phase := Idle),
           [Toast(ErrorToast, FailureNotice)])
  }

  /** The tail shared by both notification paths: success, its notice, the reset timer, finally. */
  function Finish(s: FormState, warnings: seq<Effect>): (t: Step)
    requires !s.phase.Idle?
    ensures Consistent(s) ==> Consistent(t.next)
    ensures t.next.isSuccess && !t.next.isSubmitting && t.next.resetPending && t.next.phase.Idle?
    ensures t.effects == warnings + [Toast(SuccessToast, SuccessNotice), ScheduleReset]
  {
    Step(s.(isSuccess := true, isSubmitting := false, phase := Idle, resetPending := true),
         warnings + [Toast(SuccessToast, SuccessNotice), ScheduleReset])
  }

  /**
   * The e-mail invocation settled. The invocation's result is not inspected;
   * only a thrown exception leaves the notification block, skipping the SMS.
   */
  function AfterEmail(s: FormState, o: Outcome): (t: Step)
    requires s.phase.AwaitingEmail?
    ensures Consistent(s) ==> Consistent(t.next)
    ensures o.Threw? <==> t.next.phase.Idle?
    ensures o.Threw? ==> t.next.isSuccess
    ensures !o.Threw? ==> t.next.phase.AwaitingSms? && t.next.phase.data == s.phase.data
    ensures o.Threw? ==>
      t.effects == [Toast(WarningToast, WarningNotice), Toast(SuccessToast, SuccessNotice), ScheduleReset]
    ensures !o.Threw? ==> t.effects == [InvokeSms(s.phase.data.phone, s.phase.data.parentName)]
  {
    var data := s.phase.data;
    if o.Threw? then Finish(s, [Toast(WarningToast, WarningNotice)])
    else Step(s.(phase := AwaitingSms(data)), [InvokeSms(data.phone, data.parentName)])
  }

  /** The SMS invocation settled; again only a thrown exception produces the warning. */
  function AfterSms(s: FormState, o: Outcome): (t: Step)
    requires s.phase.AwaitingSms?
    ensures Consistent(s) ==> Consistent(t.next)
    ensures t.next == s.(isSuccess := true, isSubmitting := false, phase := Idle, resetPending := true)
    ensures t.effects ==
      (if o.Threw? then [Toast(WarningToast, WarningNotice)] else []) + [Toast(SuccessToast, SuccessNotice), ScheduleReset]
  {
    Finish(s, if o.Threw? then [Toast(WarningToast, WarningNotice)] else [])
  }

  /**
   * The reset timer fired: the success view closes and the fields return to
   * their defaults. The callback checks nothing else and changes nothing else.
   */
  function AfterReset(s: FormState): (t: Step)
    requires s.resetPending
    ensures Consistent(s) ==> Consistent(t.next)
    ensures !t.next.isSuccess && !t.next.resetPending && t.next.fields == Defaults()
    ensures t.next.isSubmitting == s.isSubmitting && t.next.error == s.error && t.next.phase == s.phase
    ensures t.effects == []
  {
    Step(s.(isSuccess := false, fields := Defaults(), resetPending := false), [])
  }

  /**
   * One whole run of `onSubmit`, from the submit to the handler's end, given
   * how each backend call settles.
   */
  function Run(s: FormState, data: FormValues, insert: Outcome, email: Outcome, sms: Outcome): (t: Step)
    requires CanSubmit(s)
    ensures Consistent(s) ==> Consistent(t.next)
    ensures !t.next.isSubmitting && t.next.phase.Idle? && t.next.fields == s.fields
    ensures |t.effects| >= 2 && t.effects[0] == InsertRegistration(ToStorage(data))
  {
    var a := AfterSubmit(s, data);
    var b := AfterInsert(a.next, insert);
    if !insert.Resolved? then Step(b.next, a.effects + b.effects)
    else
      var c := AfterEmail(b.next, email);
      if email.Threw? then Step(c.next, a.effects + b.effects + c.effects)
      else
        var d := AfterSms(c.next, sms);
        Step(d.next, a.effects + b.effects + c.effects + d.effects)
  }

  /**
   * A failed insert: the error shown is the error's message or the fallback,
   * no success, no notification invoked; the trace is the insert and the
   * failure notice.
   */
  lemma InsertFailure(s: FormState, data: FormValues, insert: Outcome, email: Outcome, sms: Outcome)
    requires CanSubmit(s) && !insert.Resolved?
    ensures var t := Run(s, data, insert, email, sms);
      && t.next.error == Some(ErrorText(insert))
      && !t.next.isSuccess && !t.next.isSubmitting
      && t.effects == [InsertRegistration(ToStorage(data)), Toast(ErrorToast, FailureNotice)]
      && forall i :: 0 <= i < |t.effects| ==> !IsNotification(t.effects[i])
  {
  }

  /**
   * A successful insert: whatever the notifications do, the run ends in the
   * success view with no error. The e-mail function is always invoked, the SMS
   * function unless the e-mail invocation threw, the warning appears exactly
   * when an invocation threw, and the trace ends with the success notice and
   * the reset timer.
   */
  lemma InsertSuccess(s: FormState, data: FormValues, email: Outcome, sms: Outcome)
    requires CanSubmit(s)
    ensures var t := Run(s, data, Resolved, email, sms);
      && t.next.isSuccess && t.next.error == None && !t.next.isSubmitting && t.next.resetPending
      && t.effects[1] == InvokeEmail(data.email, data.parentName)
      && (InvokeSms(data.phone, data.parentName) in t.effects <==> !email.Threw?)
      && (Toast(WarningToast, WarningNotice) in t.effects <==> email.Threw? || sms.Threw?)
      && t.effects[|t.effects| - 2..] == [Toast(SuccessToast, SuccessNotice), ScheduleReset]
      && Toast(ErrorToast, FailureNotice) !in t.effects
  {
    var t := Run(s, data, Resolved, email, sms);
    var notices := NotificationTrace(data, email, sms);
    SuccessTrace(s, data, email, sms);
    assert t.effects == [InsertRegistration(ToStorage(data))] + notices
      + [Toast(SuccessToast, SuccessNotice), ScheduleReset];
    assert InvokeSms(data.phone, data.parentName) in t.effects <==> InvokeSms(data.phone, data.parentName) in notices;
    assert Toast(WarningToast, WarningNotice) in t.effects <==> Toast(WarningToast, WarningNotice) in notices;
    assert Toast(ErrorToast, FailureNotice) !in notices;
  }

  /** The effects between the insert and the success notice of a run whose insert succeeded. */
  function NotificationTrace(data: FormValues, email: Outcome, sms: Outcome): (r: seq<Effect>)
    ensures |r| >= 2 && r[0] == InvokeEmail(data.email, data.parentName)
    ensures InvokeSms(data.phone, data.parentName) in r <==> !email.Threw?
    ensures Toast(WarningToast, WarningNotice) in r <==> email.Threw? || sms.Threw?
    ensures Toast(ErrorToast, FailureNotice) !in r
    ensures forall i :: 0 <= i < |r| ==> !IsWrite(r[i])
  {
    var smsPart := if sms.Threw? then [Toast(WarningToast, WarningNotice)] else [];
    var emailPart :=
      if email.Threw? then [Toast(WarningToast, WarningNotice)]
      else [InvokeSms(data.phone, data.parentName)] + smsPart;
    [InvokeEmail(data.email, data.parentName)] + emailPart
  }

  lemma SuccessTrace(s: FormState, data: FormValues, email: Outcome, sms: Outcome)
    requires CanSubmit(s)
    ensures var t := Run(s, data, Resolved, email, sms);
      && t.next.isSuccess && t.next.error == None && t.next.resetPending
      && t.effects == [InsertRegistration(ToStorage(data))] + NotificationTrace(data, email, sms)
        + [Toast(SuccessToast, SuccessNotice), ScheduleReset]
  {
    var a := AfterSubmit(s, data);
    var b := AfterInsert(a.next, Resolved);
    var c := AfterEmail(b.next, email);
    if !email.Threw? {
      var d := AfterSms(c.next, sms);
      var w := if sms.Threw? then [Toast(WarningToast, WarningNotice)] else [];
      assert d.effects == w + [Toast(SuccessToast, SuccessNotice), ScheduleReset];
    }
  }

  /** After a successful insert the final state does not depend on the notifications at all. */
  lemma NotificationsDoNotAffectState(s: FormState, data: FormValues, e1: Outcome, m1: Outcome, e2: Outcome, m2: Outcome)
    requires CanSubmit(s)
    ensures Run(s, data, Resolved, e1, m1).next == Run(s, data, Resolved, e2, m2).next
  {
  }

  /** Every run issues exactly one table write, the insert, and its first effect is that insert. */
  lemma OneWritePerRun(s: FormState, data: FormValues, insert: Outcome, email: Outcome, sms: Outcome)
    requires CanSubmit(s)
    ensures WriteCount(Run(s, data, insert, email, sms).effects) == 1
  {
    var t := Run(s, data, insert, email, sms);
    var rest := t.effects[1..];
    assert t.effects == [InsertRegistration(ToStorage(data))] + rest;
    if insert.Resolved? {
      SuccessTrace(s, data, email, sms);
      var notices := NotificationTrace(data, email, sms);
      assert rest == notices + [Toast(SuccessToast, SuccessNotice), ScheduleReset];
      forall i | 0 <= i < |rest| ensures !IsWrite(rest[i]) {
        if i < |notices| {
          assert rest[i] == notices[i];
        }
      }
    } else {
      InsertFailure(s, data, insert, email, sms);
      assert rest == [Toast(ErrorToast, FailureNotice)];
    }
    WriteCountAppend([InsertRegistration(ToStorage(data))], rest);
  }

  /**
   * What a run leaves in the table, its insert settling with the insert's
   * outcome: the registration appended as a pending row when the insert
   * resolved, the table as it was otherwise. Nothing after the insert writes.
   */
  lemma RunStoresRow(
    s: FormState, data: FormValues, insert: Outcome, email: Outcome, sms: Outcome,
    table: seq<RegistrationTable.StoredRow>)
    requires CanSubmit(s)
    ensures var t := Run(s, data, insert, email, sms);
      RegistrationTable.PerformAll(RegistrationTable.Settle(table, t.effects[0], insert), t.effects[1..])
        == if insert.Resolved? then RegistrationTable.Inserted(table, ToStorage(data)) else table
    ensures insert.Resolved? ==>
      RegistrationTable.PerformAll(table, Run(s, data, insert, email, sms).effects)
        == RegistrationTable.Inserted(table, ToStorage(data))
  {
    var t := Run(s, data, insert, email, sms);
    var first := [t.effects[0]];
    var rest := t.effects[1..];
    assert t.effects == first + rest;
    OneWritePerRun(s, data, insert, email, sms);
    WriteCountAppend(first, rest);
    assert IsWrite(first[0]);
    assert WriteCount(rest) == 0;
    RegistrationTable.PerformAllNoWrites(RegistrationTable.Settle(table, t.effects[0], insert), rest);
    RegistrationTable.PerformAllAppend(table, first, rest);
    assert first[1..] == [];
    RegistrationTable.PerformAllNoWrites(RegistrationTable.Perform(table, t.effects[0]), rest);
  }

  /** A successful run followed by its reset brings the component back to its initial state. */
  lemma SuccessThenResetIsInitial(s: FormState, data: FormValues, email: Outcome, sms: Outcome)
    requires CanSubmit(s)
    ensures Run(s, data, Resolved, email, sms).next.resetPending
    ensures AfterReset(Run(s, data, Resolved, email, sms).next).next == Initial()
  {
    InsertSuccess(s, data, email, sms);
  }

  /**
   * Submitting what the schema accepted inserts a row whose age is a positive
   * integer, the radix-10 reading of the age entered.
   */
  lemma ValidSubmissionStoresPositiveAge(
    s: FormState, input: FormInput, isEmail: string -> bool, data: FormValues,
    insert: Outcome, email: Outcome, sms: Outcome)
    requires CanSubmit(s) && Validate(input, isEmail) == Success(data)
    ensures var e := Run(s, data, insert, email, sms).effects[0];
      && e.InsertRegistration?
      && e.row.childAge == JsParseInt.ParseInt(input.childAge, JsParseInt.Radix10)
      && e.row.childAge.Num? && e.row.childAge.value > 0
  {
    ValidatedRow(input, isEmail, data);
  }

  /** The registration form component; its methods are the transitions above, done in place. */
  class RegistrationForm {
    var isSubmitting: bool
    var isSuccess: bool
    var error: Option<string>
    var fields: FormInput
    var phase: Phase
    var resetPending: bool

    function State(): FormState
      reads this
    {
      FormState(isSubmitting, isSuccess, error, fields, phase, resetPending)
    }

    constructor ()
      ensures State() == Initial() && Consistent(State())
    {
      isSubmitting, isSuccess, error := false, false, None;
      fields := Defaults();
      phase, resetPending := Idle, false;
    }

    method Edit(input: FormInput)
      requires !isSuccess
      modifies this
      ensures State() == AfterEdit(old(State()), input).next
    {
      fields := input;
    }

    method OnSubmit(data: FormValues) returns (effects: seq<Effect>)
      requires CanSubmit(State())
      modifies this
      ensures Step(State(), effects) == AfterSubmit(old(State()), data)
    {
      ghost var s0 := State();
      isSubmitting, error, phase := true, None, AwaitingInsert(data);
      effects := [InsertRegistration(ToStorage(data))];
      assert State() == s0.(isSubmitting := true, error := None, phase := AwaitingInsert(data));
    }

    method InsertSettled(o: Outcome) returns (effects: seq<Effect>)
      requires phase.AwaitingInsert?
      modifies this
      ensures Step(State(), effects) == AfterInsert(old(State()), o)
    {
      var data := phase.data;
      if o.Resolved? {
        effects := [InvokeEmail(data.email, data.parentName)];
        phase := AwaitingEmail(data);
      } else {
        error := Some(ErrorText(o));
        effects := [Toast(ErrorToast, FailureNotice)];
        isSubmitting := false;
        phase := Idle;
      }
    }

    method EmailSettled(o: Outcome) returns (effects: seq<Effect>)
      requires phase.AwaitingEmail?
      modifies this
      ensures Step(State(), effects) == AfterEmail(old(State()), o)
    {
      var data := phase.data;
      if o.Threw? {
        effects := FinishInPlace([Toast(WarningToast, WarningNotice)]);
      } else {
        effects := [InvokeSms(data.phone, data.parentName)];
        phase := AwaitingSms(data);
      }
    }

    method SmsSettled(o: Outcome) returns (effects: seq<Effect>)
      requires phase.AwaitingSms?
      modifies this
      ensures Step(State(), effects) == AfterSms(old(State()), o)
    {
      var warnings := [];
      if o.Threw? {
        warnings := [Toast(WarningToast, WarningNotice)];
      }
      effects := FinishInPlace(warnings);
    }

    method FinishInPlace(warnings: seq<Effect>) returns (effects: seq<Effect>)
      requires !phase.Idle?
      modifies this
      ensures Step(State(), effects) == Finish(old(State()), warnings)
    {
      isSuccess := true;
      effects := warnings + [Toast(SuccessToast, SuccessNotice), ScheduleReset];
      resetPending := true;
      isSubmitting := false;
      phase := Idle;
    }

    method ResetTimerFires()
      requires resetPending
      modifies this
      ensures State() == AfterReset(old(State())).next
    {
      isSuccess := false;
      fields := Defaults();
      resetPending := false;
    }
  }
}
