/**
 * The e-mail verification page. On mount it reads the `email` query
 * parameter; without one it reports an invalid link, otherwise it issues one
 * status update for that address and reports how it went. Either way it ends
 * with `isVerifying` false.
 */
module Verification {
  import opened Wrappers
  import opened Effects
  import opened RegistrationTable

  /** Where the verification handler, if started, is suspended. */
  datatype VerifyPhase = NotStarted | AwaitingUpdate(email: string) | Done

  /** The page's state: the query parameter, the `isVerifying` hook and the handler. */
  datatype VerifyState = VerifyState(emailParam: Option<string>, isVerifying: bool, phase: VerifyPhase)

  datatype VerifyStep = VerifyStep(next: VerifyState, effects: seq<Effect>)

  const InvalidLinkNotice := "Invalid verification link"
  const VerifiedNotice := "Email verified successfully!"
  const VerifyFailedNotice := "Failed to verify email. Please try again."

  const VerifyingText := "Verifying your email address..."
  const ThanksText := "Thank you for verifying your email address!"
  const InvalidLinkText := "Invalid verification link. Please use the link sent to your email."

  /** The parameter is truthy: present and not the empty string. */
  predicate HasEmail(p: Option<string>)
  {
    p.Some? && p.value != ""
  }

  /** The page as first rendered: still verifying, handler not yet run. */
  function Mount(p: Option<string>): (s: VerifyState)
    ensures s.isVerifying && s.emailParam == p
    ensures Rendered(s) == VerifyingText
  {
    VerifyState(p, true, NotStarted)
  }

  /** The handler's first segment: the guard on the parameter, then the update. */
  function AfterStart(s: VerifyState): (t: VerifyStep)
    requires s.phase.NotStarted?
    ensures !HasEmail(s.emailParam) ==>
      !t.next.isVerifying && t.next.phase.Done? && t.effects == [Toast(ErrorToast, InvalidLinkNotice)]
    ensures HasEmail(s.emailParam) ==>
      t.next.phase == AwaitingUpdate(s.emailParam.value) && t.effects == [UpdateStatus(s.emailParam.value)]
  {
    if !HasEmail(s.emailParam) then
      VerifyStep(s.(isVerifying := false, phase := Done), [Toast(ErrorToast, InvalidLinkNotice)])
    else
      var email := s.emailParam.value;
      VerifyStep(s.(phase := AwaitingUpdate(email)), [UpdateStatus(email)])
  }

  /**
   * The update settled: a resolved call reports success, an error (returned and
   * rethrown, or thrown) reports failure; the finally block ends verifying.
   */
  function AfterUpdate(s: VerifyState, o: Outcome): (t: VerifyStep)
    requires s.phase.AwaitingUpdate?
    ensures !t.next.isVerifying && t.next.phase.Done? && t.next.emailParam == s.emailParam
    ensures |t.effects| == 1 && t.effects[0].Toast?
    ensures t.effects[0].kind == SuccessToast <==> o.Resolved?
  {
    var notice :=
      if o.Resolved? then Toast(SuccessToast, VerifiedNotice)
      else Toast(ErrorToast, VerifyFailedNotice);
    VerifyStep(s.(isVerifying := false, phase := Done), [notice])
  }

  /** The text the page shows. */
  function Rendered(s: VerifyState): (r: string)
    ensures r == VerifyingText <==> s.isVerifying
    ensures !s.isVerifying ==> (r == ThanksText <==> HasEmail(s.emailParam))
  {
    assert |VerifyingText| == 31;
    assert |ThanksText| == 43;
    assert |InvalidLinkText| == 66;
    if s.isVerifying then VerifyingText
    else if HasEmail(s.emailParam) then ThanksText
    else InvalidLinkText
  }

  /** Mounting the page and running its handler to the end, given how the update settles. */
  function RunVerify(p: Option<string>, o: Outcome): (t: VerifyStep)
    ensures !t.next.isVerifying && t.next.phase.Done?
  {
    var a := AfterStart(Mount(p));
    if !a.next.phase.AwaitingUpdate? then a
    else
      var b := AfterUpdate(a.next, o);
      VerifyStep(b.next, a.effects + b.effects)
  }

  /** The table after one visit: the write of the visit's trace, if it has one, settles with the update's outcome. */
  function VisitTable(table: seq<StoredRow>, p: Option<string>, o: Outcome): (r: seq<StoredRow>)
    ensures !(HasEmail(p) && o.Resolved?) ==> r == table
    ensures HasEmail(p) && o.Resolved? ==> r == MarkVerified(table, p.value)
  {
    var t := RunVerify(p, o);
    if WriteCount(t.effects) == 0 then table else Settle(table, t.effects[0], o)
  }

  /** Without an e-mail parameter: the invalid-link notice, no write, and the table untouched. */
  lemma MissingEmail(p: Option<string>, o: Outcome, table: seq<StoredRow>)
    requires !HasEmail(p)
    ensures var t := RunVerify(p, o);
      && t.effects == [Toast(ErrorToast, InvalidLinkNotice)]
      && WriteCount(t.effects) == 0
      && PerformAll(table, t.effects) == table
      && Rendered(t.next) == InvalidLinkText
  {
    PerformAllNoWrites(table, RunVerify(p, o).effects);
  }

  /**
   * With an e-mail parameter: exactly one write, the status update for that
   * address, which verifies exactly the rows with that address; then the
   * success notice if the update resolved, the failure notice otherwise.
   */
  lemma PresentEmail(p: Option<string>, o: Outcome, table: seq<StoredRow>)
    requires HasEmail(p)
    ensures var t := RunVerify(p, o);
      && t.effects == [UpdateStatus(p.value),
                       if o.Resolved? then Toast(SuccessToast, VerifiedNotice)
                       else Toast(ErrorToast, VerifyFailedNotice)]
      && WriteCount(t.effects) == 1
      && (o.Resolved? ==> PerformAll(table, t.effects) == MarkVerified(table, p.value))
      && VisitTable(table, p, o) == (if o.Resolved? then MarkVerified(table, p.value) else table)
      && Rendered(t.next) == ThanksText
  {
    var t := RunVerify(p, o);
    assert PerformAll(table, t.effects) == PerformAll(MarkVerified(table, p.value), t.effects[1..]);
    PerformAllNoWrites(MarkVerified(table, p.value), t.effects[1..]);
  }

  /** The final text depends on whether an e-mail was given, never on how the update went. */
  lemma MessageIgnoresOutcome(p: Option<string>, o1: Outcome, o2: Outcome)
    ensures Rendered(RunVerify(p, o1).next) == Rendered(RunVerify(p, o2).next)
    ensures Rendered(RunVerify(p, o1).next) == if HasEmail(p) then ThanksText else InvalidLinkText
  {
  }

  /**
   * Opening the same link twice verifies the address when either update
   * resolved; once one has, a further visit leaves the table as it is.
   */
  lemma VerifyTwice(p: Option<string>, o1: Outcome, o2: Outcome, table: seq<StoredRow>)
    ensures VisitTable(VisitTable(table, p, o1), p, o2) ==
      if HasEmail(p) && (o1.Resolved? || o2.Resolved?) then MarkVerified(table, p.value) else table
    ensures var once := VisitTable(table, p, o1);
      o1.Resolved? ==> VisitTable(once, p, o2) == once
  {
    if HasEmail(p) {
      MarkVerifiedIdempotent(table, p.value);
    }
  }

  /** The verification page component; its methods are the transitions above, done in place. */
  class VerifyEmail {
    const emailParam: Option<string>
    var isVerifying: bool
    var phase: VerifyPhase

    function State(): VerifyState
      reads this
    {
      VerifyState(emailParam, isVerifying, phase)
    }

    constructor (p: Option<string>)
      ensures State() == Mount(p)
    {
      emailParam := p;
      isVerifying := true;
      phase := NotStarted;
    }

    method Start() returns (effects: seq<Effect>)
      requires phase.NotStarted?
      modifies this
      ensures VerifyStep(State(), effects) == AfterStart(old(State()))
    {
      if emailParam.None? || emailParam.value == "" {
        effects := [Toast(ErrorToast, InvalidLinkNotice)];
        isVerifying := false;
        phase := Done;
        return;
      }
      effects := [UpdateStatus(emailParam.value)];
      phase := AwaitingUpdate(emailParam.value);
    }

    method UpdateSettled(o: Outcome) returns (effects: seq<Effect>)
      requires phase.AwaitingUpdate?
      modifies this
      ensures VerifyStep(State(), effects) == AfterUpdate(old(State()), o)
    {
      if o.Resolved? {
        effects := [Toast(SuccessToast, VerifiedNotice)];
      } else {
        effects := [Toast(ErrorToast, VerifyFailedNotice)];
      }
      isVerifying := false;
      phase := Done;
    }
  }
}
