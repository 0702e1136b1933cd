/** When money goes back: a refund is ordered only after booking refused to confirm. The booking is
    then cancelled or expired for good, but for one kind of step that misleads. */
module LedgerRefunds {
  import opened Common
  import opened PaymentsService
  import opened Ledger
  import opened LedgerRules
  import LedgerRuns
  import BookingDomain
  import BookingService
  import History = BookingHistory

  /** A confirm that has read "pending" meets its booking confirmed: its refusal will mislead. */
  ghost predicate Meets(b: History.State, step: History.Step, x: nat) {
    && step.Update? && step.q in b.requests && b.requests[step.q].phase.Saw?
    && b.requests[step.q].target.Confirmed? && b.requests[step.q].booking == x
    && x in b.db.bookings && b.db.bookings[x].status.Confirmed?
  }

  ghost predicate Misleads(s: State, step: Step, x: nat) {
    step.Serve? && Meets(s.booking, step.service, x)
  }

  /** What a refusal says about the booking: past confirming, or confirmed and misleading. */
  ghost predicate Gone(misled: set<nat>, db: BookingService.Db, b: nat) {
    && b in db.bookings && !db.bookings[b].status.Pending?
    && (BookingDomain.Terminal(db.bookings[b].status) || b in misled)
  }

  ghost predicate RefusalsRight(misled: set<nat>, db: BookingService.Db, requests: map<nat, History.Request>) {
    forall q | q in requests && requests[q].target.Confirmed?
               && requests[q].phase == History.Replied(Err(BookingService.InvalidTransition)) ::
      Gone(misled, db, requests[q].booking)
  }

  ghost predicate RejectionsRight(misled: set<nat>, s: State, pass: Pass) {
    pass.Passing? ==> forall i | 0 <= i < |pass.done| && i < |pass.batch| && pass.done[i].Rejected? ::
      pass.batch[i] in s.t.outbox && s.t.outbox[pass.batch[i]].command.Confirm?
      && Gone(misled, s.booking.db, s.t.outbox[pass.batch[i]].command.booking)
  }

  ghost predicate RefundsRight(misled: set<nat>, t: Tables, db: BookingService.Db) {
    forall p :: p in t.payments && HasRefund(t.outbox, p) ==> Gone(misled, db, t.payments[p].booking)
  }

  ghost predicate Right(misled: set<nat>, s: State) {
    && RefusalsRight(misled, s.booking.db, s.booking.requests)
    && (forall r :: r in s.passes ==> RejectionsRight(misled, s, s.passes[r]))
    && RefundsRight(misled, s.t, s.booking.db)
  }

  ghost predicate Inv(misled: set<nat>, s: State) {
    LedgerRuns.Inv(s) && Right(misled, s)
  }

  // ---- booking

  /** A terminal status stays, and so does not being pending. */
  lemma GoneStays(misled: set<nat>, b: History.State, step: History.Step, x: nat)
    requires History.Inv(b) && History.Enabled(b, step) && Gone(misled, b.db, x)
    ensures Gone(misled, History.Next(b, step).db, x)
    ensures BookingDomain.Terminal(b.db.bookings[x].status) ==>
              History.Next(b, step).db.bookings[x].status == b.db.bookings[x].status
  {
    if step.Update? {
      assert BookingDomain.Allowed(b.requests[step.q].phase.status, b.requests[step.q].target);
    }
  }

  lemma RefusalsStayRight(misled: set<nat>, b: History.State, step: History.Step)
    requires History.Inv(b) && History.Enabled(b, step) && RefusalsRight(misled, b.db, b.requests)
    requires forall x :: Meets(b, step, x) ==> x in misled
    ensures var b' := History.Next(b, step); RefusalsRight(misled, b'.db, b'.requests)
  {
    var b' := History.Next(b, step);
    forall q | q in b'.requests && b'.requests[q].target.Confirmed?
               && b'.requests[q].phase == History.Replied(Err(BookingService.InvalidTransition))
      ensures Gone(misled, b'.db, b'.requests[q].booking)
    {
      if q in b.requests && b'.requests[q] == b.requests[q] {
        GoneStays(misled, b, step, b.requests[q].booking);
      } else if step.Update? {
        assert BookingDomain.Allowed(b.requests[q].phase.status, BookingDomain.Confirmed);
        assert b.db.bookings[b.requests[q].booking].status.Confirmed? ==> Meets(b, step, b.requests[q].booking);
      }
    }
  }

  lemma ServeKeeps(misled: set<nat>, s: State, inner: History.Step)
    requires Inv(misled, s) && Enabled(s, Serve(inner)) && forall x :: Meets(s.booking, inner, x) ==> x in misled
    ensures Right(misled, Next(s, Serve(inner)))
  {
    var s' := Next(s, Serve(inner));
    RefusalsStayRight(misled, s.booking, inner);
    forall x | Gone(misled, s.booking.db, x) ensures Gone(misled, s'.booking.db, x) {
      GoneStays(misled, s.booking, inner, x);
    }
    forall r | r in s'.passes ensures RejectionsRight(misled, s', s'.passes[r]) {
      assert RejectionsRight(misled, s, s.passes[r]);
    }
  }

  // ---- relays

  /** Settling adds refunds only for the payments of rejected confirms. */
  lemma {:induction false} RefundsComeFromRejections(t: Tables, refunds: map<nat, (RefundRequest, string)>,
                                                     log: seq<BookingService.Row>, batch: seq<nat>,
                                                     done: seq<Outcome>, now: int, p: nat)
    requires TablesSound(t, refunds, log) && Unsettled(t, batch) && OutcomesFit(t, refunds, log, batch, done)
    requires (forall c :: c in batch ==> c in t.outbox) && HasRefund(SettleAll(t, batch, done, now).outbox, p)
    ensures HasRefund(t.outbox, p) || exists i :: RejectedFor(t, batch, done, i, p)
    decreases |done|
  {
    if done != [] {
      var n := |done| - 1;
      LastAddsRefund(t, refunds, log, batch, done, now, p);
      if HasRefund(SettleAll(t, batch, done[..n], now).outbox, p) {
        RefundsComeFromRejections(t, refunds, log, batch, done[..n], now, p);
        if i :| RejectedFor(t, batch, done[..n], i, p) {
          assert RejectedFor(t, batch, done, i, p);
        }
      }
    }
  }

  lemma LastAddsRefund(t: Tables, refunds: map<nat, (RefundRequest, string)>, log: seq<BookingService.Row>,
                       batch: seq<nat>, done: seq<Outcome>, now: int, p: nat)
    requires TablesSound(t, refunds, log) && Unsettled(t, batch) && OutcomesFit(t, refunds, log, batch, done)
    requires (forall c :: c in batch ==> c in t.outbox) && done != []
    requires HasRefund(SettleAll(t, batch, done, now).outbox, p)
    ensures HasRefund(SettleAll(t, batch, done[..|done| - 1], now).outbox, p)
         || RejectedFor(t, batch, done, |done| - 1, p)
  {
    var n := |done| - 1;
    var before := SettleAll(t, batch, done[..n], now);
    SettleAllKeeps(t, refunds, log, batch, done[..n], now);
    NextIsReady(t, refunds, log, before, batch, done, n);
    SettleAddsRefund(before, batch[n], done[n], now, p);
  }

  predicate RejectedFor(t: Tables, batch: seq<nat>, done: seq<Outcome>, i: int, p: nat) {
    && 0 <= i < |done| && i < |batch| && batch[i] in t.outbox && done[i].Rejected?
    && t.outbox[batch[i]].command.Confirm? && t.outbox[batch[i]].command.payment == p
  }

  lemma SettleAddsRefund(t: Tables, c: nat, outcome: Outcome, now: int, p: nat)
    requires c in t.outbox && (outcome.Rejected? ==> outcome.refund !in t.outbox)
    requires HasRefund(Settle(t, c, outcome, now).outbox, p)
    ensures HasRefund(t.outbox, p)
         || (outcome.Rejected? && t.outbox[c].command.Confirm? && t.outbox[c].command.payment == p)
  {
    var t' := Settle(t, c, outcome, now);
    var d :| d in t'.outbox && t'.outbox[d].command.Refund? && t'.outbox[d].command.payment == p;
    if d in t.outbox {
      assert t.outbox[d].command == t'.outbox[d].command;
    }
  }

  lemma CommitKeeps(misled: set<nat>, s: State, r: nat, now: int)
    requires Inv(misled, s) && Enabled(s, Commit(r, now))
    ensures Right(misled, Next(s, Commit(r, now)))
  {
    var s' := Next(s, Commit(r, now));
    var pass := s.passes[r];
    assert LedgerRuns.PassSound(s.t, s.ps.refunds, s.booking.db.outbox, s.booking.requests, pass);
    SettleAllKeeps(s.t, s.ps.refunds, s.booking.db.outbox, pass.batch, pass.done, now);
    assert RejectionsRight(misled, s, pass);
    forall p | p in s'.t.payments && HasRefund(s'.t.outbox, p)
      ensures Gone(misled, s'.booking.db, s'.t.payments[p].booking)
    {
      RefundsComeFromRejections(s.t, s.ps.refunds, s.booking.db.outbox, pass.batch, pass.done, now, p);
      if !HasRefund(s.t.outbox, p) {
        var i :| RejectedFor(s.t, pass.batch, pass.done, i, p);
        assert CommandSound(s.t, s.t.outbox[pass.batch[i]]);
      }
    }
    RejectionsCarry(misled, s, s');
  }

  /** Rejections stay right while commands stay what they are and bookings that are gone stay gone. */
  lemma RejectionsCarry(misled: set<nat>, s: State, s': State)
    requires forall r :: r in s.passes ==> RejectionsRight(misled, s, s.passes[r])
    requires forall c :: c in s.t.outbox ==> c in s'.t.outbox && s'.t.outbox[c].command == s.t.outbox[c].command
    requires s'.booking.db == s.booking.db
    ensures forall r :: r in s'.passes && r in s.passes && s'.passes[r] == s.passes[r] ==>
              RejectionsRight(misled, s', s'.passes[r])
  {
    forall r | r in s'.passes && r in s.passes && s'.passes[r] == s.passes[r]
      ensures RejectionsRight(misled, s', s'.passes[r])
    {
      assert RejectionsRight(misled, s, s.passes[r]);
    }
  }

  lemma HearConfirmKeeps(misled: set<nat>, s: State, r: nat, refund: nat)
    requires Inv(misled, s) && Enabled(s, HearConfirm(r, refund))
    ensures Right(misled, Next(s, HearConfirm(r, refund)))
  {
    var s' := Next(s, HearConfirm(r, refund));
    var pass := s.passes[r];
    assert LedgerRuns.PassSound(s.t, s.ps.refunds, s.booking.db.outbox, s.booking.requests, pass);
    RejectionsCarry(misled, s, s');
    assert RejectionsRight(misled, s, pass);
    AnswerAdded(misled, s.t, s.booking, pass, refund);
    assert RejectionsRight(misled, s', s'.passes[r]);
  }

  /** The answer a relay hears is one booking gave about the booking of the command. */
  lemma AnswerAdded(misled: set<nat>, t: Tables, b: History.State, pass: Pass, refund: nat)
    requires pass.Passing? && |pass.done| < |pass.batch| && pass.asking.Some? && pass.asking.value in b.requests
    requires LedgerRuns.AskedRightly(t, b.requests, pass) && b.requests[pass.asking.value].phase.Replied?
    requires RefusalsRight(misled, b.db, b.requests)
    ensures var c := pass.batch[|pass.done|];
      var outcome := OutcomeOf(b.requests[pass.asking.value].phase.answer, refund);
      outcome.Some? && outcome.value.Rejected? ==>
        c in t.outbox && t.outbox[c].command.Confirm? && Gone(misled, b.db, t.outbox[c].command.booking)
  {
  }

  lemma WebhookKeeps(misled: set<nat>, s: State, event: string, eventType: string, reference: Option<nat>, id: nat)
    requires Right(misled, s) && Enabled(s, Webhook(event, eventType, reference, id)) && id !in s.t.outbox
    ensures Right(misled, Next(s, Webhook(event, eventType, reference, id)))
  {
    var s' := Next(s, Webhook(event, eventType, reference, id));
    SameRefunds(s.t.outbox, s'.t.outbox);
    RejectionsCarry(misled, s, s');
  }

  lemma SameRefunds(outbox: map<nat, Row>, outbox': map<nat, Row>)
    requires forall c :: c in outbox' ==> c in outbox || !outbox'[c].command.Refund?
    requires forall c :: c in outbox && c in outbox' ==> outbox'[c].command == outbox[c].command
    ensures forall p :: HasRefund(outbox', p) ==> HasRefund(outbox, p)
  {
    forall p | HasRefund(outbox', p) ensures HasRefund(outbox, p) {
      var c :| c in outbox' && outbox'[c].command.Refund? && outbox'[c].command.payment == p;
      assert outbox[c].command == outbox'[c].command;
    }
  }

  lemma InsertKeeps(misled: set<nat>, s: State, c: nat, id: nat)
    requires Right(misled, s) && Enabled(s, Insert(c, id))
    requires id !in s.t.payments && forall d :: d in s.t.outbox ==> CommandSound(s.t, s.t.outbox[d])
    ensures Right(misled, Next(s, Insert(c, id)))
  {
    LedgerRuns.NoCommandsYet(s.t, id);
    RejectionsCarry(misled, s, Next(s, Insert(c, id)));
  }

  /** Steps that change no command but in its mark or counter. */
  lemma TableStepKeeps(misled: set<nat>, s: State, step: Step)
    requires Right(misled, s) && Enabled(s, step) && (step.KeepCharge? || step.NoteFailure?)
    ensures Right(misled, Next(s, step))
  {
    var s' := Next(s, step);
    SameRefunds(s.t.outbox, s'.t.outbox);
    RejectionsCarry(misled, s, s');
  }

  /** Steps of a pass that add no rejection. */
  lemma PassStepKeeps(misled: set<nat>, s: State, step: Step)
    requires Right(misled, s) && Enabled(s, step) && (step.Begin? || step.TryRefund? || step.GiveUp? || step.CrashRelay?)
    ensures Right(misled, Next(s, step))
  {
    var s' := Next(s, step);
    RejectionsCarry(misled, s, s');
    if !step.CrashRelay? && step.r in s.passes {
      assert RejectionsRight(misled, s, s.passes[step.r]);
    }
  }

  /** Steps of a call that change no table. */
  lemma CallerStepKeeps(misled: set<nat>, s: State, step: Step)
    requires Right(misled, s) && Enabled(s, step)
    requires step.Call? || step.ReadPayment? || step.AskCharge? || step.Abandon?
    ensures Right(misled, Next(s, step))
  {
    RejectionsCarry(misled, s, Next(s, step));
  }

  lemma SendConfirmKeeps(misled: set<nat>, s: State, r: nat, q: nat)
    requires Right(misled, s) && Enabled(s, SendConfirm(r, q))
    ensures Right(misled, Next(s, SendConfirm(r, q)))
  {
    var s' := Next(s, SendConfirm(r, q));
    RejectionsCarry(misled, s, s');
    assert RejectionsRight(misled, s, s.passes[r]);
  }

  lemma StepKeeps(misled: set<nat>, s: State, step: Step)
    requires Inv(misled, s) && Enabled(s, step) && forall x :: Misleads(s, step, x) ==> x in misled
    ensures Inv(misled, Next(s, step))
  {
    LedgerRuns.StepKeeps(s, step);
    match step {
      case Serve(inner) =>
        assert forall x :: Meets(s.booking, inner, x) ==> Misleads(s, step, x);
        ServeKeeps(misled, s, inner);
      case Webhook(event, eventType, reference, id) => WebhookKeeps(misled, s, event, eventType, reference, id);
      case SendConfirm(r, q) => SendConfirmKeeps(misled, s, r, q);
      case HearConfirm(r, refund) => HearConfirmKeeps(misled, s, r, refund);
      case Commit(r, now) => CommitKeeps(misled, s, r, now);
      case Insert(c, id) => InsertKeeps(misled, s, c, id);
      case KeepCharge(_) => TableStepKeeps(misled, s, step);
      case NoteFailure(_) => TableStepKeeps(misled, s, step);
      case Begin(_, _) => PassStepKeeps(misled, s, step);
      case TryRefund(_, _, _) => PassStepKeeps(misled, s, step);
      case GiveUp(_) => PassStepKeeps(misled, s, step);
      case CrashRelay(_) => PassStepKeeps(misled, s, step);
      case Call(_, _, _, _) => CallerStepKeeps(misled, s, step);
      case ReadPayment(_) => CallerStepKeeps(misled, s, step);
      case AskCharge(_, _, _) => CallerStepKeeps(misled, s, step);
      case Abandon(_) => CallerStepKeeps(misled, s, step);
    }
  }

  /** Up to here, only these bookings were met confirmed by a confirm that had read "pending". */
  ghost predicate OnlyMisled(misled: set<nat>, states: seq<State>, steps: seq<Step>, i: nat)
    requires i <= |states| && i <= |steps|
  {
    forall m, x :: 0 <= m < i && Misleads(states[m], steps[m], x) ==> x in misled
  }

  lemma {:induction false} EveryRunKeeps(misled: set<nat>, states: seq<State>, steps: seq<Step>, i: nat)
    requires Run(false, states, steps) && i < |states| && OnlyMisled(misled, states, steps, i)
    ensures Inv(misled, states[i])
  {
    if i > 0 {
      EveryRunKeeps(misled, states, steps, i - 1);
      StepKeeps(misled, states[i - 1], steps[i - 1]);
    }
  }

  // ---- what a booking goes through

  ghost predicate MisledBefore(states: seq<State>, steps: seq<Step>, i: nat, x: nat) {
    exists m :: 0 <= m < i && m < |states| && m < |steps| && Misleads(states[m], steps[m], x)
  }

  /** The bookings misled about so far. */
  ghost function MisledSet(states: seq<State>, steps: seq<Step>, i: nat): set<nat>
    requires i <= |states| && i <= |steps|
  {
    if i == 0 then {}
    else
      MisledSet(states, steps, i - 1) + MisledBy(states[i - 1], steps[i - 1])
  }

  ghost function MisledBy(s: State, step: Step): set<nat> {
    set x | x in s.booking.db.bookings && Misleads(s, step, x)
  }

  lemma {:induction false} MisledSetIsExact(states: seq<State>, steps: seq<Step>, i: nat)
    requires i <= |states| && i <= |steps|
    ensures forall x :: x in MisledSet(states, steps, i) <==> MisledBefore(states, steps, i, x)
    ensures OnlyMisled(MisledSet(states, steps, i), states, steps, i)
  {
    if i > 0 {
      MisledSetIsExact(states, steps, i - 1);
      forall x ensures x in MisledSet(states, steps, i) <==> MisledBefore(states, steps, i, x) {
        if MisledBefore(states, steps, i, x) {
          var m :| 0 <= m < i && Misleads(states[m], steps[m], x);
          assert m < i - 1 ==> MisledBefore(states, steps, i - 1, x);
        }
      }
    }
  }

  predicate Over(s: State, b: nat) {
    b in s.booking.db.bookings && BookingDomain.Terminal(s.booking.db.bookings[b].status)
  }

  predicate IsConfirmed(s: State, b: nat) {
    b in s.booking.db.bookings && s.booking.db.bookings[b].status.Confirmed?
  }

  /** The step cancels a confirmed booking. */
  ghost predicate Cancels(s: State, step: Step, b: nat) {
    && step.Serve? && step.service.Update? && step.service.q in s.booking.requests
    && var request := s.booking.requests[step.service.q];
       request.booking == b && request.target.Cancelled? && request.phase == History.Saw(BookingDomain.Confirmed)
       && IsConfirmed(s, b)
  }

  predicate StatusKept(s: State, t: State, b: nat) {
    && b in s.booking.db.bookings && b in t.booking.db.bookings
    && t.booking.db.bookings[b].status == s.booking.db.bookings[b].status
  }

  lemma OneStepOf(s: State, step: Step, b: nat)
    requires History.RequestsSound(s.booking.db.bookings, s.booking.requests) && Enabled(s, step)
    ensures Over(s, b) ==> StatusKept(s, Next(s, step), b)
    ensures IsConfirmed(s, b) ==> if Cancels(s, step, b) then Over(Next(s, step), b) else IsConfirmed(Next(s, step), b)
  {
    if step.Serve? && b in s.booking.db.bookings {
      ServiceStepOf(s.booking, step.service, b);
    }
  }

  lemma ServiceStepOf(s: History.State, step: History.Step, b: nat)
    requires History.RequestsSound(s.db.bookings, s.requests) && History.Enabled(s, step) && b in s.db.bookings
    ensures var t := History.Next(s, step);
      && b in t.db.bookings
      && (BookingDomain.Terminal(s.db.bookings[b].status) ==> t.db.bookings[b].status == s.db.bookings[b].status)
      && (s.db.bookings[b].status.Confirmed? && t.db.bookings[b].status != BookingDomain.Confirmed ==>
            && step.Update? && s.requests[step.q].booking == b && s.requests[step.q].target.Cancelled?
            && s.requests[step.q].phase == History.Saw(BookingDomain.Confirmed) && t.db.bookings[b].status.Cancelled?)
      && (step.Update? && s.requests[step.q].booking == b && s.db.bookings[b].status == s.requests[step.q].phase.status ==>
            t.db.bookings[b].status == s.requests[step.q].target)
  {
    if step.Update? {
      assert BookingDomain.Allowed(s.requests[step.q].phase.status, s.requests[step.q].target);
    }
  }

  lemma OneStepOfARun(states: seq<State>, steps: seq<Step>, i: nat, b: nat)
    requires Run(false, states, steps) && i < |steps|
    ensures Over(states[i], b) ==> StatusKept(states[i], states[i + 1], b)
    ensures IsConfirmed(states[i], b) ==>
              if Cancels(states[i], steps[i], b) then Over(states[i + 1], b) else IsConfirmed(states[i + 1], b)
  {
    LedgerRuns.EveryRunKeeps(false, states, steps, i);
    OneStepOf(states[i], steps[i], b);
  }

  lemma {:induction false} OverForGood(states: seq<State>, steps: seq<Step>, i: nat, j: nat, b: nat)
    requires Run(false, states, steps) && i <= j < |states| && Over(states[i], b)
    ensures Over(states[j], b) && states[j].booking.db.bookings[b].status == states[i].booking.db.bookings[b].status
    decreases j
  {
    if i < j {
      OverForGood(states, steps, i, j - 1, b);
      OneStepOfARun(states, steps, j - 1, b);
    }
  }

  /** A confirmed booking stays confirmed exactly until it is cancelled. */
  lemma {:induction false} ConfirmedUntilCancelled(states: seq<State>, steps: seq<Step>, i: nat, j: nat, b: nat)
    requires Run(false, states, steps) && i <= j < |states| && IsConfirmed(states[i], b)
    ensures IsConfirmed(states[j], b) || Over(states[j], b)
    ensures IsConfirmed(states[j], b) <==> forall n :: i <= n < j ==> !Cancels(states[n], steps[n], b)
    decreases j
  {
    if i < j {
      ConfirmedUntilCancelled(states, steps, i, j - 1, b);
      ConfirmedOneStep(states, steps, j - 1, b);
    }
  }

  lemma ConfirmedOneStep(states: seq<State>, steps: seq<Step>, i: nat, b: nat)
    requires Run(false, states, steps) && i < |steps| && (IsConfirmed(states[i], b) || Over(states[i], b))
    ensures IsConfirmed(states[i + 1], b) || Over(states[i + 1], b)
    ensures IsConfirmed(states[i + 1], b) <==> IsConfirmed(states[i], b) && !Cancels(states[i], steps[i], b)
  {
    OneStepOfARun(states, steps, i, b);
  }

  // ---- the guarantees

  /** A refund is ordered only for a booking that is cancelled or expired, and stays so for good,
      as long as no confirm of it that had read "pending" came to its update and found it confirmed. */
  lemma RefundOnlyWhenOver(states: seq<State>, steps: seq<Step>, i: nat, j: nat, p: nat)
    requires Run(false, states, steps) && i <= j < |states|
    requires p in states[i].t.payments && HasRefund(states[i].t.outbox, p)
    requires !MisledBefore(states, steps, i, states[i].t.payments[p].booking)
    ensures var b := states[i].t.payments[p].booking;
      && Over(states[i], b) && Over(states[j], b)
      && (states[i].booking.db.bookings[b].status.Cancelled? || states[i].booking.db.bookings[b].status.Expired?)
      && states[j].booking.db.bookings[b].status == states[i].booking.db.bookings[b].status
  {
    MisledSetIsExact(states, steps, i);
    EveryRunKeeps(MisledSet(states, steps, i), states, steps, i);
    OverForGood(states, steps, i, j, states[i].t.payments[p].booking);
  }

  /** Whatever overlaps: a refund means that the booking is no longer pending. */
  lemma RefundNeverWhilePending(states: seq<State>, steps: seq<Step>, i: nat, p: nat)
    requires Run(false, states, steps) && i < |states|
    requires p in states[i].t.payments && HasRefund(states[i].t.outbox, p)
    ensures Over(states[i], states[i].t.payments[p].booking) || IsConfirmed(states[i], states[i].t.payments[p].booking)
  {
    MisledSetIsExact(states, steps, i);
    EveryRunKeeps(MisledSet(states, steps, i), states, steps, i);
  }

  /** Exactly when money goes back for a booking that is neither cancelled nor expired: some confirm
      of it that had read "pending" came to its update and found it confirmed, and nobody has
      cancelled the booking since. */
  lemma WrongRefundExactly(states: seq<State>, steps: seq<Step>, i: nat, p: nat)
    requires Run(false, states, steps) && i < |states|
    requires p in states[i].t.payments && HasRefund(states[i].t.outbox, p)
    ensures var b := states[i].t.payments[p].booking;
      !Over(states[i], b) <==> exists m :: 0 <= m < i && MisleadsForGood(states, steps, m, i, b)
  {
    var b := states[i].t.payments[p].booking;
    RefundNeverWhilePending(states, steps, i, p);
    if m :| 0 <= m < i && MisleadsForGood(states, steps, m, i, b) {
      ConfirmedUntilCancelled(states, steps, m, i, b);
    }
    if !Over(states[i], b) {
      if !MisledBefore(states, steps, i, b) {
        RefundOnlyWhenOver(states, steps, i, i, p);
      }
      var m :| 0 <= m < i && Misleads(states[m], steps[m], b);
      ConfirmedUntilCancelled(states, steps, m, i, b);
      assert MisleadsForGood(states, steps, m, i, b);
    }
  }

  ghost predicate MisleadsForGood(states: seq<State>, steps: seq<Step>, m: nat, i: nat, b: nat)
    requires m < i < |states| && i <= |steps|
  {
    Misleads(states[m], steps[m], b) && forall n :: m <= n < i ==> !Cancels(states[n], steps[n], b)
  }
}
