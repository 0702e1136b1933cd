/** What the provider said and what became of it, over whole runs: a payment has succeeded, and its
    booking is being confirmed, if and only if an event said so. */
module LedgerEvents {
  import opened Common
  import opened Paths
  import opened PaymentsService
  import opened Ledger
  import opened LedgerRules
  import opened LedgerRuns

  /** The step delivers a new event of this type for the payment, which was still pending. */
  predicate Decides(s: State, step: Step, p: nat, eventType: string) {
    && step.Webhook? && step.eventType == eventType && step.reference == Some(p) && step.event !in s.t.events
    && p in s.t.payments && s.t.payments[p].status == Pending
  }

  ghost predicate Decided(states: seq<State>, steps: seq<Step>, i: nat, p: nat, eventType: string) {
    exists m :: 0 <= m < i && m < |states| && m < |steps| && Decides(states[m], steps[m], p, eventType)
  }

  predicate HasStatus(t: Tables, p: nat, status: Status) {
    p in t.payments && t.payments[p].status == status
  }

  /** One step: a payment becomes succeeded or failed exactly when such an event says so. */
  lemma StatusAfterStep(s: State, step: Step, p: nat)
    requires Inv(s) && Enabled(s, step)
    ensures var t, t' := s.t, Next(s, step).t;
      && (HasStatus(t', p, Succeeded) <==> HasStatus(t, p, Succeeded) || Decides(s, step, p, "charge.succeeded"))
      && (HasStatus(t', p, Failed) <==> HasStatus(t, p, Failed) || Decides(s, step, p, "charge.failed"))
  {
    match step {
      case Commit(r, now) =>
        var pass := s.passes[r];
        assert PassSound(s.t, s.ps.refunds, s.booking.db.outbox, s.booking.requests, pass);
        SettleAllKeeps(s.t, s.ps.refunds, s.booking.db.outbox, pass.batch, pass.done, now);
      case Insert(c, id) => assert id !in s.t.payments;
      case Webhook(event, eventType, reference, id) => WebhookMoves(s.t, event, eventType, reference, id, p);
      case KeepCharge(c) =>
      case NoteFailure(r) =>
      case _ => assert Next(s, step).t == s.t;
    }
  }

  lemma WebhookMoves(t: Tables, event: string, eventType: string, reference: Option<nat>, id: nat, p: nat)
    ensures var t' := HandleWebhook(t, event, eventType, reference, id).0;
      var moves := event !in t.events && reference == Some(p) && HasStatus(t, p, Pending);
      && (HasStatus(t', p, Succeeded) <==> HasStatus(t, p, Succeeded) || (moves && eventType == "charge.succeeded"))
      && (HasStatus(t', p, Failed) <==> HasStatus(t, p, Failed) || (moves && eventType == "charge.failed"))
  {
  }

  /** In every run: a payment has succeeded if and only if a new "charge.succeeded" named it while it was
      pending, failed if and only if a "charge.failed" did, and is pending otherwise. */
  lemma StatusExactly(serial: bool, states: seq<State>, steps: seq<Step>, i: nat, p: nat)
    requires Run(serial, states, steps) && i < |states|
    ensures HasStatus(states[i].t, p, Succeeded) <==> Decided(states, steps, i, p, "charge.succeeded")
    ensures HasStatus(states[i].t, p, Failed) <==> Decided(states, steps, i, p, "charge.failed")
  {
    BecomesExactly(serial, states, steps, i, p, Succeeded, "charge.succeeded");
    BecomesExactly(serial, states, steps, i, p, Failed, "charge.failed");
  }

  lemma BecomesExactly(serial: bool, states: seq<State>, steps: seq<Step>, i: nat, p: nat, status: Status, eventType: string)
    requires Run(serial, states, steps) && i < |states|
    requires (status, eventType) in {(Status.Succeeded, "charge.succeeded"), (Status.Failed, "charge.failed")}
    ensures HasStatus(states[i].t, p, status) <==> Decided(states, steps, i, p, eventType)
  {
    var now := seq(|states|, k requires 0 <= k < |states| => HasStatus(states[k].t, p, status));
    var acts := seq(|steps|, k requires 0 <= k < |steps| => Decides(states[k], steps[k], p, eventType));
    forall k | 0 <= k < |steps| ensures StepSwitches(now, acts, k) {
      StatusInARun(serial, states, steps, k, p);
    }
    SwitchedExactly(now, acts, i);
    assert forall m :: 0 <= m < i ==> acts[m] == Decides(states[m], steps[m], p, eventType);
  }

  lemma StatusInARun(serial: bool, states: seq<State>, steps: seq<Step>, n: nat, p: nat)
    requires Run(serial, states, steps) && n < |steps|
    ensures var t, t' := states[n].t, states[n + 1].t;
      && (HasStatus(t', p, Succeeded) <==> HasStatus(t, p, Succeeded) || Decides(states[n], steps[n], p, "charge.succeeded"))
      && (HasStatus(t', p, Failed) <==> HasStatus(t, p, Failed) || Decides(states[n], steps[n], p, "charge.failed"))
  {
    EveryRunKeeps(serial, states, steps, n);
    StatusAfterStep(states[n], steps[n], p);
  }

  /** A command to confirm is about the booking its payment is for. */
  predicate RightBooking(t: Tables, command: Command) {
    command.Confirm? ==> command.payment in t.payments && command.booking == t.payments[command.payment].booking
  }

  /** So nobody's booking is confirmed without their money: in every run the command to confirm is
      there if and only if the provider said that the payment succeeded. */
  lemma ConfirmExactlyWhenPaid(serial: bool, states: seq<State>, steps: seq<Step>, i: nat, p: nat)
    requires Run(serial, states, steps) && i < |states|
    ensures HasConfirm(states[i].t.outbox, p) <==> Decided(states, steps, i, p, "charge.succeeded")
    ensures forall c :: c in states[i].t.outbox ==> RightBooking(states[i].t, states[i].t.outbox[c].command)
  {
    EveryRunKeeps(serial, states, steps, i);
    StatusExactly(serial, states, steps, i, p);
    var t := states[i].t;
    if HasConfirm(t.outbox, p) {
      var c :| c in t.outbox && t.outbox[c].command.Confirm? && t.outbox[c].command.payment == p;
      assert CommandSound(t, t.outbox[c]);
    }
    if p in t.payments {
      assert PaymentSound(t, states[i].ps.refunds, p);
    }
    forall c | c in t.outbox ensures RightBooking(t, t.outbox[c].command) {
      assert CommandSound(t, t.outbox[c]);
    }
  }

  /** And nobody gets money back that was never paid. */
  lemma RefundOnlyWhenPaid(serial: bool, states: seq<State>, steps: seq<Step>, i: nat, p: nat)
    requires Run(serial, states, steps) && i < |states| && HasRefund(states[i].t.outbox, p)
    ensures Decided(states, steps, i, p, "charge.succeeded")
  {
    EveryRunKeeps(serial, states, steps, i);
    StatusExactly(serial, states, steps, i, p);
    var t := states[i].t;
    var c :| c in t.outbox && t.outbox[c].command.Refund? && t.outbox[c].command.payment == p;
    assert CommandSound(t, t.outbox[c]);
  }
}
