/** What the ledger guarantees about each payment, read off the invariant of every run. */
module LedgerStages {
  import opened Common
  import opened PaymentsService
  import opened Ledger
  import opened LedgerRules
  import opened LedgerRuns

  /** Where a succeeded payment is: its confirm command waits; booking accepted it; booking
      refused it and the refund waits; the money went back. */
  datatype PaymentStage = ConfirmWaits | BookingConfirmed | RefundWaits | MoneyReturned

  ghost predicate ConfirmPublished(outbox: map<nat, Row>, p: nat) {
    exists c :: c in outbox && outbox[c].command.Confirm? && outbox[c].command.payment == p && Published(outbox[c])
  }

  ghost predicate RefundUnpublished(outbox: map<nat, Row>, p: nat) {
    exists c :: c in outbox && outbox[c].command.Refund? && outbox[c].command.payment == p && !Published(outbox[c])
  }

  ghost predicate InStage(s: State, p: nat, stage: PaymentStage)
    requires p in s.t.payments
  {
    var payment, outbox := s.t.payments[p], s.t.outbox;
    match stage
    case ConfirmWaits =>
      !ConfirmPublished(outbox, p) && !HasRefund(outbox, p) && !payment.needsRefund && payment.refundedAt.None?
    case BookingConfirmed =>
      && ConfirmPublished(outbox, p) && !HasRefund(outbox, p) && !payment.needsRefund && payment.refundedAt.None?
      && WasConfirmed(s.booking.db.outbox, payment.booking)
    case RefundWaits =>
      ConfirmPublished(outbox, p) && RefundUnpublished(outbox, p) && payment.needsRefund && payment.refundedAt.None?
    case MoneyReturned =>
      && ConfirmPublished(outbox, p) && HasRefund(outbox, p) && !RefundUnpublished(outbox, p)
      && !payment.needsRefund && payment.refundedAt.Some?
      && p in s.ps.refunds && payment.refundId == Some(s.ps.refunds[p].1)
  }

  /** Of each kind of command a payment has at most one. */
  ghost predicate OneCommand(outbox: map<nat, Row>, p: nat) {
    && (forall c, d | c in outbox && d in outbox && outbox[c].command.Confirm? && outbox[d].command.Confirm?
                      && outbox[c].command.payment == p == outbox[d].command.payment :: c == d)
    && (forall c, d | c in outbox && d in outbox && outbox[c].command.Refund? && outbox[d].command.Refund?
                      && outbox[c].command.payment == p == outbox[d].command.payment :: c == d)
  }

  function StageOf(payment: Payment, confirmed: bool): PaymentStage {
    if payment.refundedAt.Some? then MoneyReturned
    else if payment.needsRefund then RefundWaits
    else if confirmed then BookingConfirmed else ConfirmWaits
  }

  /** In every reachable state a succeeded payment has exactly one confirm command and is in
      exactly one stage, despite everything that was rolled back on the way. */
  lemma SucceededPaymentHasOneStage(serial: bool, states: seq<State>, steps: seq<Step>, i: nat, p: nat)
    requires Run(serial, states, steps) && i < |states|
    requires p in states[i].t.payments && states[i].t.payments[p].status.Succeeded?
    ensures HasConfirm(states[i].t.outbox, p) && OneCommand(states[i].t.outbox, p)
    ensures forall stage :: InStage(states[i], p, stage)
              <==> stage == StageOf(states[i].t.payments[p], ConfirmPublished(states[i].t.outbox, p))
  {
    EveryRunKeeps(serial, states, steps, i);
    var s := states[i];
    assert PaymentSound(s.t, s.ps.refunds, p);
    OneOfEach(s.t, p);
    ConfirmTells(s, p);
    if HasRefund(s.t.outbox, p) {
      RefundTells(s.t, p);
    }
  }

  lemma OneOfEach(t: Tables, p: nat)
    requires UniqueCommands(t.outbox)
    ensures OneCommand(t.outbox, p)
  {
    forall c, d | c in t.outbox && d in t.outbox && SameCommand(t.outbox[c].command, t.outbox[d].command)
      ensures c == d {}
  }

  lemma ConfirmTells(s: State, p: nat)
    requires Inv(s) && p in s.t.payments && s.t.payments[p].status.Succeeded?
    ensures HasRefund(s.t.outbox, p) ==> ConfirmPublished(s.t.outbox, p)
    ensures ConfirmPublished(s.t.outbox, p) && !HasRefund(s.t.outbox, p)
            ==> WasConfirmed(s.booking.db.outbox, s.t.payments[p].booking)
  {
    assert PaymentSound(s.t, s.ps.refunds, p);
    var c :| c in s.t.outbox && s.t.outbox[c].command.Confirm? && s.t.outbox[c].command.payment == p;
    assert CommandSound(s.t, s.t.outbox[c]);
    if ConfirmPublished(s.t.outbox, p) {
      var d :| d in s.t.outbox && s.t.outbox[d].command.Confirm? && s.t.outbox[d].command.payment == p && Published(s.t.outbox[d]);
      assert SameCommand(s.t.outbox[c].command, s.t.outbox[d].command);
    }
  }

  lemma RefundTells(t: Tables, p: nat)
    requires UniqueCommands(t.outbox) && (forall c :: c in t.outbox ==> CommandSound(t, t.outbox[c]))
    requires p in t.payments && HasRefund(t.outbox, p)
    ensures RefundUnpublished(t.outbox, p) <==> t.payments[p].refundedAt.None?
    ensures t.payments[p].needsRefund <==> t.payments[p].refundedAt.None?
  {
    var c :| c in t.outbox && t.outbox[c].command.Refund? && t.outbox[c].command.payment == p;
    assert CommandSound(t, t.outbox[c]);
    if RefundUnpublished(t.outbox, p) {
      var d :| d in t.outbox && t.outbox[d].command.Refund? && t.outbox[d].command.payment == p && !Published(t.outbox[d]);
      assert SameCommand(t.outbox[c].command, t.outbox[d].command);
    }
  }

  /** A payment that has not succeeded has no command, and no money is on its way back. */
  lemma OtherPaymentsHaveNothing(serial: bool, states: seq<State>, steps: seq<Step>, i: nat, p: nat)
    requires Run(serial, states, steps) && i < |states|
    requires p in states[i].t.payments && !states[i].t.payments[p].status.Succeeded?
    ensures var s := states[i];
      && !HasConfirm(s.t.outbox, p) && !HasRefund(s.t.outbox, p)
      && !s.t.payments[p].needsRefund && s.t.payments[p].refundedAt.None?
  {
    EveryRunKeeps(serial, states, steps, i);
    assert PaymentSound(states[i].t, states[i].ps.refunds, p);
    PendingHasNoCommands(states[i].t, p);
  }
}
