/** What ties payments, commands and the provider's records together, and what settling
    commands does to it. */
module LedgerRules {
  import opened Common
  import opened PaymentsService
  import opened Ledger
  import BookingDomain
  import BookingService
  import History = BookingHistory

  predicate Published(row: Row) {
    row.publishedAt.Some?
  }

  predicate SameCommand(a: Command, b: Command) {
    (a.Confirm? && b.Confirm? && a.payment == b.payment) || (a.Refund? && b.Refund? && a.payment == b.payment)
  }

  ghost predicate HasConfirm(outbox: map<nat, Row>, p: nat) {
    exists c :: c in outbox && outbox[c].command.Confirm? && outbox[c].command.payment == p
  }

  ghost predicate HasRefund(outbox: map<nat, Row>, p: nat) {
    exists c :: c in outbox && outbox[c].command.Refund? && outbox[c].command.payment == p
  }

  /** The booking was confirmed at some moment: its outbox says so. */
  ghost predicate WasConfirmed(log: seq<BookingService.Row>, b: nat) {
    BookingDomain.Confirmed in History.Trail(log, b)
  }

  /** No command is there twice. */
  ghost predicate UniqueCommands(outbox: map<nat, Row>) {
    forall c, d | c in outbox && d in outbox && SameCommand(outbox[c].command, outbox[d].command) :: c == d
  }

  ghost predicate CommandSound(t: Tables, row: Row) {
    match row.command
    case Confirm(p, b) =>
      && p in t.payments && t.payments[p].status.Succeeded? && t.payments[p].booking == b
      && (HasRefund(t.outbox, p) ==> Published(row))
    case Refund(p) =>
      && p in t.payments && t.payments[p].status.Succeeded?
      && (Published(row) <==> t.payments[p].refundedAt.Some?)
      && (Published(row) <==> !t.payments[p].needsRefund)
    case Unknown(_) => false
  }

  ghost predicate PaymentSound(t: Tables, refunds: map<nat, (RefundRequest, string)>, p: nat)
    requires p in t.payments
  {
    var payment := t.payments[p];
    && (payment.status.Succeeded? <==> HasConfirm(t.outbox, p))
    && (payment.needsRefund || payment.refundedAt.Some? ==> HasRefund(t.outbox, p))
    && (payment.refundedAt.Some? ==> p in refunds && payment.refundId == Some(refunds[p].1))
  }

  /** A published confirm that led to no refund was accepted by a booking that was confirmed. */
  ghost predicate ConfirmsHonest(outbox: map<nat, Row>, log: seq<BookingService.Row>) {
    forall c | c in outbox && outbox[c].command.Confirm? && Published(outbox[c])
               && !HasRefund(outbox, outbox[c].command.payment) :: WasConfirmed(log, outbox[c].command.booking)
  }

  ghost predicate TablesSound(t: Tables, refunds: map<nat, (RefundRequest, string)>, log: seq<BookingService.Row>) {
    && UniqueCommands(t.outbox)
    && (forall c :: c in t.outbox ==> CommandSound(t, t.outbox[c]))
    && (forall p :: p in t.payments ==> PaymentSound(t, refunds, p))
    && ConfirmsHonest(t.outbox, log)
  }

  /** The outcome is one the neighbours gave for this command. */
  ghost predicate OutcomeFits(command: Command, outcome: Outcome, refunds: map<nat, (RefundRequest, string)>,
                              log: seq<BookingService.Row>) {
    match command
    case Confirm(_, b) => outcome.Rejected? || (outcome.Accepted? && WasConfirmed(log, b))
    case Refund(p) => outcome.Refunded? && p in refunds && outcome.id == refunds[p].1
    case Unknown(_) => false
  }

  // ---- settling one command

  lemma SettleKeeps(t: Tables, refunds: map<nat, (RefundRequest, string)>, log: seq<BookingService.Row>,
                    c: nat, outcome: Outcome, now: int)
    requires TablesSound(t, refunds, log) && c in t.outbox && !Published(t.outbox[c])
    requires OutcomeFits(t.outbox[c].command, outcome, refunds, log)
    requires outcome.Rejected? ==> outcome.refund !in t.outbox
    ensures TablesSound(Settle(t, c, outcome, now), refunds, log)
  {
    match t.outbox[c].command {
      case Confirm(p, b) =>
        if outcome.Rejected? {
          RejectKeeps(t, refunds, log, c, p, outcome.refund, now);
        } else {
          AcceptKeeps(t, refunds, log, c, now);
        }
      case Refund(p) => RefundKeeps(t, refunds, log, c, p, now);
    }
  }

  lemma AcceptKeeps(t: Tables, refunds: map<nat, (RefundRequest, string)>, log: seq<BookingService.Row>, c: nat, now: int)
    requires TablesSound(t, refunds, log) && c in t.outbox && t.outbox[c].command.Confirm?
    requires WasConfirmed(log, t.outbox[c].command.booking)
    ensures TablesSound(t.(outbox := t.outbox[c := t.outbox[c].(publishedAt := Some(now))]), refunds, log)
  {
    var t' := t.(outbox := t.outbox[c := t.outbox[c].(publishedAt := Some(now))]);
    SameCommands(t.outbox, t'.outbox);
    CommandsStaySound(t, t', refunds);
    HonestStays(t.outbox, t'.outbox, log);
  }

  lemma HonestStays(outbox: map<nat, Row>, outbox': map<nat, Row>, log: seq<BookingService.Row>)
    requires ConfirmsHonest(outbox, log)
    requires forall p :: HasRefund(outbox, p) ==> HasRefund(outbox', p)
    requires forall c :: c in outbox' && outbox'[c].command.Confirm? ==> c in outbox && outbox'[c].command == outbox[c].command
    requires forall c :: c in outbox' && outbox'[c].command.Confirm? && Published(outbox'[c]) && !Published(outbox[c]) ==>
               WasConfirmed(log, outbox'[c].command.booking) || HasRefund(outbox', outbox'[c].command.payment)
    ensures ConfirmsHonest(outbox', log)
  {
  }

  /** Marking confirms, and counting failures, keeps commands and payments sound. */
  lemma CommandsStaySound(t: Tables, t': Tables, refunds: map<nat, (RefundRequest, string)>)
    requires forall c :: c in t.outbox ==> CommandSound(t, t.outbox[c])
    requires forall p :: p in t.payments ==> PaymentSound(t, refunds, p)
    requires t'.payments == t.payments && t'.outbox.Keys == t.outbox.Keys
    requires forall p :: HasConfirm(t'.outbox, p) <==> HasConfirm(t.outbox, p)
    requires forall p :: HasRefund(t'.outbox, p) <==> HasRefund(t.outbox, p)
    requires forall c :: c in t.outbox ==> t'.outbox[c].command == t.outbox[c].command
    requires forall c :: c in t.outbox && t'.outbox[c].publishedAt != t.outbox[c].publishedAt ==>
               t.outbox[c].command.Confirm? && Published(t'.outbox[c])
    ensures forall c :: c in t'.outbox ==> CommandSound(t', t'.outbox[c])
    ensures forall p :: p in t'.payments ==> PaymentSound(t', refunds, p)
  {
    forall d | d in t'.outbox ensures CommandSound(t', t'.outbox[d]) {
      assert CommandSound(t, t.outbox[d]);
    }
    forall p | p in t'.payments ensures PaymentSound(t', refunds, p) {
      assert PaymentSound(t, refunds, p);
    }
  }

  /** Marks and counters do not change which commands there are. */
  lemma SameCommands(outbox: map<nat, Row>, outbox': map<nat, Row>)
    requires outbox'.Keys == outbox.Keys && forall c :: c in outbox ==> outbox'[c].command == outbox[c].command
    ensures forall p :: HasConfirm(outbox', p) <==> HasConfirm(outbox, p)
    ensures forall p :: HasRefund(outbox', p) <==> HasRefund(outbox, p)
    ensures UniqueCommands(outbox) ==> UniqueCommands(outbox')
  {
    forall p ensures HasConfirm(outbox', p) <==> HasConfirm(outbox, p) {
      if c :| c in outbox && outbox[c].command.Confirm? && outbox[c].command.payment == p {
        assert outbox'[c].command == outbox[c].command;
      }
    }
    forall p ensures HasRefund(outbox', p) <==> HasRefund(outbox, p) {
      if c :| c in outbox && outbox[c].command.Refund? && outbox[c].command.payment == p {
        assert outbox'[c].command == outbox[c].command;
      }
    }
  }

  /** A new command adds itself and nothing else. */
  lemma AddCommand(outbox: map<nat, Row>, c: nat, row: Row)
    requires c !in outbox && !row.command.Unknown? && UniqueCommands(outbox)
    ensures forall p :: HasConfirm(outbox[c := row], p) <==>
              HasConfirm(outbox, p) || (row.command.Confirm? && row.command.payment == p)
    ensures forall p :: HasRefund(outbox[c := row], p) <==>
              HasRefund(outbox, p) || (row.command.Refund? && row.command.payment == p)
    ensures (if row.command.Confirm? then !HasConfirm(outbox, row.command.payment)
             else !HasRefund(outbox, row.command.payment)) ==> UniqueCommands(outbox[c := row])
  {
    var after := outbox[c := row];
    forall p ensures HasConfirm(after, p) <==> HasConfirm(outbox, p) || (row.command.Confirm? && row.command.payment == p) {
      if d :| d in outbox && outbox[d].command.Confirm? && outbox[d].command.payment == p {
        assert after[d] == outbox[d];
      }
      assert after[c] == row;
    }
    forall p ensures HasRefund(after, p) <==> HasRefund(outbox, p) || (row.command.Refund? && row.command.payment == p) {
      if d :| d in outbox && outbox[d].command.Refund? && outbox[d].command.payment == p {
        assert after[d] == outbox[d];
      }
      assert after[c] == row;
    }
  }

  lemma RejectKeeps(t: Tables, refunds: map<nat, (RefundRequest, string)>, log: seq<BookingService.Row>,
                    c: nat, p: nat, n: nat, now: int)
    requires TablesSound(t, refunds, log) && c in t.outbox && !Published(t.outbox[c]) && n !in t.outbox
    requires t.outbox[c].command.Confirm? && t.outbox[c].command.payment == p
    ensures TablesSound(Settle(t, c, Rejected(n), now), refunds, log)
  {
    var t' := Settle(t, c, Rejected(n), now);
    assert CommandSound(t, t.outbox[c]);
    RejectAddsRefund(t, c, p, n, now);
    assert PaymentSound(t, refunds, p);
    RejectKeepsCommands(t, c, p, n, now);
    RejectKeepsPayments(t, t', refunds, p);
    RejectStaysHonest(t, log, c, n, now);
  }

  lemma RejectStaysHonest(t: Tables, log: seq<BookingService.Row>, c: nat, n: nat, now: int)
    requires ConfirmsHonest(t.outbox, log) && c in t.outbox && n !in t.outbox && t.outbox[c].command.Confirm?
    requires forall x :: HasRefund(Settle(t, c, Rejected(n), now).outbox, x) <==>
               HasRefund(t.outbox, x) || x == t.outbox[c].command.payment
    ensures ConfirmsHonest(Settle(t, c, Rejected(n), now).outbox, log)
  {
    HonestStays(t.outbox, Settle(t, c, Rejected(n), now).outbox, log);
  }

  lemma RejectKeepsCommands(t: Tables, c: nat, p: nat, n: nat, now: int)
    requires UniqueCommands(t.outbox) && (forall d :: d in t.outbox ==> CommandSound(t, t.outbox[d]))
    requires c in t.outbox && !Published(t.outbox[c]) && n !in t.outbox
    requires t.outbox[c].command.Confirm? && t.outbox[c].command.payment == p && !HasRefund(t.outbox, p)
    requires p in t.payments && t.payments[p].refundedAt.None?
    requires forall x :: HasRefund(Settle(t, c, Rejected(n), now).outbox, x) <==> HasRefund(t.outbox, x) || x == p
    ensures var t' := Settle(t, c, Rejected(n), now); forall d :: d in t'.outbox ==> CommandSound(t', t'.outbox[d])
  {
    var t' := Settle(t, c, Rejected(n), now);
    assert CommandSound(t, t.outbox[c]);
    forall d | d in t'.outbox && d != n ensures CommandSound(t', t'.outbox[d]) {
      RejectKeepsCommand(t, c, p, n, now, d);
    }
  }

  lemma RejectKeepsPayments(t: Tables, t': Tables, refunds: map<nat, (RefundRequest, string)>, p: nat)
    requires forall x :: x in t.payments ==> PaymentSound(t, refunds, x)
    requires p in t.payments && t'.payments == t.payments[p := t.payments[p].(needsRefund := true)]
    requires forall x :: HasConfirm(t'.outbox, x) <==> HasConfirm(t.outbox, x)
    requires forall x :: HasRefund(t'.outbox, x) <==> HasRefund(t.outbox, x) || x == p
    ensures forall x :: x in t'.payments ==> PaymentSound(t', refunds, x)
  {
    forall x | x in t'.payments ensures PaymentSound(t', refunds, x) {
      assert PaymentSound(t, refunds, x);
    }
  }

  lemma RejectAddsRefund(t: Tables, c: nat, p: nat, n: nat, now: int)
    requires UniqueCommands(t.outbox) && c in t.outbox && !Published(t.outbox[c]) && n !in t.outbox
    requires t.outbox[c].command.Confirm? && t.outbox[c].command.payment == p && CommandSound(t, t.outbox[c])
    ensures var outbox' := Settle(t, c, Rejected(n), now).outbox;
      && UniqueCommands(outbox') && !HasRefund(t.outbox, p)
      && (forall x :: HasConfirm(outbox', x) <==> HasConfirm(t.outbox, x))
      && (forall x :: HasRefund(outbox', x) <==> HasRefund(t.outbox, x) || x == p)
  {
    var marked := t.outbox[c := t.outbox[c].(publishedAt := Some(now))];
    SameCommands(t.outbox, marked);
    AddCommand(marked, n, Row(Refund(p), None, 0));
  }

  lemma RejectKeepsCommand(t: Tables, c: nat, p: nat, n: nat, now: int, d: nat)
    requires UniqueCommands(t.outbox) && c in t.outbox && !Published(t.outbox[c]) && n !in t.outbox
    requires t.outbox[c].command.Confirm? && t.outbox[c].command.payment == p && CommandSound(t, t.outbox[c])
    requires d in t.outbox && CommandSound(t, t.outbox[d]) && !HasRefund(t.outbox, p)
    requires forall x :: HasRefund(Settle(t, c, Rejected(n), now).outbox, x) <==> HasRefund(t.outbox, x) || x == p
    ensures var t' := Settle(t, c, Rejected(n), now); CommandSound(t', t'.outbox[d])
  {
    if t.outbox[d].command.Confirm? && t.outbox[d].command.payment == p {
      assert SameCommand(t.outbox[d].command, t.outbox[c].command);
    }
    if t.outbox[d].command.Refund? {
      assert HasRefund(t.outbox, t.outbox[d].command.payment);
    }
  }

  lemma RefundKeeps(t: Tables, refunds: map<nat, (RefundRequest, string)>, log: seq<BookingService.Row>,
                    c: nat, p: nat, now: int)
    requires TablesSound(t, refunds, log) && c in t.outbox && !Published(t.outbox[c])
    requires t.outbox[c].command == Refund(p) && p in refunds
    ensures TablesSound(Settle(t, c, Refunded(refunds[p].1), now), refunds, log)
  {
    var t' := Settle(t, c, Refunded(refunds[p].1), now);
    assert CommandSound(t, t.outbox[c]);
    SameCommands(t.outbox, t'.outbox);
    forall d | d in t'.outbox ensures CommandSound(t', t'.outbox[d]) {
      assert CommandSound(t, t.outbox[d]);
      if t.outbox[d].command == Refund(p) {
        assert SameCommand(t.outbox[d].command, t.outbox[c].command);
      }
    }
    forall x | x in t'.payments ensures PaymentSound(t', refunds, x) {
      assert PaymentSound(t, refunds, x);
    }
  }

  // ---- settling a batch

  ghost predicate Unsettled(t: Tables, batch: seq<nat>) {
    && (forall i, j :: 0 <= i < j < |batch| ==> batch[i] != batch[j])
    && forall i :: 0 <= i < |batch| ==> batch[i] in t.outbox && !Published(t.outbox[batch[i]])
  }

  ghost predicate OutcomesFit(t: Tables, refunds: map<nat, (RefundRequest, string)>, log: seq<BookingService.Row>,
                              batch: seq<nat>, done: seq<Outcome>) {
    && |done| <= |batch|
    && (forall i :: 0 <= i < |done| ==>
          batch[i] in t.outbox && OutcomeFits(t.outbox[batch[i]].command, done[i], refunds, log))
    && (forall i :: 0 <= i < |done| && done[i].Rejected? ==> done[i].refund !in t.outbox)
    && (forall i, j :: 0 <= i < j < |done| && done[i].Rejected? && done[j].Rejected? ==> done[i].refund != done[j].refund)
  }

  /** What a payment keeps for good. */
  predicate SameTerms(a: Payment, b: Payment) {
    a.booking == b.booking && a.amount == b.amount && a.currency == b.currency && a.charge == b.charge && a.status == b.status
  }

  ghost predicate OnlySettled(t: Tables, t': Tables, batch: seq<nat>, done: seq<Outcome>)
    requires |done| <= |batch|
  {
    && t'.payments.Keys == t.payments.Keys && t'.events == t.events
    && (forall p :: p in t.payments ==> SameTerms(t.payments[p], t'.payments[p]))
    && (forall c :: c in t.outbox ==> c in t'.outbox && t'.outbox[c].command == t.outbox[c].command)
    && (forall c :: c in t.outbox && c !in batch[..|done|] ==> t'.outbox[c] == t.outbox[c])
    && (forall c :: c in t'.outbox && c !in t.outbox ==> Rejected(c) in done)
  }

  lemma {:induction false} SettleAllKeeps(t: Tables, refunds: map<nat, (RefundRequest, string)>,
                                          log: seq<BookingService.Row>, batch: seq<nat>, done: seq<Outcome>, now: int)
    requires TablesSound(t, refunds, log) && Unsettled(t, batch) && OutcomesFit(t, refunds, log, batch, done)
    ensures (forall c :: c in batch ==> c in t.outbox)
    ensures TablesSound(SettleAll(t, batch, done, now), refunds, log)
    ensures OnlySettled(t, SettleAll(t, batch, done, now), batch, done)
    decreases |done|
  {
    if done != [] {
      var n := |done| - 1;
      SettleAllKeeps(t, refunds, log, batch, done[..n], now);
      var before := SettleAll(t, batch, done[..n], now);
      NextIsReady(t, refunds, log, before, batch, done, n);
      SettleKeeps(before, refunds, log, batch[n], done[n], now);
      SettleTouches(before, batch[n], done[n], now);
      OneMoreSettled(t, before, Settle(before, batch[n], done[n], now), batch, done, n);
    }
  }

  /** After the first `n` outcomes the next command is as it was, and its outcome still fits. */
  lemma NextIsReady(t: Tables, refunds: map<nat, (RefundRequest, string)>, log: seq<BookingService.Row>,
                    before: Tables, batch: seq<nat>, done: seq<Outcome>, n: nat)
    requires n < |done| && Unsettled(t, batch) && OutcomesFit(t, refunds, log, batch, done)
    requires OnlySettled(t, before, batch, done[..n])
    ensures batch[n] in t.outbox && batch[n] in before.outbox && before.outbox[batch[n]] == t.outbox[batch[n]]
    ensures OutcomeFits(before.outbox[batch[n]].command, done[n], refunds, log)
    ensures done[n].Rejected? ==> done[n].refund !in before.outbox
  {
    assert batch[n] !in batch[..n];
  }

  lemma OneMoreSettled(t: Tables, before: Tables, after: Tables, batch: seq<nat>, done: seq<Outcome>, n: nat)
    requires |done| == n + 1 <= |batch| && OnlySettled(t, before, batch, done[..n])
    requires after.payments.Keys == before.payments.Keys && after.events == before.events
    requires forall p :: p in before.payments ==> SameTerms(before.payments[p], after.payments[p])
    requires forall d :: d in before.outbox ==> d in after.outbox && after.outbox[d].command == before.outbox[d].command
    requires forall d :: d in before.outbox && d != batch[n] ==> after.outbox[d] == before.outbox[d]
    requires forall d :: d in after.outbox && d !in before.outbox ==> done[n] == Rejected(d)
    ensures OnlySettled(t, after, batch, done)
  {
    assert batch[..n + 1] == batch[..n] + [batch[n]] && done == done[..n] + [done[n]];
  }

  lemma SettleTouches(t: Tables, c: nat, outcome: Outcome, now: int)
    requires c in t.outbox && (outcome.Rejected? ==> outcome.refund !in t.outbox)
    ensures var t' := Settle(t, c, outcome, now);
      && t'.payments.Keys == t.payments.Keys && t'.events == t.events
      && (forall p :: p in t.payments ==> SameTerms(t.payments[p], t'.payments[p]))
      && (forall d :: d in t.outbox ==> d in t'.outbox && t'.outbox[d].command == t.outbox[d].command)
      && (forall d :: d in t.outbox && d != c ==> t'.outbox[d] == t.outbox[d])
      && (forall d :: d in t'.outbox && d !in t.outbox ==> outcome == Rejected(d))
  {
  }
}
