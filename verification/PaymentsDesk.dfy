/** The payments service and its relay as they run: sessions over tables that change at commit,
    and a provider that keeps whatever it was asked to do. */
module PaymentsDesk {
  import opened Common
  import opened PaymentsService
  import Ledger
  import Batches

  predicate AmountsPositive(payments: map<nat, Payment>) {
    forall p :: p in payments ==> payments[p].amount > 0
  }

  /** The event names a payment whose outcome is still open. */
  predicate PendingOne(payments: map<nat, Payment>, reference: Option<nat>) {
    reference.Some? && reference.value in payments && payments[reference.value].status == Pending
  }

  datatype Violation = AmountCheck | BookingUnique

  /** A pass over the first `n` commands of a batch: what the provider has seen, and the outcomes of
      the commands delivered before the first failure. Later commands see the effects of earlier ones.
      A refund command ordered at position `i` gets the id `base + i`. */
  function Pass(t: Tables, ps: PayStub, batch: seq<nat>, replies: nat -> Reply, now: int, base: nat, n: nat)
    : (r: (PayStub, seq<Outcome>))
    requires n <= |batch| && forall c :: c in batch ==> c in t.outbox
    ensures |r.1| <= n
  {
    if n == 0 then (ps, [])
    else
      var (ps', done) := Pass(t, ps, batch, replies, now, base, n - 1);
      if |done| < n - 1 then (ps', done)
      else
        assert batch[n - 1] in batch;
        var view := Ledger.SettleAll(t, batch, done, now);
        var (ps'', outcome) := Deliver(view, ps', t.outbox[batch[n - 1]].command, replies(n - 1), base + n - 1);
        (ps'', if outcome.Some? then done + [outcome.value] else done)
  }

  /** The committed tables after a pass. */
  function AfterPass(t: Tables, batch: seq<nat>, done: seq<Outcome>, now: int): Tables
    requires |done| <= |batch| && forall c :: c in batch ==> c in t.outbox
  {
    if |done| == |batch| then Ledger.SettleAll(t, batch, done, now) else CountFailure(t, batch[|done|])
  }

  /** A failed pass leaves the tables as they were but for one counter; a complete one marks every
      command of its batch and no other. */
  lemma PassMarksAllOrNothing(t: Tables, batch: seq<nat>, done: seq<Outcome>, now: int, c: nat)
    requires |done| <= |batch| && (forall d :: d in batch ==> d in t.outbox) && c in t.outbox
    requires forall i :: 0 <= i < |done| && done[i].Rejected? ==> done[i].refund !in t.outbox
    ensures var after := AfterPass(t, batch, done, now);
      && c in after.outbox && after.outbox[c].command == t.outbox[c].command
      && (c !in batch ==> after.outbox[c] == t.outbox[c])
      && (|done| == |batch| && c in batch ==> after.outbox[c] == t.outbox[c].(publishedAt := Some(now)))
      && (|done| < |batch| ==>
            && after.payments == t.payments && after.outbox.Keys == t.outbox.Keys
            && after.outbox[c].publishedAt == t.outbox[c].publishedAt
            && after.outbox[c].attempts == t.outbox[c].attempts + (if c == batch[|done|] then 1 else 0))
  {
    if |done| == |batch| {
      SettledRow(t, batch, done, now, c);
      assert batch[..|done|] == batch;
    } else {
      assert batch[|done|] in batch;
    }
  }

  lemma {:induction false} SettledRow(t: Tables, batch: seq<nat>, done: seq<Outcome>, now: int, c: nat)
    requires |done| <= |batch| && (forall d :: d in batch ==> d in t.outbox) && c in t.outbox
    requires forall i :: 0 <= i < |done| && done[i].Rejected? ==> done[i].refund !in t.outbox
    ensures Ledger.SettleAll(t, batch, done, now).outbox[c]
         == if c in batch[..|done|] then t.outbox[c].(publishedAt := Some(now)) else t.outbox[c]
    decreases |done|
  {
    if done != [] {
      var n := |done| - 1;
      SettledRow(t, batch, done[..n], now, c);
      assert batch[..n + 1] == batch[..n] + [batch[n]];
    }
  }

  class Session {
    // what the open transaction sees, and what is committed
    var t: Tables
    var saved: Tables
    // the provider
    var ps: PayStub
    // the next time-ordered identifier
    var nextId: nat

    ghost predicate Valid()
      reads this
    {
      && t == saved && OnePerBooking(t.payments) && AmountsPositive(t.payments)
      && (forall p :: p in t.payments ==> p < nextId)
      && (forall c :: c in t.outbox ==> c < nextId)
    }

    constructor ()
      ensures Valid() && saved == EMPTY && ps == NO_CALLS
    {
      t, saved, ps, nextId := EMPTY, EMPTY, NO_CALLS, 0;
    }

    /** The constraints are checked here: first the amounts, then one payment per booking. */
    method Commit() returns (violation: Option<Violation>)
      modifies this`saved
      ensures violation == if !AmountsPositive(t.payments) then Some(AmountCheck)
                           else if !OnePerBooking(t.payments) then Some(BookingUnique) else None
      ensures saved == if violation.Some? then old(saved) else t
    {
      if !AmountsPositive(t.payments) {
        return Some(AmountCheck);
      }
      if !OnePerBooking(t.payments) {
        return Some(BookingUnique);
      }
      saved := t;
      return None;
    }

    method Rollback()
      modifies this`t
      ensures t == saved
    {
      t := saved;
    }

    method AskForCharge(key: nat, request: ChargeRequest, offer: Charge, answer: Answer) returns (charge: Option<Charge>)
      modifies this`ps
      ensures (ps, charge) == CreateCharge(old(ps), key, request, offer, answer)
    {
      var (ps', created) := CreateCharge(ps, key, request, offer, answer);
      ps := ps';
      charge := created;
    }

    /** `existing` is the payment the booking had already, if it had one. */
    method CreatePayment(booking: nat, amount: int, currency: string, offer: Charge, answer: Answer)
      returns (r: Result<(nat, bool), Error>, id: nat, existing: nat)
      requires Valid()
      modifies this
      ensures Valid() && id !in old(saved).payments
      ensures HasPayment(old(saved).payments, booking) ==>
                existing in old(saved).payments && old(saved).payments[existing].booking == booking
      ensures (saved.payments, ps, r)
           == PaymentsService.CreatePayment(old(saved).payments, old(ps), id, existing, booking, amount, currency, offer, answer)
      ensures saved.outbox == old(saved).outbox && saved.events == old(saved).events
      ensures CallTold(old(saved).payments, old(ps), saved.payments, ps, r, id, existing, booking, amount, currency, offer, answer)
    {
      var violation;
      violation, id, existing := InsertPayment(booking, amount, currency);
      CallIsTold(old(saved).payments, old(ps), id, existing, booking, amount, currency, offer, answer);
      var created, payment := true, id;
      if violation.Some? {
        if violation != Some(BookingUnique) {
          return Err(AmountNotPositive), id, existing;
        }
        created, payment := false, existing;
        if t.payments[payment].amount != amount || t.payments[payment].currency != currency {
          return Err(PaymentConflict), id, existing;
        }
      }
      if t.payments[payment].charge.None? {
        Rollback();
        var charge := AskForCharge(payment, ChargeRequest(amount, currency, payment), offer, answer);
        if charge.None? {
          return Err(ProviderUnavailable), id, existing;
        }
        t := t.(payments := StoreCharge(t.payments, payment, charge.value));
        var _ := Commit();
      }
      r := Ok((payment, created));
    }

    /** The first transaction of a call: the insert, decided by the constraints at commit. */
    method InsertPayment(booking: nat, amount: int, currency: string)
      returns (violation: Option<Violation>, id: nat, existing: nat)
      requires Valid()
      modifies this`t, this`saved, this`nextId
      ensures Valid() && id == old(nextId)
      ensures violation == if amount <= 0 then Some(AmountCheck)
                           else if HasPayment(old(saved).payments, booking) then Some(BookingUnique) else None
      ensures HasPayment(old(saved).payments, booking) ==>
                existing in old(saved).payments && old(saved).payments[existing].booking == booking
      ensures saved == if violation.Some? then old(saved)
                       else old(saved).(payments := old(saved).payments[id := NewPayment(booking, amount, currency)])
    {
      id, existing := nextId, nextId;
      nextId := nextId + 1;
      if HasPayment(saved.payments, booking) {
        existing :| existing in saved.payments && saved.payments[existing].booking == booking;
      }
      t := t.(payments := t.payments[id := NewPayment(booking, amount, currency)]);
      InsertMeetsConstraint(saved.payments, booking, id, t.payments[id]);
      violation := Commit();
      if violation.Some? {
        Rollback();
      }
    }

    /** Applies a provider event exactly once: only a new one of the two known types is recorded, and
        only a pending payment moves, to where the type says; a success orders the confirmation. */
    method HandleWebhook(event: string, eventType: string, reference: Option<nat>) returns (outcome: Webhook)
      requires Valid()
      modifies this
      ensures Valid() && ps == old(ps)
      ensures outcome == if eventType !in {"charge.succeeded", "charge.failed"} then Ignored
                         else if event in old(saved).events then Duplicate
                         else if PendingOne(old(saved).payments, reference) then Processed else Ignored
      ensures saved.events == if eventType in {"charge.succeeded", "charge.failed"} && event !in old(saved).events
                              then old(saved).events[event := eventType] else old(saved).events
      ensures outcome.Processed? ==>
                var p := reference.value; var payment := old(saved).payments[p];
                && (eventType == "charge.succeeded" ==>
                      && saved.payments == old(saved).payments[p := payment.(status := Succeeded)]
                      && saved.outbox == old(saved).outbox[old(nextId) := Row(Confirm(p, payment.booking), None, 0)])
                && (eventType == "charge.failed" ==>
                      saved.payments == old(saved).payments[p := payment.(status := Failed)] && saved.outbox == old(saved).outbox)
      ensures !outcome.Processed? ==> saved.payments == old(saved).payments && saved.outbox == old(saved).outbox
      ensures (saved, outcome) == PaymentsService.HandleWebhook(old(saved), event, eventType, reference, old(nextId))
    {
      var target := Target(eventType);
      if target.None? {
        return Ignored;
      }
      if event in t.events {
        Rollback();
        return Duplicate;
      }
      t := t.(events := t.events[event := eventType]);
      if reference.None? || reference.value !in t.payments || target.value !in Allowed(t.payments[reference.value].status) {
        var _ := Commit();
        return Ignored;
      }
      var p := reference.value;
      t := t.(payments := t.payments[p := t.payments[p].(status := target.value)]);
      if target.value.Succeeded? {
        Enqueue(Confirm(p, t.payments[p].booking));
      }
      var _ := Commit();
      return Processed;
    }

    method Enqueue(command: Command)
      modifies this`t, this`nextId
      ensures nextId == old(nextId) + 1
      ensures t == old(t).(outbox := old(t).outbox[old(nextId) := Row(command, None, 0)])
    {
      t := t.(outbox := t.outbox[nextId := Row(command, None, 0)]);
      nextId := nextId + 1;
    }

    // ---- the relay

    method RecordFailure(c: nat)
      requires t == saved && OnePerBooking(t.payments) && AmountsPositive(t.payments)
      modifies this`t, this`saved
      ensures t == saved == CountFailure(old(saved), c)
    {
      t := CountFailure(t, c);
      var _ := Commit();
    }

    /** Asks booking; a refusal marks the payment and writes the refund command. */
    method ConfirmBooking(p: nat, answer: BookingAnswer) returns (ok: bool)
      modifies this`t, this`nextId
      ensures ok == !answer.Unavailable? && nextId == old(nextId) + 1
      ensures t == if !answer.Declines? then old(t)
                   else Tables(if p in old(t).payments then old(t).payments[p := old(t).payments[p].(needsRefund := true)]
                               else old(t).payments, old(t).events, old(t).outbox[old(nextId) := Row(Refund(p), None, 0)])
    {
      if answer.Declines? {
        if p in t.payments {
          t := t.(payments := t.payments[p := t.payments[p].(needsRefund := true)]);
        }
        Enqueue(Refund(p));
      } else {
        nextId := nextId + 1;
      }
      ok := !answer.Unavailable?;
    }

    /** Asks the provider for the refund, under the payment's own key. */
    method RefundPayment(p: nat, offer: string, answer: Answer, now: int) returns (ok: bool)
      modifies this`t, this`ps, this`nextId
      ensures nextId == old(nextId) + 1
      ensures ps == PayBack(old(t), old(ps), p, offer, answer).0
      ensures p in old(t).payments && old(t).payments[p].refundedAt != None ==> ok && t == old(t) && ps == old(ps)
      ensures p !in old(t).payments || (old(t).payments[p].refundedAt == None && old(t).payments[p].charge == None) ==>
                !ok && t == old(t) && ps == old(ps)
      ensures p in old(t).payments && old(t).payments[p].refundedAt == None && old(t).payments[p].charge.Some? ==>
                RefundTold(old(t), old(ps), t, ps, ok, p, offer, answer, now)
      ensures var outcome := PayBack(old(t), old(ps), p, offer, answer).1;
        ok == outcome.Some?
        && t == if ok && outcome.value.Refunded?
                then old(t).(payments := old(t).payments[p := old(t).payments[p].(
                       needsRefund := false, refundId := Some(outcome.value.id), refundedAt := Some(now))])
                else old(t)
    {
      nextId := nextId + 1;
      if p !in t.payments {
        return false;
      }
      if t.payments[p].refundedAt.Some? {
        return true;
      }
      if t.payments[p].charge.None? {
        return false;
      }
      var (ps', id) := CreateRefund(ps, p, RefundRequest(t.payments[p].charge.value.id, t.payments[p].amount), offer, answer);
      ps := ps';
      if id.None? {
        return false;
      }
      t := t.(payments := t.payments[p := t.payments[p].(needsRefund := false, refundId := id, refundedAt := Some(now))]);
      return true;
    }

    /** Carries out one command inside the open transaction, and marks it when that worked. */
    method DeliverOne(c: nat, reply: Reply, now: int) returns (ok: bool)
      requires c in t.outbox && nextId !in t.outbox
      modifies this`t, this`ps, this`nextId
      ensures nextId == old(nextId) + 1
      ensures var (ps', outcome) := Deliver(old(t), old(ps), old(t).outbox[c].command, reply, old(nextId));
        && ps == ps' && ok == outcome.Some?
        && (ok ==> t == Settle(old(t), c, outcome.value, now))
      ensures old(t).outbox[c].command.Unknown? ==> !ok && ps == old(ps)
      ensures ok ==> c in t.outbox && t.outbox[c].publishedAt == Some(now)
    {
      match t.outbox[c].command {
        case Confirm(p, _) => ok := ConfirmBooking(p, reply.booking);
        case Refund(p) => ok := RefundPayment(p, reply.offer, reply.provider, now);
        case Unknown(_) => ok, nextId := false, nextId + 1;
      }
      if ok {
        t := t.(outbox := t.outbox[c := t.outbox[c].(publishedAt := Some(now))]);
      }
    }

    method ProcessPending(now: int, batchSize: nat, locked: set<nat>, replies: nat -> Reply)
      returns (done: nat, ghost batch: seq<nat>)
      requires Valid()
      modifies this
      ensures Valid()
      ensures batch == Batches.FirstN(Eligible(old(saved), locked), batchSize)
      ensures Batches.FirstOf(batch, OpenIds(old(saved).outbox, locked), batchSize)
      ensures Passed(old(saved), old(ps), batch, replies, now, old(nextId), done, saved, ps)
    {
      var messages := Batches.FirstN(Eligible(t, locked), batchSize);
      batch := messages;
      Batches.FirstNIsPrefix(Eligible(t, locked), batchSize);
      OpenBatch(t, locked, batchSize);
      done := Process(messages, now, replies);
    }

    method Process(messages: seq<nat>, now: int, replies: nat -> Reply) returns (done: nat)
      requires Valid() && forall c :: c in messages ==> c in t.outbox
      modifies this
      ensures Valid()
      ensures Passed(old(saved), old(ps), messages, replies, now, old(nextId), done, saved, ps)
    {
      ghost var before, ps0, base := t, ps, nextId;
      done := 0;
      while done < |messages|
        invariant 0 <= done <= |messages| && saved == before && nextId == base + done
        invariant Midway(before, ps0, messages, replies, now, base, done, t, ps)
      {
        NextIsThere(before, ps0, messages, replies, now, base, done, t, ps);
        MidwayStep(before, ps0, messages, replies, now, base, done, t, ps);
        var ok := TryNext(messages[done], replies(done), now);
        if !ok {
          return;
        }
        done := done + 1;
      }
      MidwayEnds(before, ps0, messages, replies, now, base, t, ps);
      var _ := Commit();
    }

    /** One turn of the loop: the command is delivered, or the transaction is undone and the failure recorded. */
    method TryNext(c: nat, reply: Reply, now: int) returns (ok: bool)
      requires c in t.outbox && nextId !in t.outbox
      requires OnePerBooking(saved.payments) && AmountsPositive(saved.payments)
      requires (forall p :: p in saved.payments ==> p < nextId) && forall d :: d in saved.outbox ==> d < nextId
      modifies this
      ensures nextId == old(nextId) + 1 && (!ok ==> Valid())
      ensures var (ps', outcome) := Deliver(old(t), old(ps), old(t).outbox[c].command, reply, old(nextId));
        && ps == ps' && ok == outcome.Some?
        && (ok ==> t == Settle(old(t), c, outcome.value, now) && saved == old(saved))
        && (!ok ==> t == saved == CountFailure(old(saved), c))
    {
      ok := DeliverOne(c, reply, now);
      if !ok {
        Rollback();
        RecordFailure(c);
      }
    }
  }

  /** The commands nobody has carried out and nobody is at, whatever they order. */
  ghost function OpenIds(outbox: map<nat, Row>, locked: set<nat>): set<nat> {
    (set c | c in outbox && outbox[c].publishedAt == None) - locked
  }

  lemma OpenBatch(t: Tables, locked: set<nat>, limit: nat)
    ensures Batches.FirstOf(Batches.FirstN(Eligible(t, locked), limit), OpenIds(t.outbox, locked), limit)
  {
    assert Eligible(t, locked) == OpenIds(t.outbox, locked);
    Batches.FirstNIsFirst(Eligible(t, locked), limit);
  }

  /** What a call of create_payment comes to: a refused amount, a conflict on other terms, or a payment that
      has its charge or gets it. The provider is asked at most once, under the id of the payment, for
      its sum; what it created for that key before is what it answers again. */
  ghost predicate CallTold(before: map<nat, Payment>, ps: PayStub, after: map<nat, Payment>, ps': PayStub,
                           r: Result<(nat, bool), Error>, id: nat, existing: nat, booking: nat, amount: int, currency: string,
                           offer: Charge, answer: Answer)
  {
    var known := exists p :: p in before && before[p].booking == booking;
    if amount <= 0 then after == before && ps' == ps && r == Err(AmountNotPositive)
    else if known then
      && existing in before
      && if before[existing].amount != amount || before[existing].currency != currency
         then after == before && ps' == ps && r == Err(PaymentConflict)
         else if before[existing].charge != None then after == before && ps' == ps && r == Ok((existing, false))
         else ChargeTold(before, ps, after, ps', r, existing, false, amount, currency, offer, answer)
    else
      var rows := before[id := Payment(booking, amount, currency, Pending, None, false, None, None)];
      ChargeTold(rows, ps, after, ps', r, id, true, amount, currency, offer, answer)
  }

  lemma CallIsTold(before: map<nat, Payment>, ps: PayStub, id: nat, existing: nat, booking: nat, amount: int, currency: string,
                   offer: Charge, answer: Answer)
    requires HasPayment(before, booking) ==> existing in before && before[existing].booking == booking
    ensures var (after, ps', r) := PaymentsService.CreatePayment(before, ps, id, existing, booking, amount, currency, offer, answer);
      CallTold(before, ps, after, ps', r, id, existing, booking, amount, currency, offer, answer)
  {
  }

  /** The provider is asked once, under the id of the payment, to return its charge in full. */
  ghost predicate RefundTold(t: Tables, ps: PayStub, t': Tables, ps': PayStub, ok: bool, p: nat, offer: string, answer: Answer, now: int)
    requires p in t.payments && t.payments[p].charge.Some?
  {
    var request := RefundRequest(t.payments[p].charge.value.id, t.payments[p].amount);
    var refund := if p in ps.refunds then ps.refunds[p].1 else offer;
    && ps'.refundCalls == ps.refundCalls + [(p, request)] && ps'.charges == ps.charges && ps'.chargeCalls == ps.chargeCalls
    && ps'.refunds == (if answer == Refused || p in ps.refunds then ps.refunds else ps.refunds[p := (request, offer)])
    && ok == (answer == Heard)
    && t' == if !ok then t
             else t.(payments := t.payments[p := t.payments[p].(needsRefund := false, refundId := Some(refund), refundedAt := Some(now))])
  }

  ghost predicate ChargeTold(rows: map<nat, Payment>, ps: PayStub, after: map<nat, Payment>, ps': PayStub,
                             r: Result<(nat, bool), Error>, p: nat, created: bool, amount: int, currency: string,
                             offer: Charge, answer: Answer)
    requires p in rows
  {
    var request := ChargeRequest(amount, currency, p);
    var charge := if p in ps.charges then ps.charges[p].1 else offer;
    && ps'.chargeCalls == ps.chargeCalls + [(p, request)] && ps'.refunds == ps.refunds && ps'.refundCalls == ps.refundCalls
    && ps'.charges == (if answer == Refused || p in ps.charges then ps.charges else ps.charges[p := (request, offer)])
    && if answer == Heard then after == rows[p := rows[p].(charge := Some(charge))] && r == Ok((p, created))
       else after == rows && r == Err(ProviderUnavailable)
  }

  /** What a pass over a batch leaves behind, once committed. */
  ghost predicate Passed(before: Tables, ps0: PayStub, batch: seq<nat>, replies: nat -> Reply, now: int, base: nat,
                         done: nat, after: Tables, ps: PayStub)
  {
    && (forall c :: c in batch ==> c in before.outbox)
    && var (ps', outcomes) := Pass(before, ps0, batch, replies, now, base, |batch|);
       done == |outcomes| && ps == ps' && after == AfterPass(before, batch, outcomes, now)
  }

  /** The state of a pass that has delivered the first `n` commands: nothing is committed yet. */
  ghost predicate Midway(before: Tables, ps0: PayStub, batch: seq<nat>, replies: nat -> Reply, now: int, base: nat,
                         n: nat, t: Tables, ps: PayStub) {
    && n <= |batch| && (forall c :: c in batch ==> c in before.outbox)
    && var (ps', done) := Pass(before, ps0, batch, replies, now, base, n);
       ps == ps' && |done| == n && RefundsAbove(done, base) && t == Ledger.SettleAll(before, batch, done, now)
  }

  lemma MidwayIsSound(before: Tables, ps0: PayStub, batch: seq<nat>, replies: nat -> Reply, now: int, base: nat,
                      n: nat, t: Tables, ps: PayStub)
    requires Midway(before, ps0, batch, replies, now, base, n, t, ps)
    requires OnePerBooking(before.payments) && AmountsPositive(before.payments)
    requires (forall p :: p in before.payments ==> p < base) && forall d :: d in before.outbox ==> d < base
    ensures OnePerBooking(t.payments) && AmountsPositive(t.payments)
    ensures (forall p :: p in t.payments ==> p < base) && forall d :: d in t.outbox ==> d < base + n
    ensures forall c :: c in batch ==> c in t.outbox && t.outbox[c].command == before.outbox[c].command
    ensures n < |batch| ==> batch[n] in batch
  {
    var done := Pass(before, ps0, batch, replies, now, base, n).1;
    SettledTerms(before, batch, done, now);
    SettledIds(before, batch, done, now, base);
    forall c | c in batch ensures c in t.outbox && t.outbox[c].command == before.outbox[c].command {
      SettledRow(before, batch, done, now, c);
    }
  }

  lemma MidwayEnds(before: Tables, ps0: PayStub, batch: seq<nat>, replies: nat -> Reply, now: int, base: nat,
                   t: Tables, ps: PayStub)
    requires Midway(before, ps0, batch, replies, now, base, |batch|, t, ps)
    requires OnePerBooking(before.payments) && AmountsPositive(before.payments)
    requires (forall p :: p in before.payments ==> p < base) && forall d :: d in before.outbox ==> d < base
    ensures OnePerBooking(t.payments) && AmountsPositive(t.payments)
    ensures (forall p :: p in t.payments ==> p < base) && forall d :: d in t.outbox ==> d < base + |batch|
    ensures Passed(before, ps0, batch, replies, now, base, |batch|, t, ps)
  {
    MidwayIsSound(before, ps0, batch, replies, now, base, |batch|, t, ps);
  }

  lemma NextIsThere(before: Tables, ps0: PayStub, batch: seq<nat>, replies: nat -> Reply, now: int, base: nat,
                    n: nat, t: Tables, ps: PayStub)
    requires Midway(before, ps0, batch, replies, now, base, n, t, ps) && n < |batch|
    requires OnePerBooking(before.payments) && AmountsPositive(before.payments)
    requires (forall p :: p in before.payments ==> p < base) && forall d :: d in before.outbox ==> d < base
    ensures batch[n] in before.outbox && batch[n] in t.outbox && base + n !in t.outbox
    ensures t.outbox[batch[n]].command == before.outbox[batch[n]].command
  {
    MidwayIsSound(before, ps0, batch, replies, now, base, n, t, ps);
  }

  /** The next command: the pass is over, or one command further. */
  lemma MidwayStep(before: Tables, ps0: PayStub, batch: seq<nat>, replies: nat -> Reply, now: int, base: nat,
                   n: nat, t: Tables, ps: PayStub)
    requires Midway(before, ps0, batch, replies, now, base, n, t, ps) && n < |batch|
    requires batch[n] in before.outbox && batch[n] in t.outbox && t.outbox[batch[n]].command == before.outbox[batch[n]].command
    ensures var (ps', outcome) := Deliver(t, ps, t.outbox[batch[n]].command, replies(n), base + n);
      && (outcome.Some? ==>
            Midway(before, ps0, batch, replies, now, base, n + 1, Settle(t, batch[n], outcome.value, now), ps'))
      && (outcome.None? ==> Passed(before, ps0, batch, replies, now, base, n, CountFailure(before, batch[n]), ps'))
  {
    StepOfPass(before, ps0, batch, replies, now, base, n);
    var outcome := Deliver(t, ps, t.outbox[batch[n]].command, replies(n), base + n).1;
    if outcome.Some? {
      SettleOneMore(before, batch, Pass(before, ps0, batch, replies, now, base, n).1, outcome.value, now, base);
    }
  }

  predicate RefundsAbove(done: seq<Outcome>, base: nat) {
    forall i :: 0 <= i < |done| && done[i].Rejected? ==> base <= done[i].refund < base + |done|
  }

  /** One more command: the pass ends here, or has one more outcome. */
  lemma StepOfPass(t: Tables, ps: PayStub, batch: seq<nat>, replies: nat -> Reply, now: int, base: nat, n: nat)
    requires n < |batch| && forall c :: c in batch ==> c in t.outbox
    requires |Pass(t, ps, batch, replies, now, base, n).1| == n
    ensures batch[n] in batch
    ensures var (ps', done) := Pass(t, ps, batch, replies, now, base, n);
      var view := Ledger.SettleAll(t, batch, done, now);
      var (ps'', outcome) := Deliver(view, ps', t.outbox[batch[n]].command, replies(n), base + n);
      var after := Pass(t, ps, batch, replies, now, base, n + 1);
      && after.0 == ps'' && after.1 == (if outcome.Some? then done + [outcome.value] else done)
      && (outcome.None? ==> Pass(t, ps, batch, replies, now, base, |batch|) == after)
  {
    assert batch[n] in batch;
    if |Pass(t, ps, batch, replies, now, base, n + 1).1| == n {
      PassStopped(t, ps, batch, replies, now, base, n + 1, |batch|);
    }
  }

  lemma SettleOneMore(t: Tables, batch: seq<nat>, done: seq<Outcome>, outcome: Outcome, now: int, base: nat)
    requires |done| < |batch| && (forall c :: c in batch ==> c in t.outbox)
    ensures batch[|done|] in batch
    ensures Ledger.SettleAll(t, batch, done + [outcome], now)
         == Settle(Ledger.SettleAll(t, batch, done, now), batch[|done|], outcome, now)
    ensures RefundsAbove(done, base) && (outcome.Rejected? ==> outcome.refund == base + |done|) ==>
              RefundsAbove(done + [outcome], base)
  {
    assert batch[|done|] in batch && (done + [outcome])[..|done|] == done;
  }

  lemma {:induction false} PassStopped(t: Tables, ps: PayStub, batch: seq<nat>, replies: nat -> Reply, now: int,
                                       base: nat, n: nat, m: nat)
    requires n <= m <= |batch| && forall c :: c in batch ==> c in t.outbox
    requires |Pass(t, ps, batch, replies, now, base, n).1| < n
    ensures Pass(t, ps, batch, replies, now, base, m) == Pass(t, ps, batch, replies, now, base, n)
  {
    if n < m {
      PassStopped(t, ps, batch, replies, now, base, n, m - 1);
    }
  }

  /** Settling keeps bookings and amounts. */
  lemma {:induction false} SettledTerms(t: Tables, batch: seq<nat>, done: seq<Outcome>, now: int)
    requires |done| <= |batch| && (forall d :: d in batch ==> d in t.outbox)
    ensures var t' := Ledger.SettleAll(t, batch, done, now);
      && t'.payments.Keys == t.payments.Keys
      && (forall p :: p in t.payments ==>
            t'.payments[p].booking == t.payments[p].booking && t'.payments[p].amount == t.payments[p].amount)
    decreases |done|
  {
    if done != [] {
      SettledTerms(t, batch, done[..|done| - 1], now);
    }
  }

  /** New commands are the ones the rejections announced. */
  lemma {:induction false} SettledIds(t: Tables, batch: seq<nat>, done: seq<Outcome>, now: int, base: nat)
    requires |done| <= |batch| && (forall d :: d in batch ==> d in t.outbox) && forall d :: d in t.outbox ==> d < base
    ensures forall d :: d in Ledger.SettleAll(t, batch, done, now).outbox ==> d < base || Rejected(d) in done
    decreases |done|
  {
    if done != [] {
      var n := |done| - 1;
      SettledIds(t, batch, done[..n], now, base);
      assert done == done[..n] + [done[n]];
    }
  }

  /** Inserting a payment meets the unique constraint exactly when the booking has one. */
  lemma InsertMeetsConstraint(payments: map<nat, Payment>, booking: nat, id: nat, payment: Payment)
    requires OnePerBooking(payments) && id !in payments && payment.booking == booking
    ensures OnePerBooking(payments[id := payment]) <==> !HasPayment(payments, booking)
  {
    var after := payments[id := payment];
    if p :| p in payments && payments[p].booking == booking {
      assert after[p] == payments[p] && after[id] == payment && p != id;
    }
  }
}
