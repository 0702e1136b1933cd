/** Money and the provider: one payment for a booking, one request for a key, and a refund of
    exactly what was charged, however calls, retries, relays and webhooks interleave. */
module LedgerCharges {
  import opened Common
  import opened PaymentsService
  import opened Ledger
  import opened LedgerRules
  import LedgerRuns

  // ---- what the provider was told

  /** The one charge request a payment may lead to. */
  function ChargeTerms(payments: map<nat, Payment>, p: nat): ChargeRequest
    requires p in payments
  {
    ChargeRequest(payments[p].amount, payments[p].currency, p)
  }

  /** The one refund request a payment may lead to. */
  ghost predicate IsRefundOf(payments: map<nat, Payment>, p: nat, request: RefundRequest) {
    p in payments && payments[p].charge.Some? && request == RefundRequest(payments[p].charge.value.id, payments[p].amount)
  }

  ghost predicate ChargesSound(payments: map<nat, Payment>, ps: PayStub) {
    && (forall i :: 0 <= i < |ps.chargeCalls| ==>
          ps.chargeCalls[i].0 in payments && ps.chargeCalls[i].1 == ChargeTerms(payments, ps.chargeCalls[i].0))
    && (forall k :: k in ps.charges ==> k in payments && ps.charges[k].0 == ChargeTerms(payments, k))
    && (forall p :: p in payments && payments[p].charge.Some? ==> p in ps.charges && ps.charges[p].1 == payments[p].charge.value)
  }

  ghost predicate RefundsSound(payments: map<nat, Payment>, ps: PayStub) {
    && (forall i :: 0 <= i < |ps.refundCalls| ==> IsRefundOf(payments, ps.refundCalls[i].0, ps.refundCalls[i].1))
    && (forall k :: k in ps.refunds ==> IsRefundOf(payments, k, ps.refunds[k].0))
  }

  /** The payment a call works on is the one its booking has, on its own terms. */
  ghost predicate WorksOn(payments: map<nat, Payment>, caller: Caller, p: nat) {
    && p in payments && payments[p].booking == caller.booking
    && payments[p].amount == caller.amount && payments[p].currency == caller.currency
  }

  ghost predicate CallerSound(payments: map<nat, Payment>, ps: PayStub, caller: Caller) {
    match caller.stage
    case Made(p) => WorksOn(payments, caller, p)
    case Calling(p, _) => WorksOn(payments, caller, p)
    case Storing(p, _, charge) => WorksOn(payments, caller, p) && p in ps.charges && ps.charges[p].1 == charge
    case Done(p, _) => WorksOn(payments, caller, p)
    case _ => true
  }

  /** This call inserted the payment. */
  predicate Created(stage: Stage, p: nat) {
    match stage
    case Made(x) => x == p
    case Calling(x, created) => created && x == p
    case Storing(x, created, _) => created && x == p
    case Done(x, created) => created && x == p
    case _ => false
  }

  ghost predicate CallersSound(payments: map<nat, Payment>, ps: PayStub, callers: map<nat, Caller>) {
    && (forall c :: c in callers ==> CallerSound(payments, ps, callers[c]))
    && (forall c, d, p | c in callers && d in callers && Created(callers[c].stage, p) && Created(callers[d].stage, p) :: c == d)
  }

  ghost predicate Sound(payments: map<nat, Payment>, ps: PayStub, callers: map<nat, Caller>) {
    && OnePerBooking(payments) && ChargesSound(payments, ps) && RefundsSound(payments, ps)
    && CallersSound(payments, ps, callers)
  }

  ghost predicate Inv(s: State) {
    LedgerRuns.Inv(s) && Sound(s.t.payments, s.ps, s.callers)
  }

  // ---- what stays

  /** Payments stay, on their terms, and a charge once stored stays as it is. */
  ghost predicate TermsKept(payments: map<nat, Payment>, payments': map<nat, Payment>) {
    forall p :: p in payments ==>
      && p in payments' && payments'[p].booking == payments[p].booking
      && payments'[p].amount == payments[p].amount && payments'[p].currency == payments[p].currency
      && (payments[p].charge.Some? ==> payments'[p].charge == payments[p].charge)
  }

  /** The provider forgets nothing. */
  ghost predicate Remembers(ps: PayStub, ps': PayStub) {
    forall k :: k in ps.charges ==> k in ps'.charges && ps'.charges[k] == ps.charges[k]
  }

  lemma CallersCarry(payments: map<nat, Payment>, payments': map<nat, Payment>, ps: PayStub, ps': PayStub,
                     callers: map<nat, Caller>)
    requires TermsKept(payments, payments') && Remembers(ps, ps') && CallersSound(payments, ps, callers)
    ensures CallersSound(payments', ps', callers)
  {
    forall c | c in callers ensures CallerSound(payments', ps', callers[c]) {
      assert CallerSound(payments, ps, callers[c]);
    }
  }

  lemma RefundsCarry(payments: map<nat, Payment>, payments': map<nat, Payment>, ps: PayStub)
    requires TermsKept(payments, payments') && RefundsSound(payments, ps)
    ensures RefundsSound(payments', ps)
  {
    forall i | 0 <= i < |ps.refundCalls| ensures IsRefundOf(payments', ps.refundCalls[i].0, ps.refundCalls[i].1) {
      assert IsRefundOf(payments, ps.refundCalls[i].0, ps.refundCalls[i].1);
    }
    forall k | k in ps.refunds ensures IsRefundOf(payments', k, ps.refunds[k].0) {
      assert IsRefundOf(payments, k, ps.refunds[k].0);
    }
  }

  /** One caller moves on; the others stay as they are. */
  lemma CallerMoves(payments: map<nat, Payment>, ps: PayStub, callers: map<nat, Caller>, c: nat, caller: Caller)
    requires CallersSound(payments, ps, callers) && CallerSound(payments, ps, caller)
    requires forall p :: Created(caller.stage, p) ==>
      (c in callers && Created(callers[c].stage, p)) || (forall d :: d in callers && d != c ==> !Created(callers[d].stage, p))
    ensures CallersSound(payments, ps, callers[c := caller])
  {
    var callers' := callers[c := caller];
    forall a, b, p | a in callers' && b in callers' && Created(callers'[a].stage, p) && Created(callers'[b].stage, p)
      ensures a == b
    {
    }
  }

  // ---- steps

  lemma InsertKeeps(s: State, c: nat, id: nat)
    requires Inv(s) && Enabled(s, Insert(c, id))
    ensures var s' := Next(s, Insert(c, id)); TermsKept(s.t.payments, s'.t.payments) && Sound(s'.t.payments, s'.ps, s'.callers)
  {
    var caller := s.callers[c];
    var (t', stage) := AfterInsert(s.t, caller, id);
    assert TermsKept(s.t.payments, t'.payments);
    RefundsCarry(s.t.payments, t'.payments, s.ps);
    CallersCarry(s.t.payments, t'.payments, s.ps, s.ps, s.callers);
    NobodyCreated(s, id);
    CallerMoves(t'.payments, s.ps, s.callers, c, caller.(stage := stage));
  }

  lemma NobodyCreated(s: State, id: nat)
    requires CallersSound(s.t.payments, s.ps, s.callers) && id !in s.t.payments
    ensures forall d :: d in s.callers ==> !Created(s.callers[d].stage, id)
  {
    forall d | d in s.callers ensures !Created(s.callers[d].stage, id) {
      assert CallerSound(s.t.payments, s.ps, s.callers[d]);
    }
  }

  lemma ReadPaymentKeeps(s: State, c: nat)
    requires Sound(s.t.payments, s.ps, s.callers) && Enabled(s, ReadPayment(c))
    ensures Sound(s.t.payments, s.ps, Next(s, ReadPayment(c)).callers)
  {
    var caller := s.callers[c];
    assert CallerSound(s.t.payments, s.ps, caller);
    var stage := AfterReadPayment(s.t.payments, caller);
    CallerMoves(s.t.payments, s.ps, s.callers, c, caller.(stage := stage));
  }

  lemma AskChargeKeeps(s: State, c: nat, offer: Charge, answer: Answer)
    requires Sound(s.t.payments, s.ps, s.callers) && Enabled(s, AskCharge(c, offer, answer))
    ensures var s' := Next(s, AskCharge(c, offer, answer)); Sound(s'.t.payments, s'.ps, s'.callers)
  {
    var s' := Next(s, AskCharge(c, offer, answer));
    var caller := s.callers[c];
    assert CallerSound(s.t.payments, s.ps, caller);
    assert ChargesSound(s.t.payments, s'.ps);
    CallersCarry(s.t.payments, s.t.payments, s.ps, s'.ps, s.callers);
    CallerMoves(s.t.payments, s'.ps, s.callers, c, s'.callers[c]);
    forall i | 0 <= i < |s'.ps.refundCalls| ensures IsRefundOf(s.t.payments, s'.ps.refundCalls[i].0, s'.ps.refundCalls[i].1) {
      assert IsRefundOf(s.t.payments, s.ps.refundCalls[i].0, s.ps.refundCalls[i].1);
    }
  }

  lemma StoreKeeps(payments: map<nat, Payment>, ps: PayStub, p: nat, charge: Charge)
    requires OnePerBooking(payments) && ChargesSound(payments, ps)
    requires p in payments && p in ps.charges && ps.charges[p].1 == charge
    ensures var payments' := StoreCharge(payments, p, charge);
      TermsKept(payments, payments') && OnePerBooking(payments') && ChargesSound(payments', ps)
  {
  }

  lemma KeepChargeKeeps(s: State, c: nat)
    requires Sound(s.t.payments, s.ps, s.callers) && Enabled(s, KeepCharge(c))
    ensures var s' := Next(s, KeepCharge(c)); TermsKept(s.t.payments, s'.t.payments) && Sound(s'.t.payments, s'.ps, s'.callers)
  {
    var s' := Next(s, KeepCharge(c));
    var caller := s.callers[c];
    assert CallerSound(s.t.payments, s.ps, caller);
    StoreKeeps(s.t.payments, s.ps, caller.stage.p, caller.stage.charge);
    RefundsCarry(s.t.payments, s'.t.payments, s.ps);
    CallersCarry(s.t.payments, s'.t.payments, s.ps, s.ps, s.callers);
    CallerMoves(s'.t.payments, s.ps, s.callers, c, s'.callers[c]);
  }

  lemma TryRefundKeeps(s: State, r: nat, id: string, answer: Answer)
    requires Inv(s) && Enabled(s, TryRefund(r, id, answer))
    ensures var s' := Next(s, TryRefund(r, id, answer)); Sound(s'.t.payments, s'.ps, s'.callers)
  {
    LedgerRuns.ViewOfPass(s, r);
    var view := SettleAll(s.t, s.passes[r].batch, s.passes[r].done, 0);
    var p := CommandOf(s.t, s.passes, r).payment;
    var ps' := PayBack(view, s.ps, p, id, answer).0;
    PayBackKeeps(s.t.payments, s.ps, view, p, id, answer);
    CallersCarry(s.t.payments, s.t.payments, s.ps, ps', s.callers);
  }

  lemma PayBackKeeps(payments: map<nat, Payment>, ps: PayStub, view: Tables, p: nat, id: string, answer: Answer)
    requires ChargesSound(payments, ps) && RefundsSound(payments, ps)
    requires p in payments && p in view.payments && SameTerms(payments[p], view.payments[p])
    ensures var ps' := PayBack(view, ps, p, id, answer).0;
      ps'.charges == ps.charges && ChargesSound(payments, ps') && RefundsSound(payments, ps')
  {
    var ps' := PayBack(view, ps, p, id, answer).0;
    forall i | 0 <= i < |ps'.refundCalls| ensures IsRefundOf(payments, ps'.refundCalls[i].0, ps'.refundCalls[i].1) {
      if i < |ps.refundCalls| {
        assert IsRefundOf(payments, ps.refundCalls[i].0, ps.refundCalls[i].1);
      }
    }
  }

  /** Status and refund columns are all that provider events and settled commands change. */
  ghost predicate OnlyStatusMoved(payments: map<nat, Payment>, payments': map<nat, Payment>) {
    && payments'.Keys == payments.Keys && TermsKept(payments, payments')
    && forall p :: p in payments ==> payments'[p].charge == payments[p].charge
  }

  lemma WebhookMovesStatus(t: Tables, event: string, eventType: string, reference: Option<nat>, id: nat)
    ensures OnlyStatusMoved(t.payments, HandleWebhook(t, event, eventType, reference, id).0.payments)
  {
  }

  lemma CommitMovesStatus(s: State, r: nat, now: int)
    requires LedgerRuns.Inv(s) && Enabled(s, Commit(r, now))
    ensures OnlyStatusMoved(s.t.payments, SettleAll(s.t, s.passes[r].batch, s.passes[r].done, now).payments)
  {
    var pass := s.passes[r];
    assert LedgerRuns.PassSound(s.t, s.ps.refunds, s.booking.db.outbox, s.booking.requests, pass);
    SettleAllKeeps(s.t, s.ps.refunds, s.booking.db.outbox, pass.batch, pass.done, now);
  }

  lemma StatusMoveKeeps(payments: map<nat, Payment>, payments': map<nat, Payment>, ps: PayStub, callers: map<nat, Caller>)
    requires Sound(payments, ps, callers) && OnlyStatusMoved(payments, payments')
    ensures Sound(payments', ps, callers)
  {
    RefundsCarry(payments, payments', ps);
    CallersCarry(payments, payments', ps, ps, callers);
  }

  lemma StepKeeps(s: State, step: Step)
    requires Inv(s) && Enabled(s, step)
    ensures Inv(Next(s, step)) && TermsKept(s.t.payments, Next(s, step).t.payments)
  {
    LedgerRuns.StepKeeps(s, step);
    var s' := Next(s, step);
    match step {
      case Insert(c, id) => InsertKeeps(s, c, id);
      case ReadPayment(c) => ReadPaymentKeeps(s, c);
      case AskCharge(c, offer, answer) => AskChargeKeeps(s, c, offer, answer);
      case KeepCharge(c) => KeepChargeKeeps(s, c);
      case TryRefund(r, id, answer) => TryRefundKeeps(s, r, id, answer);
      case Webhook(event, eventType, reference, id) =>
        WebhookMovesStatus(s.t, event, eventType, reference, id);
        StatusMoveKeeps(s.t.payments, s'.t.payments, s.ps, s.callers);
      case Commit(r, now) =>
        CommitMovesStatus(s, r, now);
        StatusMoveKeeps(s.t.payments, s'.t.payments, s.ps, s.callers);
      case NoteFailure(_) => StatusMoveKeeps(s.t.payments, s'.t.payments, s.ps, s.callers);
      case Call(c, booking, amount, currency) =>
        CallerMoves(s.t.payments, s.ps, s.callers, c, Caller(booking, amount, currency, Arrived));
      case Abandon(_) =>
      case Serve(_) =>
      case Begin(_, _) =>
      case SendConfirm(_, _) =>
      case HearConfirm(_, _) =>
      case GiveUp(_) =>
      case CrashRelay(_) =>
    }
  }

  lemma {:induction false} EveryRunKeeps(serial: bool, states: seq<State>, steps: seq<Step>, i: nat)
    requires Run(serial, states, steps) && i < |states|
    ensures Inv(states[i])
  {
    if i > 0 {
      EveryRunKeeps(serial, states, steps, i - 1);
      StepKeeps(states[i - 1], steps[i - 1]);
    }
  }

  // ---- the guarantees

  /** A booking has one payment for good, and of all the calls for it, whenever they finish, at most
      one reports that it created it: two that do are one call, seen twice. */
  lemma OnePaymentOneCreator(serial: bool, states: seq<State>, steps: seq<Step>, i: nat, j: nat, c: nat, d: nat)
    requires Run(serial, states, steps) && i <= j < |states|
    requires c in states[i].callers && states[i].callers[c].stage.Done?
    requires d in states[j].callers && states[j].callers[d].stage.Done?
    requires states[i].callers[c].booking == states[j].callers[d].booking
    ensures var first, second := states[i].callers[c].stage, states[j].callers[d].stage;
      && first.p == second.p
      && (first.created && second.created ==> c == d && forall k :: i <= k <= j ==> IsCreator(states[k], c, first.p))
  {
    EveryRunKeeps(serial, states, steps, i);
    EveryRunKeeps(serial, states, steps, j);
    ChargeIsWrittenOnce(serial, states, steps, i, j);
    var first, second := states[i].callers[c].stage, states[j].callers[d].stage;
    assert CallerSound(states[i].t.payments, states[i].ps, states[i].callers[c]);
    assert CallerSound(states[j].t.payments, states[j].ps, states[j].callers[d]);
    if first.created && second.created {
      CreatorAllAlong(serial, states, steps, i, j, d, first.p);
      assert IsCreator(states[i], c, first.p) && IsCreator(states[i], d, first.p);
    }
  }

  predicate IsCreator(s: State, c: nat, p: nat) {
    c in s.callers && Created(s.callers[c].stage, p)
  }

  /** Who counts as the creator of a payment has done so since the payment is there. */
  lemma CreatorAllAlong(serial: bool, states: seq<State>, steps: seq<Step>, i: nat, j: nat, c: nat, p: nat)
    requires Run(serial, states, steps) && i <= j < |states| && p in states[i].t.payments && IsCreator(states[j], c, p)
    ensures forall k :: i <= k <= j ==> IsCreator(states[k], c, p)
  {
    var flags := seq(|states|, k requires 0 <= k < |states| => IsCreator(states[k], c, p));
    forall k: nat | i <= k < j && flags[k + 1] ensures flags[k] {
      CreatorOneBefore(serial, states, steps, i, k, c, p);
    }
    SinceThen(flags, i, j);
    forall k | i <= k <= j ensures IsCreator(states[k], c, p) {
      assert flags[k];
    }
  }

  lemma {:induction false} SinceThen(flags: seq<bool>, i: nat, j: nat)
    requires i <= j < |flags| && flags[j] && forall k: nat :: i <= k < j && flags[k + 1] ==> flags[k]
    ensures forall k :: i <= k <= j ==> flags[k]
    decreases j
  {
    if i < j {
      assert flags[j - 1 + 1];
      SinceThen(flags, i, j - 1);
    }
  }

  lemma CreatorOneBefore(serial: bool, states: seq<State>, steps: seq<Step>, i: nat, n: nat, c: nat, p: nat)
    requires Run(serial, states, steps) && i <= n < |steps| && p in states[i].t.payments && IsCreator(states[n + 1], c, p)
    ensures IsCreator(states[n], c, p)
  {
    ChargeIsWrittenOnce(serial, states, steps, i, n);
    EveryRunKeeps(serial, states, steps, n);
    CreatorBefore(states[n], steps[n], c, p);
  }

  lemma CreatorBefore(s: State, step: Step, c: nat, p: nat)
    requires p in s.used && Enabled(s, step) && IsCreator(Next(s, step), c, p)
    ensures IsCreator(s, c, p)
  {
  }

  /** Whoever asks again under a key asks for the same thing. */
  lemma OneRequestPerKey(serial: bool, states: seq<State>, steps: seq<Step>, i: nat, a: nat, b: nat)
    requires Run(serial, states, steps) && i < |states|
    ensures var ps := states[i].ps;
      && (a < |ps.chargeCalls| && b < |ps.chargeCalls| ==>
            ps.chargeCalls[a].0 == ps.chargeCalls[b].0 ==> ps.chargeCalls[a] == ps.chargeCalls[b])
      && (a < |ps.refundCalls| && b < |ps.refundCalls| ==>
            ps.refundCalls[a].0 == ps.refundCalls[b].0 ==> ps.refundCalls[a] == ps.refundCalls[b])
  {
    EveryRunKeeps(serial, states, steps, i);
    var s := states[i];
    if a < |s.ps.refundCalls| && b < |s.ps.refundCalls| {
      assert IsRefundOf(s.t.payments, s.ps.refundCalls[a].0, s.ps.refundCalls[a].1);
      assert IsRefundOf(s.t.payments, s.ps.refundCalls[b].0, s.ps.refundCalls[b].1);
    }
  }

  /** A refund is asked of the charge the provider created for this payment, and for all of it. */
  lemma RefundEqualsCharge(serial: bool, states: seq<State>, steps: seq<Step>, i: nat, a: nat)
    requires Run(serial, states, steps) && i < |states| && a < |states[i].ps.refundCalls|
    ensures var ps := states[i].ps; var (key, request) := ps.refundCalls[a];
      && key in ps.charges && ps.charges[key].0.amount == request.amount && ps.charges[key].1.id == request.chargeId
  {
    EveryRunKeeps(serial, states, steps, i);
    var s := states[i];
    assert IsRefundOf(s.t.payments, s.ps.refundCalls[a].0, s.ps.refundCalls[a].1);
  }

  /** The charge of a payment is written once, and its terms never change. */
  lemma ChargeIsWrittenOnce(serial: bool, states: seq<State>, steps: seq<Step>, i: nat, j: nat)
    requires Run(serial, states, steps) && i <= j < |states|
    ensures TermsKept(states[i].t.payments, states[j].t.payments)
  {
    var history := seq(|states|, k requires 0 <= k < |states| => states[k].t.payments);
    forall k: nat | k + 1 < |history| ensures TermsKept(history[k], history[k + 1]) {
      OneStepKeepsTerms(serial, states, steps, k);
    }
    KeptAllAlong(history, i, j);
  }

  lemma {:induction false} KeptAllAlong(history: seq<map<nat, Payment>>, i: nat, j: nat)
    requires i <= j < |history| && forall k: nat :: k + 1 < |history| ==> TermsKept(history[k], history[k + 1])
    ensures TermsKept(history[i], history[j])
    decreases j
  {
    if i < j {
      KeptAllAlong(history, i, j - 1);
      assert TermsKept(history[j - 1], history[j - 1 + 1]);
      TermsStayKept(history[i], history[j - 1], history[j]);
    }
  }

  lemma OneStepKeepsTerms(serial: bool, states: seq<State>, steps: seq<Step>, i: nat)
    requires Run(serial, states, steps) && i < |steps|
    ensures TermsKept(states[i].t.payments, states[i + 1].t.payments)
  {
    EveryRunKeeps(serial, states, steps, i);
    StepKeeps(states[i], steps[i]);
  }

  lemma TermsStayKept(a: map<nat, Payment>, b: map<nat, Payment>, c: map<nat, Payment>)
    requires TermsKept(a, b) && TermsKept(b, c)
    ensures TermsKept(a, c)
  {
  }

  /** A call that dies leaves what it did, and may be made again: with its payment there it asks for the
      charge under the same key. */
  lemma DeadCallsMayBeRepeated(s: State, c: nat, amount: int, currency: string, id: nat)
    requires Inv(s) && c in s.callers && id !in s.used
    requires var stage := s.callers[c].stage; stage.Made? || (stage.Calling? && s.t.payments[stage.p].charge.None?)
    requires amount == s.callers[c].amount && currency == s.callers[c].currency
    ensures var dead := Next(s, Abandon(c)); var again := Call(c, s.callers[c].booking, amount, currency);
      && dead.t == s.t && dead.ps == s.ps && Enabled(dead, again) && Enabled(Next(dead, again), Insert(c, id))
      && var collided := Next(Next(dead, again), Insert(c, id));
         collided.t == s.t && collided.callers[c].stage == (if amount <= 0 then Refusal(AmountNotPositive) else Collided)
  {
    assert CallerSound(s.t.payments, s.ps, s.callers[c]);
    assert HasPayment(s.t.payments, s.callers[c].booking);
  }
}
