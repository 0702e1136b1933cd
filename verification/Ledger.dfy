/** Every run of payments against booking and the provider: calls, provider events and relays
    interleave, requests and answers get lost, transactions roll back, processes die. What
    booking and the provider did is never undone. */
module Ledger {
  import opened Common
  import opened PaymentsService
  import BookingDomain
  import BookingService
  import History = BookingHistory
  import Batches

  // ---- the machine

  /** How far a call of create_payment is. */
  datatype Stage =
    | Arrived
    | Collided                                   // the booking has a payment; it is not read yet
    | Made(p: nat)                               // inserted; whether it has a charge is not read yet
    | Calling(p: nat, created: bool)
    | Storing(p: nat, created: bool, charge: Charge)
    | Done(p: nat, created: bool)
    | Refusal(error: Error)

  datatype Caller = Caller(booking: nat, amount: int, currency: string, stage: Stage)

  /** A relay inside its transaction, or between its rollback and the recorded failure.
      `done` are the outcomes of the first commands of the batch; `asking` is the request
      to booking it is waiting for. */
  datatype Pass = Passing(batch: seq<nat>, done: seq<Outcome>, asking: Option<nat>) | Failing(id: nat)

  datatype State = State(t: Tables, ps: PayStub, callers: map<nat, Caller>, passes: map<nat, Pass>,
                         used: set<nat>, booking: History.State)

  datatype Step =
    | Serve(service: History.Step)
    | Call(c: nat, booking: nat, amount: int, currency: string)
    | Insert(c: nat, id: nat)
    | ReadPayment(c: nat)
    | AskCharge(c: nat, offer: Charge, answer: Answer)
    | KeepCharge(c: nat)
    | Abandon(c: nat)
    | Webhook(event: string, eventType: string, reference: Option<nat>, id: nat)
    | Begin(r: nat, limit: nat)
    | SendConfirm(r: nat, q: nat)
    | HearConfirm(r: nat, refund: nat)
    | TryRefund(r: nat, refundId: string, answer: Answer)
    | GiveUp(r: nat)
    | Commit(r: nat, now: int)
    | NoteFailure(r: nat)
    | CrashRelay(r: nat)

  /** The rows a pass has locked. */
  function RowsOf(pass: Pass): seq<nat> {
    if pass.Passing? then pass.batch else []
  }

  /** A confirm request booking has received and not answered. */
  predicate InFlight(requests: map<nat, History.Request>, q: nat, b: nat) {
    q in requests && requests[q].booking == b && requests[q].target.Confirmed? && !requests[q].phase.Replied?
  }

  predicate Awaited(passes: map<nat, Pass>, q: nat) {
    exists r :: r in passes && passes[r].Passing? && passes[r].asking == Some(q)
  }

  /** The pass is in the middle of its batch. */
  predicate HasCommand(t: Tables, passes: map<nat, Pass>, r: nat) {
    && r in passes && passes[r].Passing? && |passes[r].done| < |passes[r].batch|
    && forall c :: c in passes[r].batch ==> c in t.outbox
  }

  function CommandOf(t: Tables, passes: map<nat, Pass>, r: nat): Command
    requires HasCommand(t, passes, r)
  {
    assert passes[r].batch[|passes[r].done|] in passes[r].batch;
    t.outbox[passes[r].batch[|passes[r].done|]].command
  }

  ghost predicate Enabled(s: State, step: Step) {
    match step
    case Serve(inner) =>
      && History.Enabled(s.booking, inner)
      && (inner.Ask? ==> !inner.target.Confirmed? && !Awaited(s.passes, inner.q))
    case Call(c, _, _, _) => c !in s.callers
    case Insert(c, id) => c in s.callers && s.callers[c].stage.Arrived? && id !in s.used
    case ReadPayment(c) =>
      && c in s.callers && (s.callers[c].stage.Collided? || s.callers[c].stage.Made?)
      && (s.callers[c].stage.Collided? ==> HasPayment(s.t.payments, s.callers[c].booking))
      && (s.callers[c].stage.Made? ==> s.callers[c].stage.p in s.t.payments)
    case AskCharge(c, _, _) => c in s.callers && s.callers[c].stage.Calling?
    case KeepCharge(c) => c in s.callers && s.callers[c].stage.Storing?
    case Abandon(c) => c in s.callers
    case Webhook(_, _, _, id) => id !in s.used
    case Begin(r, _) => r !in s.passes
    case SendConfirm(r, q) =>
      && HasCommand(s.t, s.passes, r) && CommandOf(s.t, s.passes, r).Confirm? && s.passes[r].asking.None?
      && q !in s.booking.requests && !Awaited(s.passes, q)
    case HearConfirm(r, refund) =>
      && HasCommand(s.t, s.passes, r) && CommandOf(s.t, s.passes, r).Confirm? && s.passes[r].asking.Some?
      && s.passes[r].asking.value in s.booking.requests
      && s.booking.requests[s.passes[r].asking.value].phase.Replied? && refund !in s.used
    case TryRefund(r, _, _) => HasCommand(s.t, s.passes, r) && CommandOf(s.t, s.passes, r).Refund?
    case GiveUp(r) => HasCommand(s.t, s.passes, r)
    case Commit(r, _) =>
      && r in s.passes && s.passes[r].Passing? && |s.passes[r].done| == |s.passes[r].batch|
      && forall c :: c in s.passes[r].batch ==> c in s.t.outbox
    case NoteFailure(r) => r in s.passes && s.passes[r].Failing?
    case CrashRelay(r) => r in s.passes
  }

  /** The step starts no confirm request while another one for the same booking is unanswered. */
  ghost predicate NoOverlap(s: State, step: Step) {
    step.SendConfirm? && Enabled(s, step) ==>
      forall o :: !InFlight(s.booking.requests, o, CommandOf(s.t, s.passes, step.r).booking)
  }

  /** The payment row of a booking. */
  ghost function PaymentOf(payments: map<nat, Payment>, booking: nat): nat
    requires HasPayment(payments, booking)
  {
    var p :| p in payments && payments[p].booking == booking;
    p
  }

  function AfterInsert(t: Tables, caller: Caller, id: nat): (Tables, Stage) {
    if caller.amount <= 0 then (t, Refusal(AmountNotPositive))
    else if HasPayment(t.payments, caller.booking) then (t, Collided)
    else (t.(payments := t.payments[id := NewPayment(caller.booking, caller.amount, caller.currency)]), Made(id))
  }

  ghost function AfterReadPayment(payments: map<nat, Payment>, caller: Caller): Stage
    requires caller.stage.Collided? ==> HasPayment(payments, caller.booking)
    requires caller.stage.Made? ==> caller.stage.p in payments
  {
    match caller.stage
    case Collided =>
      var p := PaymentOf(payments, caller.booking);
      if payments[p].amount != caller.amount || payments[p].currency != caller.currency then Refusal(PaymentConflict)
      else if payments[p].charge.Some? then Done(p, false) else Calling(p, false)
    case Made(p) => if payments[p].charge.Some? then Done(p, true) else Calling(p, true)
    case _ => caller.stage
  }

  /** The outcome a relay reads out of booking's answer. */
  function OutcomeOf(answer: Result<nat, BookingService.Error>, refund: nat): Option<Outcome> {
    match answer
    case Ok(_) => Some(Accepted)
    case Err(InvalidTransition) => Some(Rejected(refund))
    case Err(_) => None
  }

  /** The command is done, or the pass is over. */
  function Further(pass: Pass, outcome: Option<Outcome>): Pass
    requires pass.Passing? && |pass.done| < |pass.batch|
  {
    if outcome.Some? then Passing(pass.batch, pass.done + [outcome.value], None) else Failing(pass.batch[|pass.done|])
  }

  /** The transaction of a pass as it would commit now: its outcomes, in order, on the tables. */
  function SettleAll(t: Tables, batch: seq<nat>, done: seq<Outcome>, now: int): (t': Tables)
    requires |done| <= |batch| && forall c :: c in batch ==> c in t.outbox
    ensures forall c :: c in t.outbox ==> c in t'.outbox
  {
    if done == [] then t
    else
      var n := |done| - 1;
      var before := SettleAll(t, batch, done[..n], now);
      assert batch[n] in batch;
      Settle(before, batch[n], done[n], now)
  }

  ghost function Next(s: State, step: Step): State
    requires Enabled(s, step)
  {
    match step
    case Serve(inner) => s.(booking := History.Next(s.booking, inner))
    case Call(c, booking, amount, currency) => s.(callers := s.callers[c := Caller(booking, amount, currency, Arrived)])
    case Insert(c, id) =>
      var (t', stage) := AfterInsert(s.t, s.callers[c], id);
      s.(t := t', callers := s.callers[c := s.callers[c].(stage := stage)], used := s.used + {id})
    case ReadPayment(c) =>
      s.(callers := s.callers[c := s.callers[c].(stage := AfterReadPayment(s.t.payments, s.callers[c]))])
    case AskCharge(c, offer, answer) =>
      var caller := s.callers[c];
      var p := caller.stage.p;
      var (ps', charge) := CreateCharge(s.ps, p, ChargeRequest(caller.amount, caller.currency, p), offer, answer);
      var stage := if charge.Some? then Storing(p, caller.stage.created, charge.value) else Refusal(ProviderUnavailable);
      s.(ps := ps', callers := s.callers[c := caller.(stage := stage)])
    case KeepCharge(c) =>
      var caller := s.callers[c];
      s.(t := s.t.(payments := StoreCharge(s.t.payments, caller.stage.p, caller.stage.charge)),
         callers := s.callers[c := caller.(stage := Done(caller.stage.p, caller.stage.created))])
    case Abandon(c) => s.(callers := s.callers - {c})
    case Webhook(event, eventType, reference, id) =>
      s.(t := HandleWebhook(s.t, event, eventType, reference, id).0, used := s.used + {id})
    case Begin(r, limit) =>
      var batch := Batches.FirstN(Eligible(s.t, Batches.Locked(s.passes, RowsOf)), limit);
      s.(passes := s.passes[r := Passing(batch, [], None)])
    case SendConfirm(r, q) =>
      var b := CommandOf(s.t, s.passes, r).booking;
      s.(passes := s.passes[r := s.passes[r].(asking := Some(q))],
         booking := s.booking.(requests := s.booking.requests[q := History.Request(b, BookingDomain.Confirmed, History.New)]))
    case HearConfirm(r, refund) =>
      var answer := s.booking.requests[s.passes[r].asking.value].phase.answer;
      s.(passes := s.passes[r := Further(s.passes[r], OutcomeOf(answer, refund))], used := s.used + {refund})
    case TryRefund(r, offer, answer) =>
      var pass := s.passes[r];
      var view := SettleAll(s.t, pass.batch, pass.done, 0);
      var (ps', outcome) := PayBack(view, s.ps, CommandOf(s.t, s.passes, r).payment, offer, answer);
      s.(ps := ps', passes := s.passes[r := Further(pass, outcome)])
    case GiveUp(r) => s.(passes := s.passes[r := Failing(s.passes[r].batch[|s.passes[r].done|])])
    case Commit(r, now) =>
      s.(t := SettleAll(s.t, s.passes[r].batch, s.passes[r].done, now), passes := s.passes - {r})
    case NoteFailure(r) => s.(t := CountFailure(s.t, s.passes[r].id), passes := s.passes - {r})
    case CrashRelay(r) => s.(passes := s.passes - {r})
  }

  const START := State(EMPTY, NO_CALLS, map[], map[], {}, History.START)

  /** A run; in a `serial` one, confirm requests for one booking never overlap. */
  ghost predicate Run(serial: bool, states: seq<State>, steps: seq<Step>) {
    && |states| == |steps| + 1 && states[0] == START
    && forall i :: 0 <= i < |steps| ==>
         Enabled(states[i], steps[i]) && states[i + 1] == Next(states[i], steps[i])
         && (serial ==> NoOverlap(states[i], steps[i]))
  }

  /** One step, as a relation. */
  ghost function Moves(): (State, Step, State) -> bool {
    (s: State, step: Step, t: State) => Enabled(s, step) && t == Next(s, step)
  }
}
