/** The payments service: its tables, the payment provider, and what one call does to them. */
module PaymentsService {
  import opened Common

  // ---- rules

  datatype Status = Pending | Succeeded | Failed

  function Allowed(current: Status): set<Status> {
    match current
    case Pending => {Succeeded, Failed}
    case Succeeded => {}
    case Failed => {}
  }

  /** The status a provider event asks for; other events are acknowledged and ignored. */
  function Target(eventType: string): Option<Status> {
    if eventType == "charge.succeeded" then Some(Succeeded)
    else if eventType == "charge.failed" then Some(Failed)
    else None
  }

  // ---- the database

  datatype Payment = Payment(booking: nat, amount: int, currency: string, status: Status,
                             charge: Option<Charge>, needsRefund: bool,
                             refundId: Option<string>, refundedAt: Option<int>)

  datatype Command = Confirm(payment: nat, booking: nat) | Refund(payment: nat) | Unknown(topic: string)

  datatype Row = Row(command: Command, publishedAt: Option<int>, attempts: nat)

  datatype Tables = Tables(payments: map<nat, Payment>, events: map<string, string>, outbox: map<nat, Row>)

  const EMPTY := Tables(map[], map[], map[])

  // ---- the provider: a repeated key returns what the first request created

  datatype Charge = Charge(id: string, url: string)

  datatype ChargeRequest = ChargeRequest(amount: int, currency: string, reference: nat)

  datatype RefundRequest = RefundRequest(chargeId: string, amount: int)

  datatype PayStub = PayStub(charges: map<nat, (ChargeRequest, Charge)>, refunds: map<nat, (RefundRequest, string)>,
                             chargeCalls: seq<(nat, ChargeRequest)>, refundCalls: seq<(nat, RefundRequest)>)

  const NO_CALLS := PayStub(map[], map[], [], [])

  /** What becomes of a request: acted on and answered, acted on in silence, not acted on. */
  datatype Answer = Heard | Silent | Refused

  /** `offer` is what the provider creates when the key is new. */
  function CreateCharge(ps: PayStub, key: nat, request: ChargeRequest, offer: Charge, answer: Answer)
    : (PayStub, Option<Charge>)
  {
    var asked := ps.(chargeCalls := ps.chargeCalls + [(key, request)]);
    if answer.Refused? then (asked, None)
    else
      var charges := if key in ps.charges then ps.charges else ps.charges[key := (request, offer)];
      (asked.(charges := charges), if answer.Heard? then Some(charges[key].1) else None)
  }

  function CreateRefund(ps: PayStub, key: nat, request: RefundRequest, offer: string, answer: Answer)
    : (PayStub, Option<string>)
  {
    var asked := ps.(refundCalls := ps.refundCalls + [(key, request)]);
    if answer.Refused? then (asked, None)
    else
      var refunds := if key in ps.refunds then ps.refunds else ps.refunds[key := (request, offer)];
      (asked.(refunds := refunds), if answer.Heard? then Some(refunds[key].1) else None)
  }

  // ---- creating a payment

  datatype Error = AmountNotPositive | PaymentConflict | ProviderUnavailable

  predicate HasPayment(payments: map<nat, Payment>, booking: nat) {
    exists p :: p in payments && payments[p].booking == booking
  }

  /** The unique constraint: one payment per booking. */
  predicate OnePerBooking(payments: map<nat, Payment>) {
    forall p, q | p in payments && q in payments && payments[p].booking == payments[q].booking :: p == q
  }

  /** The row a new payment starts with. */
  function NewPayment(booking: nat, amount: int, currency: string): Payment {
    Payment(booking, amount, currency, Pending, None, false, None, None)
  }

  /** The charge is stored only where none is stored yet. */
  function StoreCharge(payments: map<nat, Payment>, p: nat, charge: Charge): map<nat, Payment> {
    if p in payments && payments[p].charge.None? then payments[p := payments[p].(charge := Some(charge))]
    else payments
  }

  /** A call that finds nobody else at work. `existing` is the payment the booking already has. */
  function CreatePayment(payments: map<nat, Payment>, ps: PayStub, id: nat, existing: nat, booking: nat,
                         amount: int, currency: string, offer: Charge, answer: Answer)
    : (map<nat, Payment>, PayStub, Result<(nat, bool), Error>)
    requires HasPayment(payments, booking) ==> existing in payments && payments[existing].booking == booking
  {
    if amount <= 0 then (payments, ps, Err(AmountNotPositive))  // the check constraint comes before the unique one
    else if HasPayment(payments, booking) then
      if payments[existing].amount != amount || payments[existing].currency != currency then
        (payments, ps, Err(PaymentConflict))
      else Charged(payments, ps, existing, false, amount, currency, offer, answer)
    else Charged(payments[id := NewPayment(booking, amount, currency)], ps, id, true, amount, currency, offer, answer)
  }

  /** Asks the provider for the charge unless it is there already. */
  function Charged(payments: map<nat, Payment>, ps: PayStub, p: nat, created: bool, amount: int, currency: string,
                   offer: Charge, answer: Answer): (map<nat, Payment>, PayStub, Result<(nat, bool), Error>)
    requires p in payments
  {
    if payments[p].charge.Some? then (payments, ps, Ok((p, created)))
    else
      var (ps', charge) := CreateCharge(ps, p, ChargeRequest(amount, currency, p), offer, answer);
      if charge.None? then (payments, ps', Err(ProviderUnavailable))
      else (StoreCharge(payments, p, charge.value), ps', Ok((p, created)))
  }

  // ---- provider events

  datatype Webhook = Processed | Duplicate | Ignored

  /** One transaction: record the event, move the payment, write the command - or none of it.
      `reference` is the payment the event names, if it names any. */
  function HandleWebhook(t: Tables, event: string, eventType: string, reference: Option<nat>, id: nat): (Tables, Webhook) {
    var target := Target(eventType);
    if target.None? then (t, Ignored)
    else if event in t.events then (t, Duplicate)
    else
      var recorded := t.(events := t.events[event := eventType]);
      if reference.None? || reference.value !in t.payments then (recorded, Ignored)
      else
        var p := reference.value;
        if target.value !in Allowed(t.payments[p].status) then (recorded, Ignored)
        else
          var moved := recorded.(payments := t.payments[p := t.payments[p].(status := target.value)]);
          if target.value.Succeeded? then
            (moved.(outbox := t.outbox[id := Row(Confirm(p, t.payments[p].booking), None, 0)]), Processed)
          else (moved, Processed)
  }

  // ---- delivering commands

  /** The result of a command that was delivered. A rejection carries the id of the refund command it leads to. */
  datatype Outcome = Accepted | Rejected(refund: nat) | Refunded(id: string) | AlreadyRefunded

  /** What a delivered command leaves in the database: its mark, and its effect on the payment. */
  function Settle(t: Tables, c: nat, outcome: Outcome, now: int): Tables
    requires c in t.outbox
  {
    var marked := t.outbox[c := t.outbox[c].(publishedAt := Some(now))];
    match (t.outbox[c].command, outcome)
    case (Confirm(p, _), Rejected(refund)) =>
      Tables(if p in t.payments then t.payments[p := t.payments[p].(needsRefund := true)] else t.payments,
             t.events, marked[refund := Row(Refund(p), None, 0)])
    case (Refund(p), Refunded(id)) =>
      Tables(if p in t.payments
             then t.payments[p := t.payments[p].(needsRefund := false, refundId := Some(id), refundedAt := Some(now))]
             else t.payments, t.events, marked)
    case _ => t.(outbox := marked)
  }

  /** What the neighbours do when a command is delivered to them. */
  datatype BookingAnswer = Agrees | Declines | Unavailable

  datatype Reply = Reply(booking: BookingAnswer, provider: Answer, offer: string)

  /** Carries out one command; `refund` is the id of the refund command a refusal leads to.
      No outcome means an exception: the pass stops here. */
  function Deliver(t: Tables, ps: PayStub, command: Command, reply: Reply, refund: nat): (PayStub, Option<Outcome>) {
    match command
    case Confirm(_, _) =>
      (ps, match reply.booking
           case Agrees => Some(Accepted)
           case Declines => Some(Rejected(refund))
           case Unavailable => None)
    case Refund(p) => PayBack(t, ps, p, reply.offer, reply.provider)
    case Unknown(_) => (ps, None)
  }

  function PayBack(t: Tables, ps: PayStub, p: nat, offer: string, answer: Answer): (PayStub, Option<Outcome>) {
    if p !in t.payments then (ps, None)
    else if t.payments[p].refundedAt.Some? then (ps, Some(AlreadyRefunded))
    else if t.payments[p].charge.None? then (ps, None)
    else
      var (ps', id) := CreateRefund(ps, p, RefundRequest(t.payments[p].charge.value.id, t.payments[p].amount), offer, answer);
      (ps', if id.Some? then Some(Refunded(id.value)) else None)
  }

  function CountFailure(t: Tables, c: nat): Tables {
    if c in t.outbox then t.(outbox := t.outbox[c := t.outbox[c].(attempts := t.outbox[c].attempts + 1)]) else t
  }

  /** Commands a relay may take: unpublished, and not locked by another relay. */
  function Eligible(t: Tables, locked: set<nat>): set<nat> {
    set c | c in t.outbox && t.outbox[c].publishedAt.None? && c !in locked
  }
}
