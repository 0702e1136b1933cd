/** A call of create_payment that runs without interruption takes the steps of the interleaved
    machine: what holds in every run holds for it. */
module LedgerAlone {
  import opened Common
  import opened Paths
  import opened PaymentsService
  import opened Ledger

  /** The state with the call at some stage. */
  function At(s: State, payments: map<nat, Payment>, ps: PayStub, c: nat, caller: Caller, id: nat): State {
    s.(t := s.t.(payments := payments), ps := ps, callers := s.callers[c := caller], used := s.used + {id})
  }

  function StageOf(r: Result<(nat, bool), Error>): Stage {
    match r
    case Ok((p, created)) => Done(p, created)
    case Err(e) => Refusal(e)
  }

  /** From the moment the payment is known: the charge is there, or it is asked for and kept. */
  lemma ChargedIsARun(s: State, payments: map<nat, Payment>, c: nat, caller: Caller, id: nat, p: nat, created: bool,
                      offer: Charge, answer: Answer) returns (steps: seq<Step>)
    requires p in payments && payments[p].charge.None? && caller.stage == Calling(p, created)
    ensures var (payments', ps', r) := Charged(payments, s.ps, p, created, caller.amount, caller.currency, offer, answer);
      Leads(Moves(), At(s, payments, s.ps, c, caller, id), steps, At(s, payments', ps', c, caller.(stage := StageOf(r)), id))
  {
    var (payments', ps', r) := Charged(payments, s.ps, p, created, caller.amount, caller.currency, offer, answer);
    var t := At(s, payments', ps', c, caller.(stage := StageOf(r)), id);
    var (asked, charge) := CreateCharge(s.ps, p, ChargeRequest(caller.amount, caller.currency, p), offer, answer);
    Asks(s, payments, c, caller, id, p, created, offer, answer);
    if charge.None? {
      First(Moves(), At(s, payments, s.ps, c, caller, id), AskCharge(c, offer, answer), t, [], t);
      steps := [AskCharge(c, offer, answer)] + [];
    } else {
      var storing := At(s, payments, asked, c, caller.(stage := Storing(p, created, charge.value)), id);
      Stores(s, payments, asked, c, caller, id, p, created, charge.value);
      First(Moves(), storing, KeepCharge(c), t, [], t);
      First(Moves(), At(s, payments, s.ps, c, caller, id), AskCharge(c, offer, answer), storing, [KeepCharge(c)] + [], t);
      steps := [AskCharge(c, offer, answer)] + ([KeepCharge(c)] + []);
    }
  }

  lemma Asks(s: State, payments: map<nat, Payment>, c: nat, caller: Caller, id: nat, p: nat, created: bool, offer: Charge, answer: Answer)
    requires caller.stage == Calling(p, created)
    ensures var (asked, charge) := CreateCharge(s.ps, p, ChargeRequest(caller.amount, caller.currency, p), offer, answer);
      Moves()(At(s, payments, s.ps, c, caller, id), AskCharge(c, offer, answer),
        At(s, payments, asked, c,
           caller.(stage := if charge.Some? then Storing(p, created, charge.value) else Refusal(ProviderUnavailable)), id))
  {
    var before := At(s, payments, s.ps, c, caller, id);
    assert forall stage :: before.callers[c := caller.(stage := stage)] == s.callers[c := caller.(stage := stage)];
  }

  lemma Stores(s: State, payments: map<nat, Payment>, ps: PayStub, c: nat, caller: Caller, id: nat, p: nat, created: bool, charge: Charge)
    ensures Moves()(At(s, payments, ps, c, caller.(stage := Storing(p, created, charge)), id), KeepCharge(c),
                    At(s, StoreCharge(payments, p, charge), ps, c, caller.(stage := Done(p, created)), id))
  {
    var before := At(s, payments, ps, c, caller.(stage := Storing(p, created, charge)), id);
    assert before.callers[c := caller.(stage := Done(p, created))] == s.callers[c := caller.(stage := Done(p, created))];
  }

  /** A call for a booking that has no payment yet. */
  lemma NewPaymentIsARun(s: State, c: nat, id: nat, booking: nat, amount: int, currency: string, offer: Charge, answer: Answer)
    returns (steps: seq<Step>)
    requires c in s.callers && s.callers[c] == Caller(booking, amount, currency, Arrived) && id !in s.used
    requires amount > 0 && !HasPayment(s.t.payments, booking)
    ensures var (payments', ps', r) :=
        Charged(s.t.payments[id := NewPayment(booking, amount, currency)], s.ps, id, true, amount, currency, offer, answer);
      Leads(Moves(), s, steps, At(s, payments', ps', c, Caller(booking, amount, currency, StageOf(r)), id))
  {
    var payments := s.t.payments[id := NewPayment(booking, amount, currency)];
    var (payments', ps', r) := Charged(payments, s.ps, id, true, amount, currency, offer, answer);
    var t := At(s, payments', ps', c, Caller(booking, amount, currency, StageOf(r)), id);
    var made := At(s, payments, s.ps, c, Caller(booking, amount, currency, Made(id)), id);
    var calling := At(s, payments, s.ps, c, Caller(booking, amount, currency, Calling(id, true)), id);
    var rest := ChargedIsARun(s, payments, c, Caller(booking, amount, currency, Calling(id, true)), id, id, true, offer, answer);
    First(Moves(), made, ReadPayment(c), calling, rest, t);
    First(Moves(), s, Insert(c, id), made, [ReadPayment(c)] + rest, t);
    steps := [Insert(c, id)] + ([ReadPayment(c)] + rest);
  }

  /** A call for a booking that has one. */
  lemma OldPaymentIsARun(s: State, c: nat, id: nat, existing: nat, booking: nat, amount: int, currency: string,
                         offer: Charge, answer: Answer) returns (steps: seq<Step>)
    requires c in s.callers && s.callers[c] == Caller(booking, amount, currency, Arrived) && id !in s.used
    requires amount > 0 && OnePerBooking(s.t.payments)
    requires existing in s.t.payments && s.t.payments[existing].booking == booking
    ensures HasPayment(s.t.payments, booking)
    ensures var (payments', ps', r) :=
        CreatePayment(s.t.payments, s.ps, id, existing, booking, amount, currency, offer, answer);
      Leads(Moves(), s, steps, At(s, payments', ps', c, Caller(booking, amount, currency, StageOf(r)), id))
  {
    var payments := s.t.payments;
    assert HasPayment(payments, booking);
    var (payments', ps', r) := CreatePayment(payments, s.ps, id, existing, booking, amount, currency, offer, answer);
    var t := At(s, payments', ps', c, Caller(booking, amount, currency, StageOf(r)), id);
    var collided := At(s, payments, s.ps, c, Caller(booking, amount, currency, Collided), id);
    assert PaymentOf(payments, booking) == existing;
    var stage := AfterReadPayment(payments, collided.callers[c]);
    var read := At(s, payments, s.ps, c, Caller(booking, amount, currency, stage), id);
    var rest: seq<Step> := [];
    if stage.Calling? {
      rest := ChargedIsARun(s, payments, c, Caller(booking, amount, currency, stage), id, existing, false, offer, answer);
    }
    First(Moves(), collided, ReadPayment(c), read, rest, t);
    First(Moves(), s, Insert(c, id), collided, [ReadPayment(c)] + rest, t);
    steps := [Insert(c, id)] + ([ReadPayment(c)] + rest);
  }

  /** The whole call: its result, the tables and the provider are those of the machine's steps. */
  lemma CreateIsARun(s: State, c: nat, id: nat, existing: nat, booking: nat, amount: int, currency: string,
                     offer: Charge, answer: Answer) returns (steps: seq<Step>)
    requires c !in s.callers && id !in s.used && OnePerBooking(s.t.payments)
    requires HasPayment(s.t.payments, booking) ==> existing in s.t.payments && s.t.payments[existing].booking == booking
    ensures var (payments', ps', r) :=
        CreatePayment(s.t.payments, s.ps, id, existing, booking, amount, currency, offer, answer);
      Leads(Moves(), s, steps, At(s, payments', ps', c, Caller(booking, amount, currency, StageOf(r)), id))
  {
    var (payments', ps', r) := CreatePayment(s.t.payments, s.ps, id, existing, booking, amount, currency, offer, answer);
    var t := At(s, payments', ps', c, Caller(booking, amount, currency, StageOf(r)), id);
    var called := s.(callers := s.callers[c := Caller(booking, amount, currency, Arrived)]);
    assert called.callers[c := t.callers[c]] == t.callers;
    var rest;
    if amount <= 0 {
      rest := [Insert(c, id)];
      First(Moves(), called, Insert(c, id), t, [], t);
    } else if HasPayment(s.t.payments, booking) {
      rest := OldPaymentIsARun(called, c, id, existing, booking, amount, currency, offer, answer);
    } else {
      rest := NewPaymentIsARun(called, c, id, booking, amount, currency, offer, answer);
    }
    First(Moves(), s, Call(c, booking, amount, currency), called, rest, t);
    steps := [Call(c, booking, amount, currency)] + rest;
  }
}
