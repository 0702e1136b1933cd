/** Why the guarantee about refunds needs its assumption: two confirms of one booking overlap,
    the second is refused, and the money of a confirmed booking goes back. */
module LedgerOverlap {
  import opened Common
  import opened Paths
  import opened PaymentsService
  import opened Ledger
  import opened LedgerRules
  import BookingDomain
  import BookingService
  import History = BookingHistory
  import Batches

  ghost predicate InRun(s: State) {
    Reached(Moves(), START, s)
  }

  lemma OneStep(s: State, step: Step, s': State)
    requires InRun(s) && Enabled(s, step) && s' == Next(s, step)
    ensures InRun(s')
  {
    Reach(Moves(), START, s, step, s');
  }

  // ---- the story: booking 1 on slot 0, paid by payment 10, confirmed by command 11

  const SLOT := BookingService.Slot("master", 10, 20, 100)

  function BookingWith(status: BookingDomain.Status): BookingService.Booking {
    BookingService.Booking(0, "client", status, 0, if status.Pending? then 0 else 1)
  }

  function Service(status: BookingDomain.Status, log: seq<BookingService.Row>, requests: map<nat, History.Request>)
    : History.State
  {
    History.State(BookingService.Tables(map[0 := SLOT], map[1 := BookingWith(status)], log), requests)
  }

  function Asking(phase: History.Phase): History.Request {
    History.Request(1, BookingDomain.Confirmed, phase)
  }

  function Paid(status: Status, needsRefund: bool): Payment {
    Payment(1, 100, "RUB", status, None, needsRefund, None, None)
  }

  function Held(attempts: nat): Tables {
    Tables(map[10 := Paid(Succeeded, false)], map["evt" := "charge.succeeded"],
           map[11 := Row(Confirm(10, 1), None, attempts)])
  }

  const CALLER := Caller(1, 100, "RUB", Made(10))

  const TOLD := BookingService.NewRow(0, BookingDomain.Confirmed, 1, BookingWith(BookingDomain.Pending), SLOT, 1)

  /** Payments with its command in a given state, one relay at most, and booking. */
  function Stand(t: Tables, passes: map<nat, Pass>, used: set<nat>, booking: History.State): State {
    State(t, NO_CALLS, map[0 := CALLER], passes, used, booking)
  }

  const SAW := History.Saw(BookingDomain.Pending)

  const CONFLICT: History.Phase := History.Replied(Err(BookingService.InvalidTransition))

  lemma Booked()
    ensures InRun(START.(booking := Service(BookingDomain.Pending, [], map[])))
  {
    Start<State, Step>(Moves(), START);
    var published := START.(booking := History.State(BookingService.Tables(map[0 := SLOT], map[], []), map[]));
    OneStep(START, Serve(History.DoCreate(0, true, SLOT, 0)), published);
    assert BookingService.StaleOn(map[], 0, 0, 5) == {};
    OneStep(published, Serve(History.DoBook(0, "client", 0, 5, 1, [], [])),
            START.(booking := Service(BookingDomain.Pending, [], map[])));
  }

  lemma PaymentMade()
    ensures InRun(Stand(EMPTY.(payments := map[10 := Paid(Pending, false)]), map[], {10},
                          Service(BookingDomain.Pending, [], map[])))
  {
    Booked();
    var b := Service(BookingDomain.Pending, [], map[]);
    var called := START.(booking := b, callers := map[0 := CALLER.(stage := Arrived)]);
    OneStep(START.(booking := b), Call(0, 1, 100, "RUB"), called);
    OneStep(called, Insert(0, 10), Stand(EMPTY.(payments := map[10 := Paid(Pending, false)]), map[], {10}, b));
  }

  lemma ChargeSucceeded()
    ensures InRun(Stand(Held(0), map[], {10, 11}, Service(BookingDomain.Pending, [], map[])))
  {
    PaymentMade();
    var b := Service(BookingDomain.Pending, [], map[]);
    OneStep(Stand(EMPTY.(payments := map[10 := Paid(Pending, false)]), map[], {10}, b),
            Webhook("evt", "charge.succeeded", Some(10), 11), Stand(Held(0), map[], {10, 11}, b));
  }

  /** A pass with one command takes it and sends its confirm request to booking. */
  lemma ConfirmSent(attempts: nat, before: map<nat, History.Request>, q: nat)
    requires InRun(Stand(Held(attempts), map[], {10, 11}, Service(BookingDomain.Pending, [], before))) && q !in before
    ensures InRun(Stand(Held(attempts), map[0 := Passing([11], [], Some(q))], {10, 11},
                          Service(BookingDomain.Pending, [], before[q := Asking(History.New)])))
  {
    assert Eligible(Held(attempts), Batches.Locked(map[], RowsOf)) == {11};
    Batches.FirstNIsPrefix({11}, 1);
    assert Batches.FirstN({11}, 1) == [Batches.FirstN({11}, 1)[0]] && Batches.FirstN({11}, 1)[0] in Batches.FirstN({11}, 1);
    var b := Service(BookingDomain.Pending, [], before);
    var taken := Stand(Held(attempts), map[0 := Passing([11], [], None)], {10, 11}, b);
    OneStep(Stand(Held(attempts), map[], {10, 11}, b), Begin(0, 1), taken);
    OneStep(taken, SendConfirm(0, q), Stand(Held(attempts), map[0 := Passing([11], [], Some(q))], {10, 11},
                                            Service(BookingDomain.Pending, [], before[q := Asking(History.New)])));
  }

  /** The relay stops waiting; booking goes on with the request. */
  lemma GivenUp(attempts: nat, requests: map<nat, History.Request>, q: nat)
    requires InRun(Stand(Held(attempts), map[0 := Passing([11], [], Some(q))], {10, 11},
                           Service(BookingDomain.Pending, [], requests)))
    ensures InRun(Stand(Held(attempts + 1), map[], {10, 11}, Service(BookingDomain.Pending, [], requests)))
  {
    var b := Service(BookingDomain.Pending, [], requests);
    var failing := Stand(Held(attempts), map[0 := Failing(11)], {10, 11}, b);
    OneStep(Stand(Held(attempts), map[0 := Passing([11], [], Some(q))], {10, 11}, b), GiveUp(0), failing);
    OneStep(failing, NoteFailure(0), Stand(Held(attempts + 1), map[], {10, 11}, b));
  }

  const SECOND := map[0 := Passing([11], [], Some(1))]

  /** Both requests read "pending". */
  lemma BothRead()
    requires InRun(Stand(Held(1), SECOND, {10, 11},
                           Service(BookingDomain.Pending, [], map[0 := Asking(History.New), 1 := Asking(History.New)])))
    ensures InRun(Stand(Held(1), SECOND, {10, 11},
                          Service(BookingDomain.Pending, [], map[0 := Asking(SAW), 1 := Asking(SAW)])))
  {
    var one := Stand(Held(1), SECOND, {10, 11}, Service(BookingDomain.Pending, [], map[0 := Asking(SAW), 1 := Asking(History.New)]));
    OneStep(Stand(Held(1), SECOND, {10, 11},
                  Service(BookingDomain.Pending, [], map[0 := Asking(History.New), 1 := Asking(History.New)])),
            Serve(History.Read(0)), one);
    OneStep(one, Serve(History.Read(1)),
            Stand(Held(1), SECOND, {10, 11}, Service(BookingDomain.Pending, [], map[0 := Asking(SAW), 1 := Asking(SAW)])));
  }

  /** The first one confirms the booking, the second one finds it changed. */
  lemma BothUpdate()
    requires InRun(Stand(Held(1), SECOND, {10, 11},
                           Service(BookingDomain.Pending, [], map[0 := Asking(SAW), 1 := Asking(SAW)])))
    ensures InRun(Stand(Held(1), SECOND, {10, 11},
                          Service(BookingDomain.Confirmed, [TOLD], map[0 := Asking(History.Replied(Ok(1))), 1 := Asking(CONFLICT)])))
  {
    var one := Stand(Held(1), SECOND, {10, 11},
                     Service(BookingDomain.Confirmed, [TOLD], map[0 := Asking(History.Replied(Ok(1))), 1 := Asking(SAW)]));
    OneStep(Stand(Held(1), SECOND, {10, 11}, Service(BookingDomain.Pending, [], map[0 := Asking(SAW), 1 := Asking(SAW)])),
            Serve(History.Update(0, 1, 0)), one);
    OneStep(one, Serve(History.Update(1, 2, 1)),
            Stand(Held(1), SECOND, {10, 11},
                  Service(BookingDomain.Confirmed, [TOLD], map[0 := Asking(History.Replied(Ok(1))), 1 := Asking(CONFLICT)])));
  }

  const OWING := Tables(map[10 := Paid(Succeeded, true)], map["evt" := "charge.succeeded"],
                        map[11 := Row(Confirm(10, 1), Some(3), 1), 12 := Row(Refund(10), None, 0)])

  const HEARD := map[0 := Passing([11], [Rejected(12)], None)]

  /** The relay hears the refusal. */
  lemma RefusalHeard(b: History.State)
    requires b == Service(BookingDomain.Confirmed, [TOLD], map[0 := Asking(History.Replied(Ok(1))), 1 := Asking(CONFLICT)])
    requires InRun(Stand(Held(1), SECOND, {10, 11}, b))
    ensures InRun(Stand(Held(1), HEARD, {10, 11, 12}, b))
  {
    var waiting := Stand(Held(1), SECOND, {10, 11}, b);
    assert {10, 11} + {12} == {10, 11, 12};
    assert Further(SECOND[0], Some(Rejected(12))) == Passing([11], [Rejected(12)], None);
    assert OutcomeOf(CONFLICT.answer, 12) == Some(Rejected(12));
    var next := Next(waiting, HearConfirm(0, 12));
    OneStep(waiting, HearConfirm(0, 12), Stand(Held(1), HEARD, {10, 11, 12}, b));
  }

  /** It commits, and with it the order of a refund. */
  lemma RefundOrdered(b: History.State)
    requires InRun(Stand(Held(1), HEARD, {10, 11, 12}, b))
    ensures InRun(Stand(OWING, map[], {10, 11, 12}, b))
  {
    var heard := Stand(Held(1), HEARD, {10, 11, 12}, b);
    assert SettleAll(Held(1), [11], [], 3) == Held(1);
    assert [Rejected(12)][..0] == [];
    assert SettleAll(Held(1), [11], [Rejected(12)], 3) == Settle(Held(1), 11, Rejected(12), 3) == OWING;
    OneStep(heard, Commit(0, 3), Stand(OWING, map[], {10, 11, 12}, b));
  }

  ghost predicate RefundsConfirmed(s: State, p: nat) {
    && p in s.t.payments && s.t.payments[p].needsRefund && HasRefund(s.t.outbox, p)
    && s.t.payments[p].booking in s.booking.db.bookings
    && s.booking.db.bookings[s.t.payments[p].booking].status.Confirmed?
  }

  /** A run after which the money of a confirmed booking is on its way back. */
  lemma OverlapRefundsAConfirmedBooking() returns (states: seq<State>, steps: seq<Step>)
    ensures Run(false, states, steps) && RefundsConfirmed(states[|steps|], 10)
  {
    ChargeSucceeded();
    ConfirmSent(0, map[], 0);
    GivenUp(0, map[0 := Asking(History.New)], 0);
    ConfirmSent(1, map[0 := Asking(History.New)], 1);
    assert map[0 := Asking(History.New)][1 := Asking(History.New)] == map[0 := Asking(History.New), 1 := Asking(History.New)];
    BothRead();
    BothUpdate();
    var b := Service(BookingDomain.Confirmed, [TOLD], map[0 := Asking(History.Replied(Ok(1))), 1 := Asking(CONFLICT)]);
    RefusalHeard(b);
    RefundOrdered(b);
    var s := Stand(OWING, map[], {10, 11, 12}, b);
    assert s.t.outbox[12].command == Refund(10);
    steps :| Leads(Moves(), START, steps, s);
    states := OnTheWay(Moves(), START, steps, s);
    forall i | 0 <= i < |steps| ensures Enabled(states[i], steps[i]) && states[i + 1] == Next(states[i], steps[i]) {
      assert Moves()(states[i], steps[i], states[i + 1]);
    }
  }
}
