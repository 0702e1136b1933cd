/** Every run of the booking service: any number of requests, interleaved between the
    status they read and the update they then try. */
module BookingHistory {
  import opened Common
  import opened BookingDomain
  import opened BookingService

  // ---- what the tables promise

  /** The changes the outbox records for one booking, in the order they were committed. */
  function Trail(outbox: seq<Row>, b: nat): seq<Status> {
    if outbox == [] then []
    else
      var last := outbox[|outbox| - 1].event;
      Trail(outbox[..|outbox| - 1], b) + (if last.booking == b then [last.status] else [])
  }

  predicate OneActive(bookings: map<nat, Booking>) {
    forall a, b | a in bookings && b in bookings && bookings[a].slot == bookings[b].slot
                  && Active(bookings[a].status) && Active(bookings[b].status) :: a == b
  }

  /** The outbox of a booking spells exactly its path from pending to its current status. */
  ghost predicate HistoryTold(bookings: map<nat, Booking>, outbox: seq<Row>) {
    forall b :: b in bookings ==> Walk(Trail(outbox, b)) == Some(bookings[b].status)
  }

  /** The row names an existing booking, with its client and the start of its slot. */
  ghost predicate RowTruthful(db: Db, e: Event) {
    && e.booking in db.bookings
    && e.slot == db.bookings[e.booking].slot
    && e.client == db.bookings[e.booking].client
    && e.startsAt == db.slots[db.bookings[e.booking].slot].startsAt
  }

  ghost predicate Truthful(db: Db) {
    forall i :: 0 <= i < |db.outbox| ==> RowTruthful(db, db.outbox[i].event)
  }

  ghost predicate UniqueIds(outbox: seq<Row>) {
    forall i, j :: 0 <= i < |outbox| && 0 <= j < |outbox| && outbox[i].event.id == outbox[j].event.id ==> i == j
  }

  ghost predicate Sound(db: Db) {
    OneActive(db.bookings) && HistoryTold(db.bookings, db.outbox) && Truthful(db) && UniqueIds(db.outbox)
  }

  // ---- how rows are added

  lemma TrailAppend(outbox: seq<Row>, row: Row, b: nat)
    ensures Trail(outbox + [row], b)
         == Trail(outbox, b) + (if row.event.booking == b then [row.event.status] else [])
  {
    assert (outbox + [row])[..|outbox|] == outbox;
  }

  lemma {:induction false} TrailOfStrangers(outbox: seq<Row>, b: nat)
    requires forall i :: 0 <= i < |outbox| ==> outbox[i].event.booking != b
    ensures Trail(outbox, b) == []
  {
    if outbox != [] {
      TrailOfStrangers(outbox[..|outbox| - 1], b);
    }
  }

  lemma {:induction false} TrailHas(outbox: seq<Row>, i: nat)
    requires i < |outbox|
    ensures outbox[i].event.status in Trail(outbox, outbox[i].event.booking)
  {
    if i < |outbox| - 1 {
      TrailHas(outbox[..|outbox| - 1], i);
    }
  }

  /** Conversely, every status of a trail is the status of a row of that booking. */
  lemma {:induction false} TrailComesFromRows(outbox: seq<Row>, b: nat, s: Status) returns (i: nat)
    requires s in Trail(outbox, b)
    ensures i < |outbox| && outbox[i].event.booking == b && outbox[i].event.status == s
  {
    var front, last := outbox[..|outbox| - 1], outbox[|outbox| - 1];
    if s in Trail(front, b) {
      i := TrailComesFromRows(front, b, s);
    } else {
      i := |outbox| - 1;
    }
  }

  /** Two rows of one booking with one status make its trail repeat that status. */
  lemma {:induction false} TrailShowsRepeats(outbox: seq<Row>, i: nat, j: nat, b: nat) returns (x: nat, y: nat)
    requires i < j < |outbox|
    requires outbox[i].event.booking == b == outbox[j].event.booking
    requires outbox[i].event.status == outbox[j].event.status
    ensures x < y < |Trail(outbox, b)| && Trail(outbox, b)[x] == Trail(outbox, b)[y]
  {
    var front := outbox[..|outbox| - 1];
    if j < |outbox| - 1 {
      x, y := TrailShowsRepeats(front, i, j, b);
    } else {
      TrailHas(front, i);
      y := |Trail(front, b)|;
      x :| 0 <= x < y && Trail(front, b)[x] == outbox[i].event.status;
    }
  }

  /** A transition of a booking is told by exactly one row. */
  lemma OneRowPerTransition(db: Db, i: nat, j: nat)
    requires Sound(db) && i < |db.outbox| && j < |db.outbox|
    requires db.outbox[i].event.booking == db.outbox[j].event.booking
    requires db.outbox[i].event.status == db.outbox[j].event.status
    ensures i == j
  {
    var b := db.outbox[i].event.booking;
    assert RowTruthful(db, db.outbox[i].event);
    WalkNeverRepeats(Trail(db.outbox, b));
    if i < j {
      var x, y := TrailShowsRepeats(db.outbox, i, j, b);
      assert false;
    } else if j < i {
      var x, y := TrailShowsRepeats(db.outbox, j, i, b);
      assert false;
    }
  }

  ghost predicate FreshIds(outbox: seq<Row>, ids: seq<nat>) {
    Distinct(ids) && forall x :: x in ids ==> Fresh(outbox, x)
  }

  lemma {:induction false} ExpiredRows(db: Db, order: seq<nat>, ids: seq<nat>, now: int)
    requires |ids| == |order| && (forall b :: b in order ==> b in db.bookings)
    requires Truthful(db) && UniqueIds(db.outbox) && FreshIds(db.outbox, ids)
    ensures var outbox := AddExpired(db, order, ids, now);
      && UniqueIds(outbox)
      && (forall i :: 0 <= i < |outbox| ==> RowTruthful(db, outbox[i].event))
      && (forall i :: 0 <= i < |outbox| ==> outbox[i].event.id in ids || !Fresh(db.outbox, outbox[i].event.id))
      && db.outbox <= outbox
  {
    if order != [] {
      var n := |order| - 1;
      var b := order[n];
      assert b in order;
      ExpiredRows(db, order[..n], ids[..n], now);
    }
  }

  lemma {:induction false} ExpiredTrail(db: Db, order: seq<nat>, ids: seq<nat>, now: int, b: nat)
    requires |ids| == |order| && Distinct(order) && (forall b :: b in order ==> b in db.bookings)
    ensures Trail(AddExpired(db, order, ids, now), b)
         == Trail(db.outbox, b) + (if b in order then [Expired] else [])
  {
    if order != [] {
      var n := |order| - 1;
      var c := order[n];
      assert c in order && order == order[..n] + [c];
      ExpiredTrail(db, order[..n], ids[..n], now, b);
      TrailAppend(AddExpired(db, order[..n], ids[..n], now),
                  NewRow(ids[n], Expired, c, db.bookings[c], db.slots[db.bookings[c].slot], now), b);
    }
  }

  // ---- what each transaction keeps

  lemma CreateSlotKeeps(db: Db, id: nat, aware: bool, slot: Slot, now: int)
    requires Sound(db) && id !in db.slots
    ensures Sound(CreateSlot(db, id, aware, slot, now).0)
  {
  }

  lemma BookSlotKeeps(db: Db, slot: nat, client: string, now: int, ttl: int,
                      id: nat, order: seq<nat>, ids: seq<nat>)
    requires Sound(db) && id !in db.bookings
    requires Lists(order, StaleOn(db.bookings, slot, now, ttl)) && |ids| == |order|
    requires FreshIds(db.outbox, ids)
    ensures var (db', r) := BookSlot(db, slot, client, now, ttl, id, order, ids);
      Sound(db') && (r.Err? ==> db' == db)
  {
    var (db', r) := BookSlot(db, slot, client, now, ttl, id, order, ids);
    if r.Ok? {
      var left := Expire(db.bookings, StaleOn(db.bookings, slot, now, ttl), now);
      OneMoreActive(db.bookings, left, slot, id, Booking(slot, client, Pending, now, now), now, ttl);
      ExpiredRows(db, order, ids, now);
      assert Truthful(db') by {
        forall i | 0 <= i < |db'.outbox| ensures RowTruthful(db', db'.outbox[i].event) {
          assert RowTruthful(db, db'.outbox[i].event);
        }
      }
      BookSlotTells(db, slot, client, now, ttl, id, order, ids);
    }
  }

  /** Expiring makes nobody active, and a booking on a slot that is not taken is its only active one. */
  lemma OneMoreActive(bookings: map<nat, Booking>, left: map<nat, Booking>, slot: nat, id: nat, booking: Booking, now: int, ttl: int)
    requires OneActive(bookings) && left == Expire(bookings, StaleOn(bookings, slot, now, ttl), now)
    requires !Taken(left, slot) && booking.slot == slot
    ensures OneActive(left[id := booking])
  {
    assert forall b :: b in left && left[b].slot == slot ==> !Active(left[b].status);
  }

  lemma BookSlotTells(db: Db, slot: nat, client: string, now: int, ttl: int,
                      id: nat, order: seq<nat>, ids: seq<nat>)
    requires HistoryTold(db.bookings, db.outbox) && Truthful(db) && id !in db.bookings
    requires Lists(order, StaleOn(db.bookings, slot, now, ttl)) && |ids| == |order|
    requires BookSlot(db, slot, client, now, ttl, id, order, ids).1.Ok?
    ensures var db' := BookSlot(db, slot, client, now, ttl, id, order, ids).0; HistoryTold(db'.bookings, db'.outbox)
  {
    var db' := BookSlot(db, slot, client, now, ttl, id, order, ids).0;
    forall b | b in db'.bookings ensures Walk(Trail(db'.outbox, b)) == Some(db'.bookings[b].status) {
      ExpiredTrail(db, order, ids, now, b);
      if b == id {
        NewBookingUntold(db, id);
      } else {
        TellOne(Trail(db.outbox, b), db.bookings[b].status, Expired, b in order);
      }
    }
  }

  lemma NewBookingUntold(db: Db, id: nat)
    requires Truthful(db) && id !in db.bookings
    ensures Trail(db.outbox, id) == []
  {
    forall i | 0 <= i < |db.outbox| ensures db.outbox[i].event.booking != id {
      assert RowTruthful(db, db.outbox[i].event);
    }
    TrailOfStrangers(db.outbox, id);
  }

  lemma TellOne(trail: seq<Status>, current: Status, target: Status, moved: bool)
    requires Walk(trail) == Some(current) && (moved ==> Allowed(current, target))
    ensures Walk(trail + (if moved then [target] else [])) == Some(if moved then target else current)
  {
    if moved {
      WalkAppend(trail, target);
    } else {
      assert trail + [] == trail;
    }
  }

  lemma CommitChangeKeeps(db: Db, b: nat, seen: Status, target: Status, now: int, id: nat)
    requires Sound(db) && Allowed(seen, target) && Fresh(db.outbox, id)
    ensures var (db', r) := CommitChange(db, b, seen, target, now, id);
      Sound(db') && (r.Err? ==> db' == db) && (r.Ok? ==> db'.bookings[b].status == target)
  {
    var (db', r) := CommitChange(db, b, seen, target, now, id);
    if r.Ok? {
      CommitChangeTells(db, b, target, now, id);
      assert Truthful(db') by {
        forall i | 0 <= i < |db'.outbox| ensures RowTruthful(db', db'.outbox[i].event) {
          if i < |db.outbox| {
            assert RowTruthful(db, db.outbox[i].event);
          }
        }
      }
      assert UniqueIds(db'.outbox);
    }
  }

  lemma CommitChangeTells(db: Db, b: nat, target: Status, now: int, id: nat)
    requires HistoryTold(db.bookings, db.outbox)
    requires b in db.bookings && Allowed(db.bookings[b].status, target)
    ensures !target.Pending?
    ensures var db' := CommitChange(db, b, db.bookings[b].status, target, now, id).0;
      HistoryTold(db'.bookings, db'.outbox)
  {
    var booking := db.bookings[b];
    var db' := CommitChange(db, b, booking.status, target, now, id).0;
    var row := NewRow(id, target, b, booking, db.slots[booking.slot], now);
    forall c | c in db'.bookings ensures Walk(Trail(db'.outbox, c)) == Some(db'.bookings[c].status) {
      TrailAppend(db.outbox, row, c);
      TellOne(Trail(db.outbox, c), db.bookings[c].status, target, c == b);
    }
  }

  /** A slot has at most one booking that can still be paid, and it is the one holding the slot. */
  lemma OnePayablePerSlot(db: Db, a: nat, whoA: Identity, b: nat, whoB: Identity, now: int, ttl: int)
    requires OneActive(db.bookings)
    requires GetPayable(db, a, whoA, now, ttl).Ok? && GetPayable(db, b, whoB, now, ttl).Ok?
    requires db.bookings[a].slot == db.bookings[b].slot
    ensures a == b && Holds(db.bookings[a], now, ttl)
    ensures forall master, day :: db.bookings[a].slot in ListSlots(db, master, day, now, ttl)
              ==> !ListSlots(db, master, day, now, ttl)[db.bookings[a].slot]
  {
  }

  // ---- the machine

  datatype Phase = New | Saw(status: Status) | Replied(answer: Result<nat, Error>)

  /** A request to move a booking to a status, somewhere between arrival and answer. */
  datatype Request = Request(booking: nat, target: Status, phase: Phase)

  datatype State = State(db: Db, requests: map<nat, Request>)

  datatype Step =
    | DoCreate(id: nat, aware: bool, slot: Slot, now: int)
    | DoBook(slotId: nat, client: string, now: int, ttl: int, id: nat, order: seq<nat>, ids: seq<nat>)
    | Ask(q: nat, booking: nat, target: Status)
    | Read(q: nat)
    | Update(q: nat, now: int, id: nat)
    | Forget(q: nat)

  ghost predicate Enabled(s: State, step: Step) {
    match step
    case DoCreate(id, _, _, _) => id !in s.db.slots
    case DoBook(slot, _, now, ttl, id, order, ids) =>
      && Lists(order, StaleOn(s.db.bookings, slot, now, ttl)) && |ids| == |order|
      && id !in s.db.bookings && FreshIds(s.db.outbox, ids)
    case Ask(q, _, _) => q !in s.requests
    case Read(q) => q in s.requests && s.requests[q].phase.New?
    case Update(q, _, id) => q in s.requests && s.requests[q].phase.Saw? && Fresh(s.db.outbox, id)
    case Forget(q) => q in s.requests
  }

  /** The first half of a status change: the read, and what it leads to. */
  function AfterRead(bookings: map<nat, Booking>, r: Request): Request {
    match Decide(bookings, r.booking, r.target)
    case AlreadyThere => r.(phase := Replied(Ok(r.booking)))
    case Refuse(e) => r.(phase := Replied(Err(e)))
    case TryFrom(seen) => r.(phase := Saw(seen))
  }

  /** The changes the service allows. */
  predicate MayFollow(current: Status, target: Status) {
    (current == Pending && target != Pending) || (current == Confirmed && target == Cancelled)
  }

  /** What the read of a request leads to, by the status it finds. */
  lemma ReadAnswers(bookings: map<nat, Booking>, r: Request)
    ensures var phase := AfterRead(bookings, r).phase;
      && AfterRead(bookings, r) == r.(phase := phase)
      && if r.booking !in bookings then phase == Replied(Err(BookingNotFound))
         else if bookings[r.booking].status == r.target then phase == Replied(Ok(r.booking))
         else if MayFollow(bookings[r.booking].status, r.target) then phase == Saw(bookings[r.booking].status)
         else phase == Replied(Err(InvalidTransition))
  {
  }

  ghost function Next(s: State, step: Step): State
    requires Enabled(s, step)
  {
    match step
    case DoCreate(id, aware, slot, now) => s.(db := CreateSlot(s.db, id, aware, slot, now).0)
    case DoBook(slot, client, now, ttl, id, order, ids) =>
      s.(db := BookSlot(s.db, slot, client, now, ttl, id, order, ids).0)
    case Ask(q, b, target) => s.(requests := s.requests[q := Request(b, target, New)])
    case Read(q) => s.(requests := s.requests[q := AfterRead(s.db.bookings, s.requests[q])])
    case Update(q, now, id) =>
      var r := s.requests[q];
      var (db', answer) := CommitChange(s.db, r.booking, r.phase.status, r.target, now, id);
      State(db', s.requests[q := r.(phase := Replied(answer))])
    case Forget(q) => s.(requests := s.requests - {q})
  }

  const START := State(EMPTY, map[])

  /** `states` is a run of the service from an empty database, taking the steps of `steps`. */
  ghost predicate Run(states: seq<State>, steps: seq<Step>) {
    && |states| == |steps| + 1 && states[0] == START
    && forall i :: 0 <= i < |steps| ==> Enabled(states[i], steps[i]) && states[i + 1] == Next(states[i], steps[i])
  }

  /** A request that goes on to the update saw an existing booking in a status its target may follow. */
  ghost predicate RequestsSound(bookings: map<nat, Booking>, requests: map<nat, Request>) {
    forall q | q in requests && requests[q].phase.Saw? ::
      requests[q].booking in bookings && Allowed(requests[q].phase.status, requests[q].target)
  }

  ghost predicate Inv(s: State) {
    Sound(s.db) && RequestsSound(s.db.bookings, s.requests)
  }

  lemma StepKeeps(s: State, step: Step)
    requires Inv(s) && Enabled(s, step)
    ensures Inv(Next(s, step))
  {
    match step {
      case DoCreate(id, aware, slot, now) => CreateSlotKeeps(s.db, id, aware, slot, now);
      case DoBook(slot, client, now, ttl, id, order, ids) =>
        BookSlotKeeps(s.db, slot, client, now, ttl, id, order, ids);
      case Ask(_, _, _) =>
      case Read(_) =>
      case Update(q, now, id) =>
        CommitChangeKeeps(s.db, s.requests[q].booking, s.requests[q].phase.status, s.requests[q].target, now, id);
      case Forget(_) =>
    }
  }

  lemma {:induction false} EveryRunKeeps(states: seq<State>, steps: seq<Step>, i: nat)
    requires Run(states, steps) && i < |states|
    ensures Inv(states[i])
  {
    if i > 0 {
      EveryRunKeeps(states, steps, i - 1);
      StepKeeps(states[i - 1], steps[i - 1]);
    }
  }

  // ---- repeating a change

  /** The step answers the request `q` with success. */
  ghost predicate Succeeds(s: State, step: Step, q: nat) {
    && Enabled(s, step) && (step == Read(q) || (step.Update? && step.q == q))
    && Next(s, step).requests[q].phase == Replied(Ok(s.requests[q].booking))
  }

  /** A request that succeeds leaves its booking in the status it asked for. */
  lemma SuccessIsThere(s: State, step: Step, q: nat)
    requires Inv(s) && Succeeds(s, step, q)
    ensures var s', r := Next(s, step), s.requests[q];
      r.booking in s'.db.bookings && s'.db.bookings[r.booking].status == r.target
  {
    if step.Read? {
      ReadAnswers(s.db.bookings, s.requests[q]);
    }
  }

  lemma {:induction false} BookingsStay(states: seq<State>, steps: seq<Step>, i: nat, j: nat, b: nat)
    requires Run(states, steps) && i <= j < |states| && b in states[i].db.bookings
    ensures b in states[j].db.bookings
    decreases j
  {
    if i < j {
      BookingsStay(states, steps, i, j - 1, b);
    }
  }

  /** A lost response is no reason to worry: once a change has succeeded, asking for it again succeeds
      without touching the database, for as long as the outbox tells of no other change of this booking. */
  lemma RepeatIsSafe(states: seq<State>, steps: seq<Step>, i: nat, j: nat, q: nat, again: nat)
    requires Run(states, steps) && i < j < |steps| && Succeeds(states[i], steps[i], q) && steps[j] == Read(again)
    requires states[j].requests[again].booking == states[i].requests[q].booking
    requires states[j].requests[again].target == states[i].requests[q].target
    requires var b := states[i].requests[q].booking; Trail(states[j].db.outbox, b) == Trail(states[i + 1].db.outbox, b)
    ensures Succeeds(states[j], steps[j], again) && states[j + 1].db == states[j].db
  {
    var b := states[i].requests[q].booking;
    EveryRunKeeps(states, steps, i);
    EveryRunKeeps(states, steps, i + 1);
    EveryRunKeeps(states, steps, j);
    SuccessIsThere(states[i], steps[i], q);
    BookingsStay(states, steps, i + 1, j, b);
    assert Walk(Trail(states[j].db.outbox, b)) == Some(states[j].db.bookings[b].status);
    assert Walk(Trail(states[i + 1].db.outbox, b)) == Some(states[i + 1].db.bookings[b].status);
    ReadAnswers(states[j].db.bookings, states[j].requests[again]);
  }

  /** A request whose caller is gone leaves the database as it was and may be made again. */
  lemma LostRequestsMayBeRepeated(s: State, q: nat)
    requires q in s.requests
    ensures Enabled(s, Forget(q)) && Next(s, Forget(q)).db == s.db
    ensures var again := Ask(q, s.requests[q].booking, s.requests[q].target);
      Enabled(Next(s, Forget(q)), again) && Next(Next(s, Forget(q)), again).requests[q] == s.requests[q].(phase := New)
  {
  }
}
