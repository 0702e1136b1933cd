/** The booking service: slots, bookings and the outbox, changed only by whole transactions.
    Time is a number of microseconds; every operation receives `now` from its caller. */
module BookingService {
  import opened Common
  import opened BookingDomain

  datatype Slot = Slot(master: string, startsAt: int, endsAt: int, priceMinor: int)

  datatype Booking = Booking(slot: nat, client: string, status: Status, createdAt: int, updatedAt: int)

  /** Statuses worth telling the world about. */
  type Told = s: Status | !s.Pending? witness Confirmed

  /** The payload of an outbox row. `id` is the row's id and the id consumers deduplicate by. */
  datatype Event = Event(id: nat, status: Told, booking: nat, slot: nat, client: string,
                         startsAt: int, occurredAt: int)

  datatype Row = Row(event: Event, publishedAt: Option<int>, attempts: nat)

  /** The committed database. Outbox rows are listed in the order they were committed. */
  datatype Tables = Tables(slots: map<nat, Slot>, bookings: map<nat, Booking>, outbox: seq<Row>)

  const EMPTY := Tables(map[], map[], [])

  /** The foreign key: the slot of every booking exists. */
  predicate ForeignKey(t: Tables) {
    forall b :: b in t.bookings ==> t.bookings[b].slot in t.slots
  }

  type Db = t: Tables | ForeignKey(t) witness EMPTY

  datatype Error =
    | SlotNotFound | SlotInPast | InvalidSlot | SlotAlreadyBooked
    | BookingNotFound | BookingNotPayable | InvalidTransition

  predicate Fresh(outbox: seq<Row>, id: nat) {
    forall i :: 0 <= i < |outbox| ==> outbox[i].event.id != id
  }

  function NewRow(id: nat, target: Told, b: nat, booking: Booking, slot: Slot, now: int): Row {
    Row(Event(id, target, b, booking.slot, booking.client, slot.startsAt, now), None, 0)
  }

  // ---- creating and booking a slot

  /** `aware`: both times come with a time zone. */
  function CreateSlot(db: Db, id: nat, aware: bool, slot: Slot, now: int): (Db, Result<nat, Error>) {
    if !aware then (db, Err(InvalidSlot))
    else if slot.endsAt <= slot.startsAt || slot.startsAt <= now then (db, Err(InvalidSlot))
    else (db.(slots := db.slots[id := slot]), Ok(id))
  }

  /** Pending past its time: it no longer holds the slot, only nobody has said so yet. */
  predicate Stale(b: Booking, now: int, ttl: int) {
    b.status.Pending? && b.createdAt <= now - ttl
  }

  /** A booking holds its slot while it is confirmed, or pending and not stale. */
  predicate Holds(b: Booking, now: int, ttl: int) {
    b.status.Confirmed? || (b.status.Pending? && b.createdAt > now - ttl)
  }

  function StaleOn(bookings: map<nat, Booking>, slot: nat, now: int, ttl: int): set<nat> {
    set b | b in bookings && bookings[b].slot == slot && Stale(bookings[b], now, ttl)
  }

  function Expire(bookings: map<nat, Booking>, ids: set<nat>, now: int): map<nat, Booking> {
    map b | b in bookings ::
      if b in ids then bookings[b].(status := Expired, updatedAt := now) else bookings[b]
  }

  /** What the partial unique index refuses: an active booking on the slot. */
  predicate Taken(bookings: map<nat, Booking>, slot: nat) {
    exists b :: b in bookings && bookings[b].slot == slot && Active(bookings[b].status)
  }

  predicate Distinct<T(==)>(s: seq<T>) {
    forall i, j :: 0 <= i < j < |s| ==> s[i] != s[j]
  }

  /** `order` lists the set `s`, each element once. */
  ghost predicate Lists(order: seq<nat>, s: set<nat>) {
    Distinct(order) && (forall b :: b in order <==> b in s)
  }

  /** One `expired` row for every booking of `order`, under the ids of `ids`. */
  function AddExpired(db: Db, order: seq<nat>, ids: seq<nat>, now: int): seq<Row>
    requires |ids| == |order|
    requires forall b :: b in order ==> b in db.bookings
  {
    if order == [] then db.outbox
    else
      var n := |order| - 1;
      var b := order[n];
      assert b in order;
      AddExpired(db, order[..n], ids[..n], now)
      + [NewRow(ids[n], Expired, b, db.bookings[b], db.slots[db.bookings[b].slot], now)]
  }

  /** One transaction: expire what is stale on the slot and say so in the outbox, then
      insert the booking. The index decides at commit; a refusal leaves nothing behind.
      `order` is the order the database returns the expired rows in. */
  function BookSlot(db: Db, slot: nat, client: string, now: int, ttl: int,
                    id: nat, order: seq<nat>, ids: seq<nat>): (Db, Result<nat, Error>)
    requires Lists(order, StaleOn(db.bookings, slot, now, ttl)) && |ids| == |order|
  {
    if slot !in db.slots then (db, Err(SlotNotFound))
    else if db.slots[slot].startsAt <= now then (db, Err(SlotInPast))
    else
      var left := Expire(db.bookings, StaleOn(db.bookings, slot, now, ttl), now);
      if Taken(left, slot) then (db, Err(SlotAlreadyBooked))
      else
        (db.(bookings := left[id := Booking(slot, client, Pending, now, now)],
             outbox := AddExpired(db, order, ids, now)),
         Ok(id))
  }

  // ---- changing a status: a possibly stale read, then a conditional update

  datatype Decision = AlreadyThere | Refuse(error: Error) | TryFrom(seen: Status)

  /** What the request decides from the status it has read. */
  function Decide(bookings: map<nat, Booking>, b: nat, target: Status): Decision {
    if b !in bookings then Refuse(BookingNotFound)
    else if bookings[b].status == target then AlreadyThere
    else if !Allowed(bookings[b].status, target) then Refuse(InvalidTransition)
    else TryFrom(bookings[b].status)
  }

  /** The update matches only the status seen before; it and its outbox row commit together. */
  function CommitChange(db: Db, b: nat, seen: Status, target: Status, now: int, id: nat)
    : (Db, Result<nat, Error>)
  {
    if b !in db.bookings || db.bookings[b].status != seen then
      (db, Err(InvalidTransition))
    else
      var booking := db.bookings[b];
      var after := db.(bookings := db.bookings[b := booking.(status := target, updatedAt := now)]);
      if target.Pending? then (after, Ok(b))
      else
        (after.(outbox := db.outbox + [NewRow(id, target, b, booking, db.slots[booking.slot], now)]),
         Ok(b))
  }

  // ---- reading

  /** The slots of a master, on a day if one is given (days are counted from the epoch), each with the
      flag "can be booked right now". */
  function ListSlots(db: Db, master: string, day: Option<int>, now: int, ttl: int): map<nat, bool> {
    map s | s in db.slots && db.slots[s].master == master
            && (day.Some? ==> day.value * DAY <= db.slots[s].startsAt < (day.value + 1) * DAY)
      :: !(exists b :: b in db.bookings && db.bookings[b].slot == s && Holds(db.bookings[b], now, ttl))
         && db.slots[s].startsAt > now
  }

  function GetOwned(db: Db, b: nat, who: Identity): Result<Booking, Error> {
    if b !in db.bookings then Err(BookingNotFound)
    else if !Owns(who, db.bookings[b].client, db.slots[db.bookings[b].slot].master) then
      Err(BookingNotFound)
    else Ok(db.bookings[b])
  }

  function GetPayable(db: Db, b: nat, who: Identity, now: int, ttl: int): Result<Booking, Error> {
    var owned := GetOwned(db, b, who);
    if owned.Err? then owned
    else if !owned.value.status.Pending? || Stale(owned.value, now, ttl) then Err(BookingNotPayable)
    else owned
  }

  /** The same ownership rule written as a filter. */
  function ListMine(db: Db, who: Identity): set<nat> {
    set b | b in db.bookings
            && (if who.role.Client? then db.bookings[b].client == who.subject
                else db.slots[db.bookings[b].slot].master == who.subject)
  }

  /** Nobody sees a stranger's slot and none is left out: every slot is in the list of its master and of
      no other, and there on its own day and on no other, under the same flag. */
  lemma EverySlotHasItsPlace(db: Db, s: nat, master: string, day: int, now: int, ttl: int)
    requires s in db.slots
    ensures s in ListSlots(db, db.slots[s].master, None, now, ttl)
    ensures s in ListSlots(db, db.slots[s].master, Some(DayOf(db.slots[s].startsAt)), now, ttl)
    ensures master != db.slots[s].master ==>
              s !in ListSlots(db, master, None, now, ttl) && s !in ListSlots(db, master, Some(day), now, ttl)
    ensures day != DayOf(db.slots[s].startsAt) ==> s !in ListSlots(db, master, Some(day), now, ttl)
    ensures s in ListSlots(db, master, Some(day), now, ttl) ==>
              ListSlots(db, master, Some(day), now, ttl)[s] == ListSlots(db, master, None, now, ttl)[s]
    ensures forall x :: x in ListSlots(db, master, None, now, ttl) ==> x in db.slots
  {
  }

  /** The day an instant falls on. */
  function DayOf(t: int): int {
    t / 86_400_000_000
  }

  /** A booking can be opened by its client and by the master of its slot; to everybody else it is not there. */
  lemma OpenToItsTwoSides(db: Db, b: nat, who: Identity)
    ensures GetOwned(db, b, who)
         == if b in db.bookings && who in {Identity(db.bookings[b].client, Client),
                                           Identity(db.slots[db.bookings[b].slot].master, Master)}
            then Ok(db.bookings[b]) else Err(BookingNotFound)
  {
  }

  lemma ListMineIsWhatOneMayOpen(db: Db, who: Identity, b: nat)
    ensures b in ListMine(db, who) <==> GetOwned(db, b, who).Ok?
  {
  }

  /** The list and the booking agree: a slot is shown as available exactly when a request
      to book it at that instant succeeds, whoever asks. */
  lemma AvailableExactlyWhenBookable(db: Db, master: string, day: Option<int>, s: nat, now: int, ttl: int,
                                     client: string, id: nat, order: seq<nat>, ids: seq<nat>)
    requires s in ListSlots(db, master, day, now, ttl)
    requires Lists(order, StaleOn(db.bookings, s, now, ttl)) && |ids| == |order|
    ensures ListSlots(db, master, day, now, ttl)[s]
            <==> BookSlot(db, s, client, now, ttl, id, order, ids).1.Ok?
  {
    var left := Expire(db.bookings, StaleOn(db.bookings, s, now, ttl), now);
    if b :| b in db.bookings && db.bookings[b].slot == s && Holds(db.bookings[b], now, ttl) {
      assert b in left && Active(left[b].status) && left[b].slot == s;
    }
    if b :| b in left && left[b].slot == s && Active(left[b].status) {
      assert Holds(db.bookings[b], now, ttl);
    }
  }

  /** One may pay exactly for a booking of one's own that is pending and still holds its slot. */
  lemma PayableExactly(db: Db, b: nat, who: Identity, now: int, ttl: int)
    ensures GetPayable(db, b, who, now, ttl).Ok?
            <==> b in ListMine(db, who) && db.bookings[b].status.Pending? && Holds(db.bookings[b], now, ttl)
    ensures b in ListMine(db, who) && GetPayable(db, b, who, now, ttl).Err? ==>
              GetPayable(db, b, who, now, ttl) == Err(BookingNotPayable)
    ensures b !in ListMine(db, who) ==> GetPayable(db, b, who, now, ttl) == Err(BookingNotFound)
  {
    ListMineIsWhatOneMayOpen(db, who, b);
  }

  /** From booking to losing the slot: the client can pay until the time is up, from then on nobody
      can, and the slot is somebody else's to book as long as it has not started. */
  lemma BookingHoldsForItsTime(db: Db, slot: nat, client: string, now: int, ttl: int, id: nat, order: seq<nat>, ids: seq<nat>,
                               later: int, other: string, id2: nat, order2: seq<nat>, ids2: seq<nat>)
    requires Lists(order, StaleOn(db.bookings, slot, now, ttl)) && |ids| == |order| && id !in db.bookings
    requires BookSlot(db, slot, client, now, ttl, id, order, ids).1.Ok?
    requires var db' := BookSlot(db, slot, client, now, ttl, id, order, ids).0;
      Lists(order2, StaleOn(db'.bookings, slot, later, ttl)) && |ids2| == |order2|
    ensures var db' := BookSlot(db, slot, client, now, ttl, id, order, ids).0;
      && (GetPayable(db', id, Identity(client, Client), later, ttl).Ok? <==> later < now + ttl)
      && (BookSlot(db', slot, other, later, ttl, id2, order2, ids2).1.Ok?
          <==> now + ttl <= later < db.slots[slot].startsAt)
  {
    var db' := BookSlot(db, slot, client, now, ttl, id, order, ids).0;
    var left := Expire(db.bookings, StaleOn(db.bookings, slot, now, ttl), now);
    assert !Taken(left, slot) && db'.bookings == left[id := Booking(slot, client, Pending, now, now)];
    PayableExactly(db', id, Identity(client, Client), later, ttl);
    var left' := Expire(db'.bookings, StaleOn(db'.bookings, slot, later, ttl), later);
    assert id in left' && left'[id].slot == slot;
    assert Taken(left', slot) <==> Active(left'[id].status) by {
      if b :| b in left' && left'[b].slot == slot && Active(left'[b].status) {
        assert b != id ==> b in left;
      }
    }
  }

  /** What creating a slot is good for: it succeeds exactly when the new slot can be booked at that
      instant, and then anybody can, until it starts; whatever was there before is listed, held and
      payable as before. */
  lemma NewSlotIsOpen(db: Db, id: nat, aware: bool, slot: Slot, now: int, day: Option<int>, ttl: int, later: int,
                      client: string, b: nat)
    requires id !in db.slots && b !in db.bookings && now <= later
    ensures var (db', r) := CreateSlot(db, id, aware, slot, now);
      if r.Err? then db' == db && r == Err(InvalidSlot) && !(aware && now < slot.startsAt < slot.endsAt)
      else
        && r == Ok(id) && aware && now < slot.startsAt < slot.endsAt
        && db'.slots == db.slots[id := slot] && db'.bookings == db.bookings && db'.outbox == db.outbox
        && StaleOn(db'.bookings, id, later, ttl) == {}
        && (BookSlot(db', id, client, later, ttl, b, [], []).1.Ok? <==> later < slot.startsAt)
        && (forall master :: id in ListSlots(db', master, day, later, ttl)
              <==> master == slot.master && (day == None || day == Some(DayOf(slot.startsAt))))
        && id in ListSlots(db', slot.master, None, later, ttl)
        && (ListSlots(db', slot.master, None, later, ttl)[id] <==> later < slot.startsAt)
        && forall master, s :: s in db.slots ==>
             (s in ListSlots(db', master, day, later, ttl) <==> s in ListSlots(db, master, day, later, ttl))
             && (s in ListSlots(db, master, day, later, ttl) ==>
                   ListSlots(db', master, day, later, ttl)[s] == ListSlots(db, master, day, later, ttl)[s])
  {
    var db' := CreateSlot(db, id, aware, slot, now).0;
    assert forall c :: c in db.bookings ==> db.bookings[c].slot != id;
    assert StaleOn(db'.bookings, id, later, ttl) == {};
    assert Expire(db.bookings, {}, later) == db.bookings;
  }
}
