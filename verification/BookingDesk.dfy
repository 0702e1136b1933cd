/** The booking service as it runs: a session whose changes become visible at commit. */
module BookingDesk {
  import opened Common
  import opened BookingDomain
  import opened BookingService
  import opened BookingHistory

  class Session {
    // what the open transaction sees
    var slots: map<nat, Slot>
    var bookings: map<nat, Booking>
    var outbox: seq<Row>
    // what is committed
    var saved: Db
    // the next time-ordered identifier
    var nextId: nat

    ghost predicate Valid()
      reads this
    {
      && Clean()
      && OneActive(bookings)
      && (forall s :: s in slots ==> s < nextId)
      && (forall b :: b in bookings ==> b < nextId)
      && (forall i :: 0 <= i < |outbox| ==> outbox[i].event.id < nextId)
    }

    /** No transaction is open. */
    ghost predicate Clean()
      reads this
    {
      saved == Tables(slots, bookings, outbox)
    }

    constructor ()
      ensures Valid() && saved == EMPTY
    {
      slots, bookings, outbox, saved, nextId := map[], map[], [], EMPTY, 0;
    }

    /** The partial unique index is checked here, and a refusal undoes the transaction. */
    method Commit() returns (ok: bool)
      requires ForeignKey(Tables(slots, bookings, outbox))
      modifies this
      ensures Clean() && nextId == old(nextId)
      ensures ok == OneActive(old(bookings))
      ensures saved == if ok then Tables(old(slots), old(bookings), old(outbox)) else old(saved)
    {
      ok := OneActive(bookings);
      if ok {
        saved := Tables(slots, bookings, outbox);
      } else {
        Rollback();
      }
    }

    method Rollback()
      modifies this
      ensures Clean() && saved == old(saved) && nextId == old(nextId)
    {
      slots, bookings, outbox := saved.slots, saved.bookings, saved.outbox;
    }

    method CreateSlot(aware: bool, slot: Slot, now: int) returns (r: Result<nat, Error>)
      requires Valid()
      modifies this
      ensures Valid() && (saved, r) == BookingService.CreateSlot(old(saved), old(nextId), aware, slot, now)
      ensures old(nextId) !in old(saved).slots
    {
      if !aware || slot.endsAt <= slot.startsAt || slot.startsAt <= now {
        return Err(InvalidSlot);
      }
      var id := nextId;
      nextId := nextId + 1;
      slots := slots[id := slot];
      var _ := Commit();
      r := Ok(id);
    }

    /** Writes the event into the outbox, in the caller's transaction. */
    method EnqueueEvent(status: Status, b: nat, booking: Booking, slot: Slot, now: int)
      requires !status.Pending?
      modifies this`outbox, this`nextId
      ensures nextId == old(nextId) + 1
      ensures outbox == old(outbox) + [NewRow(old(nextId), status, b, booking, slot, now)]
    {
      outbox := outbox + [NewRow(nextId, status, b, booking, slot, now)];
      nextId := nextId + 1;
    }

    method BookSlot(slotId: nat, client: string, now: int, ttl: int)
      returns (r: Result<nat, Error>, id: nat, ghost order: seq<nat>, ghost ids: seq<nat>)
      requires Valid()
      modifies this
      ensures Valid()
      ensures Lists(order, StaleOn(old(saved).bookings, slotId, now, ttl)) && |ids| == |order|
      ensures id !in old(saved).bookings && FreshIds(old(saved).outbox, ids)
      ensures (saved, r) == BookingService.BookSlot(old(saved), slotId, client, now, ttl, id, order, ids)
      ensures Booked(old(saved), saved, r, id, slotId, client, now, ttl)
    {
      BookSlotBooks(saved, slotId, client, now, ttl);
      id := nextId;
      order, ids := ListSet(StaleOn(bookings, slotId, now, ttl), nextId);
      if slotId !in slots {
        return Err(SlotNotFound), id, order, ids;
      }
      var slot := slots[slotId];
      if slot.startsAt <= now {
        return Err(SlotInPast), id, order, ids;
      }
      id, order, ids := ExpireStale(slotId, slot, now, ttl);
      bookings := bookings[id := Booking(slotId, client, Pending, now, now)];
      ghost var left := Expire(old(bookings), StaleOn(old(bookings), slotId, now, ttl), now);
      assert OneActive(bookings) <==> !Taken(left, slotId) by {
        InsertMeetsIndex(left, slotId, id, bookings[id]);
      }
      var ok := Commit();
      if !ok {
        return Err(SlotAlreadyBooked), id, order, ids;
      }
      r := Ok(id);
    }

    /** Stale unpaid bookings stop holding the slot when someone wants it: update them,
        then one event for each row the update returned. */
    method ExpireStale(slotId: nat, slot: Slot, now: int, ttl: int)
      returns (id: nat, ghost order: seq<nat>, ghost ids: seq<nat>)
      requires Valid() && slotId in slots && slots[slotId] == slot
      modifies this
      ensures slots == old(slots) && saved == old(saved)
      ensures bookings == Expire(old(bookings), StaleOn(old(bookings), slotId, now, ttl), now)
      ensures Lists(order, StaleOn(old(bookings), slotId, now, ttl)) && |ids| == |order|
      ensures outbox == AddExpired(old(saved), order, ids, now)
      ensures FreshIds(old(outbox), ids)
      ensures id >= old(nextId) && nextId == id + 1
      ensures forall i :: 0 <= i < |outbox| ==> outbox[i].event.id < id
    {
      var stale := StaleOn(bookings, slotId, now, ttl);
      bookings := Expire(bookings, stale, now);
      var todo := stale;
      order, ids := [], [];
      while todo != {}
        invariant todo <= stale && saved == old(saved) && slots == old(slots) && nextId >= old(nextId)
        invariant Lists(order, stale - todo) && |ids| == |order|
        invariant FreshIds(old(outbox), ids) && forall i :: 0 <= i < |ids| ==> ids[i] < nextId
        invariant outbox == AddExpired(saved, order, ids, now)
        invariant forall i :: 0 <= i < |outbox| ==> outbox[i].event.id < nextId
        invariant bookings == Expire(old(bookings), stale, now)
      {
        var b :| b in todo;
        todo := todo - {b};
        assert Fresh(old(outbox), nextId);
        AddExpiredAppend(saved, order, ids, now, b, nextId);
        order, ids := order + [b], ids + [nextId];
        EnqueueEvent(Expired, b, bookings[b], slot, now);
      }
      assert stale - todo == stale;
      id := nextId;
      nextId := nextId + 1;
    }

    /** The read of a status change. Nothing is locked: the answer may be stale when used. */
    method ReadStatus(b: nat, target: Status) returns (d: Decision)
      requires Valid()
      ensures d == Decide(saved.bookings, b, target)
    {
      d := Decide(bookings, b, target);
    }

    /** The conditional update: whatever happened since `seen` was read, the row changes
        only if it still has that status. */
    method UpdateStatus(b: nat, seen: Status, target: Status, now: int) returns (r: Result<nat, Error>)
      requires Valid() && Allowed(seen, target)
      modifies this
      ensures Valid()
      ensures (saved, r) == CommitChange(old(saved), b, seen, target, now, old(nextId))
      ensures r.Ok? <==> b in old(saved).bookings && old(saved).bookings[b].status == seen
      ensures r.Err? ==> saved == old(saved) && r == Err(InvalidTransition)
      ensures Fresh(old(saved).outbox, old(nextId))
    {
      if b !in bookings || bookings[b].status != seen {
        Rollback();
        return Err(InvalidTransition);
      }
      var booking := bookings[b];
      bookings := bookings[b := booking.(status := target, updatedAt := now)];
      EnqueueEvent(target, b, booking, slots[booking.slot], now);
      assert OneActive(bookings);
      var _ := Commit();
      r := Ok(b);
    }

    method ChangeStatus(b: nat, target: Status, now: int) returns (r: Result<nat, Error>)
      requires Valid()
      modifies this
      ensures Valid()
      ensures b !in old(saved).bookings ==> saved == old(saved) && r == Err(BookingNotFound)
      ensures b in old(saved).bookings ==>
                var booking := old(saved).bookings[b];
                if booking.status == target then saved == old(saved) && r == Ok(b)
                else if !MayFollow(booking.status, target) then saved == old(saved) && r == Err(InvalidTransition)
                else
                  && r == Ok(b) && saved.slots == old(saved).slots
                  && saved.bookings == old(saved).bookings[b := booking.(status := target, updatedAt := now)]
                  && saved.outbox == old(saved).outbox
                                     + [Row(Event(old(nextId), target, b, booking.slot, booking.client,
                                                  old(saved).slots[booking.slot].startsAt, now), None, 0)]
    {
      var d := ReadStatus(b, target);
      match d {
        case AlreadyThere => r := Ok(b);
        case Refuse(e) => r := Err(e);
        case TryFrom(seen) => r := UpdateStatus(b, seen, target, now);
      }
    }
  }

  /** What an attempt to book comes to. The slot is free unless a booking of it is confirmed, or pending
      for less than `ttl`; a pending one that is not is expired in the same transaction. */
  ghost predicate Booked(before: Db, after: Db, r: Result<nat, Error>, id: nat, slotId: nat, client: string, now: int, ttl: int) {
    if slotId !in before.slots then after == before && r == Err(SlotNotFound)
    else if before.slots[slotId].startsAt <= now then after == before && r == Err(SlotInPast)
    else if exists b :: b in before.bookings && before.bookings[b].slot == slotId && InTheWay(before.bookings[b], now, ttl) then
      after == before && r == Err(SlotAlreadyBooked)
    else
      && r == Ok(id) && after.slots == before.slots && after.bookings.Keys == before.bookings.Keys + {id}
      && after.bookings[id] == Booking(slotId, client, Pending, now, now)
      && forall b :: b in before.bookings && b != id ==>
           after.bookings[b] == if before.bookings[b].slot == slotId && before.bookings[b].status == Pending
                                then before.bookings[b].(status := Expired, updatedAt := now) else before.bookings[b]
  }

  predicate InTheWay(booking: Booking, now: int, ttl: int) {
    booking.status == Confirmed || (booking.status == Pending && now < booking.createdAt + ttl)
  }

  lemma BookSlotBooks(before: Db, slotId: nat, client: string, now: int, ttl: int)
    ensures forall id, order, ids | Lists(order, StaleOn(before.bookings, slotId, now, ttl)) && |ids| == |order| ::
              var (after, r) := BookingService.BookSlot(before, slotId, client, now, ttl, id, order, ids);
              Booked(before, after, r, id, slotId, client, now, ttl)
  {
    forall id, order, ids | Lists(order, StaleOn(before.bookings, slotId, now, ttl)) && |ids| == |order|
      ensures var (after, r) := BookingService.BookSlot(before, slotId, client, now, ttl, id, order, ids);
        Booked(before, after, r, id, slotId, client, now, ttl)
    {
      TakenWhenInTheWay(before.bookings, slotId, now, ttl);
    }
  }

  lemma TakenWhenInTheWay(bookings: map<nat, Booking>, slotId: nat, now: int, ttl: int)
    ensures Taken(Expire(bookings, StaleOn(bookings, slotId, now, ttl), now), slotId)
            <==> exists b :: b in bookings && bookings[b].slot == slotId && InTheWay(bookings[b], now, ttl)
  {
    var left := Expire(bookings, StaleOn(bookings, slotId, now, ttl), now);
    if b :| b in bookings && bookings[b].slot == slotId && InTheWay(bookings[b], now, ttl) {
      assert left[b] == bookings[b] && Active(left[b].status);
    }
    if b :| b in left && left[b].slot == slotId && Active(left[b].status) {
      assert InTheWay(bookings[b], now, ttl);
    }
  }

  lemma AddExpiredAppend(db: Db, order: seq<nat>, ids: seq<nat>, now: int, b: nat, id: nat)
    requires |ids| == |order| && (forall c :: c in order ==> c in db.bookings) && b in db.bookings
    ensures (forall c :: c in order + [b] ==> c in db.bookings)
    ensures AddExpired(db, order + [b], ids + [id], now)
         == AddExpired(db, order, ids, now)
            + [NewRow(id, Expired, b, db.bookings[b], db.slots[db.bookings[b].slot], now)]
  {
    assert (order + [b])[..|order|] == order && (ids + [id])[..|ids|] == ids;
  }

  /** Inserting a pending booking meets the index exactly when the slot is taken. */
  lemma InsertMeetsIndex(left: map<nat, Booking>, slot: nat, id: nat, booking: Booking)
    requires OneActive(left) && id !in left && booking.slot == slot && booking.status.Pending?
    ensures OneActive(left[id := booking]) <==> !Taken(left, slot)
  {
    var after := left[id := booking];
    if b :| b in left && left[b].slot == slot && Active(left[b].status) {
      assert after[b] == left[b] && after[id] == booking && b != id;
    }
  }

  /** Any finite set of ids can be listed, next to as many identifiers from `from` on. */
  lemma ListSet(s: set<nat>, from: nat) returns (order: seq<nat>, ids: seq<nat>)
    ensures Lists(order, s) && |ids| == |order| && Distinct(ids)
    ensures forall i :: 0 <= i < |ids| ==> ids[i] >= from
  {
    if s == {} {
      order, ids := [], [];
    } else {
      var b :| b in s;
      order, ids := ListSet(s - {b}, from + 1);
      order, ids := order + [b], ids + [from];
    }
  }
}
