/** What handling one entry leaves behind, case by case. */
module NotifierOutcomes {
  import opened Common
  import opened NotifierDomain
  import opened Notifier

  /** The entry is done with, and nothing else happened. */
  predicate OnlyAcknowledged(w: World, w': World, entry: nat) {
    && w'.rows == w.rows && w'.gate == w.gate
    && w'.broker == w.broker.(pending := w.broker.pending - {entry}, acked := w.broker.acked + {entry})
  }

  /** The dead stream has the entry as it came; its row, if there is one, is marked and keeps
      everything else; nobody was asked. */
  predicate GivenUp(w: World, w': World, entry: nat, key: Option<string>)
    requires entry < |w.broker.entries|
  {
    && w'.gate == w.gate
    && w'.rows == (if key.Some? && key.value in w.rows then w.rows[key.value := w.rows[key.value].(status := Dead)] else w.rows)
    && w'.broker == w.broker.(pending := w.broker.pending - {entry}, acked := w.broker.acked + {entry},
                              dead := w.broker.dead + [DeadEntry(entry, w.broker.entries[entry])])
  }

  /** The gateway was asked once, under the id of the event. It holds the message unless it refused or
      knew the key. Accepted, the row says sent, with the gateway's id; otherwise it counts the
      failure, and the entry will come again. */
  predicate Attempted(w: World, w': World, entry: nat, e: BookingEvent, text: string, answer: Answer) {
    var row := if e.eventId in w.rows then w.rows[e.eventId] else Notification(e, text, Sending, 0, None);
    var message := Message(e.clientId, text);
    && w'.gate.calls == w.gate.calls + [Call(entry, e.eventId, message)]
    && (answer == Refused || e.eventId in w.gate.keys ==> w'.gate.sent == w.gate.sent && w'.gate.keys == w.gate.keys)
    && (answer != Refused && e.eventId !in w.gate.keys ==>
          w'.gate.sent == w.gate.sent + [(e.eventId, message)] && w'.gate.keys == w.gate.keys + {e.eventId})
    && (answer.Delivered? ==>
          && w'.rows == w.rows[e.eventId := row.(status := Sent, gatewayId := Some(answer.id))]
          && w'.broker == w.broker.(pending := w.broker.pending - {entry}, acked := w.broker.acked + {entry}))
    && (!answer.Delivered? ==>
          w'.rows == w.rows[e.eventId := row.(attempts := row.attempts + 1)] && w'.broker == w.broker)
  }

  const KNOWN_TYPES := {"booking.confirmed", "booking.cancelled", "booking.expired"}

  /** The database takes the row: no text that cannot be sent, and none that is too long. */
  predicate Storable(codec: Codec, e: BookingEvent, text: string) {
    && codec.sendable(e.eventId) && codec.sendable(e.bookingId) && codec.sendable(e.clientId) && codec.sendable(e.kind)
    && codec.sendable(text)
    && |e.eventId| <= 64 && |e.bookingId| <= 64 && |e.clientId| <= 64 && |e.kind| <= 64 && |text| <= 512
  }

  /** An entry that can be read, by the number of its delivery, its type and its row. */
  predicate ReadableTells(codec: Codec, max: nat, w: World, w': World, outcome: Outcome, entry: nat, deliveries: nat,
                          answer: Answer, e: BookingEvent)
    requires entry < |w.broker.entries|
  {
    if deliveries > max then
      if codec.sendable(e.eventId) then outcome == WentDead && GivenUp(w, w', entry, Some(e.eventId))
      else
        outcome == Raised
        && w' == w.(broker := w.broker.(dead := w.broker.dead + [DeadEntry(entry, w.broker.entries[entry])]))
    else if e.kind !in KNOWN_TYPES then outcome == Ignored && OnlyAcknowledged(w, w', entry)
    else
      Render(codec, e).Some? && var text := Render(codec, e).value;
      if !Storable(codec, e, text) then outcome == Raised && w' == w
      else if e.eventId in w.rows && w.rows[e.eventId].status in {Sent, Dead} then
        outcome == Duplicate && OnlyAcknowledged(w, w', entry)
      else
        outcome == (if answer.Delivered? then WasSent else Failed) && Attempted(w, w', entry, e, text, answer)
  }

  /** Any entry. What cannot be read is given up at once. */
  predicate Tells(codec: Codec, max: nat, w: World, w': World, outcome: Outcome, entry: nat, deliveries: nat, answer: Answer)
    requires entry < |w.broker.entries|
  {
    match ReadData(codec, w.broker.entries[entry])
    case Raises => outcome == Raised && w' == w
    case Unreadable => outcome == WentDead && GivenUp(w, w', entry, None)
    case Readable(e) => ReadableTells(codec, max, w, w', outcome, entry, deliveries, answer, e)
  }

  lemma AttemptTells(w: World, entry: nat, e: BookingEvent, text: string, answer: Answer)
    ensures var (w', outcome) := Attempt(w, entry, e, text, answer);
      if e.eventId in w.rows && w.rows[e.eventId].status in {Sent, Dead} then
        outcome == Duplicate && OnlyAcknowledged(w, w', entry)
      else
        outcome == (if answer.Delivered? then WasSent else Failed) && Attempted(w, w', entry, e, text, answer)
  {
  }

  lemma HandleTells(codec: Codec, max: nat, w: World, entry: nat, deliveries: nat, answer: Answer)
    requires entry < |w.broker.entries|
    ensures var (w', outcome) := Handle(codec, max, w, entry, deliveries, answer);
      Tells(codec, max, w, w', outcome, entry, deliveries, answer)
  {
    var reading := ReadData(codec, w.broker.entries[entry]);
    if reading.Readable? && Render(codec, reading.event).Some? {
      AttemptTells(w, entry, reading.event, Render(codec, reading.event).value, answer);
    }
  }
}
