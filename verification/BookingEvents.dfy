/** The messages the booking service publishes: each carries all a consumer needs. */
module BookingEvents {
  import opened Common
  import opened BookingService
  import opened NotifierDomain
  import Retries = NotifierRetries
  import Settles = NotifierSettles

  function EventType(s: Told): string {
    match s
    case Confirmed => "booking.confirmed"
    case Cancelled => "booking.cancelled"
    case Expired => "booking.expired"
  }

  /** The message body as a stream entry. */
  function Encode(codec: Codec, e: Event): Data {
    Object(map["event_id" := Text(codec.showId(e.id)),
               "type" := Text(EventType(e.status)),
               "version" := Other(true, "1"),
               "occurred_at" := Text(codec.iso(e.occurredAt)),
               "booking_id" := Text(codec.showId(e.booking)),
               "slot_id" := Text(codec.showId(e.slot)),
               "client_id" := Text(e.client),
               "starts_at" := Text(codec.iso(e.startsAt))])
  }

  /** A message leaves nothing out: two changes with the same message are the same change. */
  lemma MessagesTellApart(codec: Codec, a: Event, b: Event)
    requires Faithful(codec) && Encode(codec, a) == Encode(codec, b)
    ensures a == b
  {
    var left, right := Encode(codec, a).fields, Encode(codec, b).fields;
    assert left["event_id"] == right["event_id"] && left["type"] == right["type"];
    assert left["booking_id"] == right["booking_id"] && left["slot_id"] == right["slot_id"];
    assert left["client_id"] == right["client_id"];
    assert left["starts_at"] == right["starts_at"] && left["occurred_at"] == right["occurred_at"];
    assert codec.readIso(codec.iso(a.startsAt)) == Some(a.startsAt) && codec.readIso(codec.iso(b.startsAt)) == Some(b.startsAt);
    assert codec.readIso(codec.iso(a.occurredAt)) == Some(a.occurredAt);
    assert codec.readIso(codec.iso(b.occurredAt)) == Some(b.occurredAt);
    assert "booking.confirmed"[9] != "booking.cancelled"[9];
    assert "booking.confirmed"[8] != "booking.expired"[8] && "booking.cancelled"[10] != "booking.expired"[10];
  }

  /** What a client is told about a change of their booking. */
  function Notice(codec: Codec, e: Event): string {
    var ending := match e.status
                  case Confirmed => IS_CONFIRMED
                  case Cancelled => IS_CANCELLED
                  case Expired => IS_EXPIRED;
    Sentence(codec, e.startsAt, ending)
  }

  /** The notifier reads a published message as it was meant, or (when a printed field is
      empty) finds it unreadable; it never meets anything it did not foresee. */
  lemma ReadsWhatWasWritten(codec: Codec, e: Event)
    requires Faithful(codec)
    ensures var reading := ReadData(codec, Encode(codec, e));
      && !reading.Raises?
      && (reading.Readable? ==>
            reading.event == BookingEvent(codec.showId(e.id), EventType(e.status), codec.showId(e.booking),
                                          e.client, e.startsAt))
      && (reading.Readable? <==> codec.showId(e.id) != "" && codec.showId(e.booking) != "" && e.client != ""
                                 && codec.iso(e.startsAt) != "")
  {
    var fields := Encode(codec, e).fields;
    assert codec.readIso(codec.iso(e.startsAt)) == Some(e.startsAt);
    assert REQUIRED_FIELDS[0] == "event_id" && REQUIRED_FIELDS[1] == "type" && REQUIRED_FIELDS[2] == "booking_id";
    assert REQUIRED_FIELDS[3] == "client_id" && REQUIRED_FIELDS[4] == "starts_at";
  }

  /** The text the notifier renders is the notice of the change. */
  lemma RendersTheNotice(codec: Codec, e: Event, id: string, booking: string)
    ensures Render(codec, BookingEvent(id, EventType(e.status), booking, e.client, e.startsAt)) == Some(Notice(codec, e))
    ensures Notice(codec, e)
         == "Your booking on " + codec.showWhen(e.startsAt)
            + (match e.status
               case Confirmed => " is confirmed."
               case Cancelled => " is cancelled."
               case Expired => " expired, the slot is free again.")
  {
    assert "booking.confirmed"[9] != "booking.cancelled"[9];
    assert "booking.confirmed"[8] != "booking.expired"[8] && "booking.cancelled"[10] != "booking.expired"[10];
  }

  /** Whatever booking publishes is harmless, as long as a printed identifier can be sent to the
      notifier's database: it is never hopeless, and of a type the notifier knows. */
  lemma PublishedIsHarmless(codec: Codec, max: nat, batch: nat, kinds: iset<Data>)
    requires Faithful(codec) && forall n :: codec.sendable(codec.showId(n))
    requires forall d :: d in kinds ==> exists e :: d == Encode(codec, e)
    ensures Settles.Harmless(codec, max, batch, kinds)
  {
    forall d | d in kinds ensures !Settles.Hopeless(codec, d) && !Settles.Perishable(codec, d) {
      var e :| d == Encode(codec, e);
      ReadsWhatWasWritten(codec, e);
      RendersTheNotice(codec, e, codec.showId(e.id), codec.showId(e.booking));
    }
  }

  /** So with nobody else writing to the stream everything is settled, whatever the gateway answers. */
  lemma PublishedIsSettled(codec: Codec, max: nat, batch: nat, before: seq<Retries.Event>, after: seq<Retries.Event>)
    requires Faithful(codec) && (forall n :: codec.sendable(codec.showId(n))) && batch > 0
    requires forall i :: 0 <= i < |before| && before[i].Arrives? ==> exists e :: before[i].data == Encode(codec, e)
    ensures Settles.SettledAfter(codec, max, batch, before, after)
  {
    var kinds := iset e: Event :: Encode(codec, e);
    PublishedIsHarmless(codec, max, batch, kinds);
    Settles.EverythingIsSettledExactly(codec, max, batch, kinds);
    assert Settles.Arrivals(kinds, before);
  }
}
