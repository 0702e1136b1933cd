/** What the notifier makes of a message: which fields it needs and what text it sends. */
module NotifierDomain {
  import opened Common

  /** A JSON value, as far as the notifier looks at it: whether it counts as present,
      and what `str` makes of it. */
  datatype Value = Text(s: string) | Other(truthy: bool, shown: string)

  predicate Truthy(v: Value) {
    match v
    case Text(s) => s != ""
    case Other(truthy, _) => truthy
  }

  function Shown(v: Value): string {
    match v
    case Text(s) => s
    case Other(_, shown) => shown
  }

  /** The data field of a stream entry: no JSON at all, nested too deeply for the parser's stack,
      JSON that is no object, or an object. */
  datatype Data =
    | NotJson(raw: string)
    | TooDeep(raw: string)
    | NotObject(raw: string)
    | Object(fields: map<string, Value>)

  datatype BookingEvent = BookingEvent(eventId: string, kind: string, bookingId: string,
                                       clientId: string, startsAt: int)

  const REQUIRED_FIELDS := ["event_id", "type", "booking_id", "client_id", "starts_at"]

  predicate Present(fields: map<string, Value>, name: string) {
    name in fields && Truthy(fields[name])
  }

  function ParseEvent(codec: Codec, fields: map<string, Value>): Option<BookingEvent> {
    if exists i :: 0 <= i < |REQUIRED_FIELDS| && !Present(fields, REQUIRED_FIELDS[i]) then None
    else
      assert forall i :: 0 <= i < |REQUIRED_FIELDS| ==> Present(fields, REQUIRED_FIELDS[i]);
      assert REQUIRED_FIELDS[0] == "event_id" && REQUIRED_FIELDS[1] == "type" && REQUIRED_FIELDS[2] == "booking_id";
      assert REQUIRED_FIELDS[3] == "client_id" && REQUIRED_FIELDS[4] == "starts_at";
      var startsAt := codec.readIso(Shown(fields["starts_at"]));
      if startsAt.None? then None
      else Some(BookingEvent(Shown(fields["event_id"]), Shown(fields["type"]), Shown(fields["booking_id"]),
                             Shown(fields["client_id"]), startsAt.value))
  }

  const IS_CONFIRMED := " is confirmed."
  const IS_CANCELLED := " is cancelled."
  const IS_EXPIRED := " expired, the slot is free again."

  function Sentence(codec: Codec, startsAt: int, ending: string): string {
    "Your booking on " + codec.showWhen(startsAt) + ending
  }

  /** The text for the client, or nothing for an event type that is not known. */
  function Render(codec: Codec, e: BookingEvent): Option<string> {
    if e.kind == "booking.confirmed" then Some(Sentence(codec, e.startsAt, IS_CONFIRMED))
    else if e.kind == "booking.cancelled" then Some(Sentence(codec, e.startsAt, IS_CANCELLED))
    else if e.kind == "booking.expired" then Some(Sentence(codec, e.startsAt, IS_EXPIRED))
    else None
  }

  /** What reading an entry leads to. What exhausts the parser's stack and JSON that is no object
      are not foreseen: they raise. */
  datatype Reading = Raises | Unreadable | Readable(event: BookingEvent)

  function ReadData(codec: Codec, data: Data): Reading {
    match data
    case NotJson(_) => Unreadable
    case TooDeep(_) => Raises
    case NotObject(_) => Raises
    case Object(fields) =>
      var e := ParseEvent(codec, fields);
      if e.None? then Unreadable else Readable(e.value)
  }

  /** A field counts as there if it is a text that is not empty, or what Python takes for true. */
  predicate Filled(fields: map<string, Value>, name: string) {
    name in fields && match fields[name]
                      case Text(s) => s != ""
                      case Other(truthy, _) => truthy
  }

  /** Exactly what can be read: an object with five fields whose start is an instant. No JSON and an
      object that lacks something can be told apart; anything else raises. */
  lemma ReadsExactly(codec: Codec, data: Data)
    ensures match data
      case NotJson(_) => ReadData(codec, data) == Unreadable
      case TooDeep(_) => ReadData(codec, data) == Raises
      case NotObject(_) => ReadData(codec, data) == Raises
      case Object(fields) =>
        ReadData(codec, data)
        == if Filled(fields, "event_id") && Filled(fields, "type") && Filled(fields, "booking_id")
              && Filled(fields, "client_id") && Filled(fields, "starts_at")
              && codec.readIso(Shown(fields["starts_at"])).Some?
           then Readable(BookingEvent(Shown(fields["event_id"]), Shown(fields["type"]), Shown(fields["booking_id"]),
                                      Shown(fields["client_id"]), codec.readIso(Shown(fields["starts_at"])).value))
           else Unreadable
  {
    if data.Object? {
      assert REQUIRED_FIELDS[0] == "event_id" && REQUIRED_FIELDS[1] == "type" && REQUIRED_FIELDS[2] == "booking_id";
      assert REQUIRED_FIELDS[3] == "client_id" && REQUIRED_FIELDS[4] == "starts_at";
      forall name ensures Present(data.fields, name) <==> Filled(data.fields, name) {}
    }
  }

  /** An object with all the fields, for the examples. */
  function Example(id: string, kind: string, client: string): Data {
    Object(map["event_id" := Text(id), "type" := Text(kind), "booking_id" := Text("b"),
               "client_id" := Text(client), "starts_at" := Text("t")])
  }

  lemma ExampleIsRead(codec: Codec, id: string, kind: string, client: string)
    requires codec.readIso("t").Some? && id != "" && kind != "" && client != ""
    ensures ReadData(codec, Example(id, kind, client))
         == Readable(BookingEvent(id, kind, "b", client, codec.readIso("t").value))
  {
    assert REQUIRED_FIELDS[0] == "event_id" && REQUIRED_FIELDS[1] == "type" && REQUIRED_FIELDS[2] == "booking_id";
    assert REQUIRED_FIELDS[3] == "client_id" && REQUIRED_FIELDS[4] == "starts_at";
    assert forall i :: 0 <= i < |REQUIRED_FIELDS| ==> Present(Example(id, kind, client).fields, REQUIRED_FIELDS[i]);
  }
}
