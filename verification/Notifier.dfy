/** The notifier's consumer: the stream with its pending list, the notifications table and
    NotifyGate, and the single effects by which the consumer changes them. */
module Notifier {
  import opened Common
  import opened NotifierDomain
  import opened Batches

  // ---- the stores

  datatype DeadEntry = DeadEntry(original: nat, data: Data)

  /** A stream with one consumer group. An entry is named by its position. `delivered` entries
      were handed out at least once; `pending` counts the deliveries of those not acknowledged. */
  datatype Broker = Broker(entries: seq<Data>, delivered: nat, pending: map<nat, nat>,
                           acked: set<nat>, dead: seq<DeadEntry>)

  datatype RowStatus = Sending | Sent | Dead

  datatype Notification = Notification(event: BookingEvent, text: string, status: RowStatus,
                                       attempts: nat, gatewayId: Option<string>)

  datatype Message = Message(recipient: string, text: string)

  datatype Call = Call(entry: nat, key: string, message: Message)

  /** NotifyGate: the messages it holds under the key of the request that created them,
      the keys it remembers, and every request ever made to it. */
  datatype Gate = Gate(sent: seq<(string, Message)>, keys: set<string>, calls: seq<Call>)

  datatype World = World(broker: Broker, rows: map<string, Notification>, gate: Gate)

  /** What the gateway does with a request: accept and answer, accept and stay silent, refuse. */
  datatype Answer = Delivered(id: string) | Lost | Refused

  // ---- single effects

  function Ack(b: Broker, entry: nat): Broker {
    b.(pending := b.pending - {entry}, acked := b.acked + {entry})
  }

  function AddDead(b: Broker, entry: nat): Broker
    requires entry < |b.entries|
  {
    b.(dead := b.dead + [DeadEntry(entry, b.entries[entry])])
  }

  function InsertRow(rows: map<string, Notification>, e: BookingEvent, text: string): map<string, Notification> {
    if e.eventId in rows then rows else rows[e.eventId := Notification(e, text, Sending, 0, None)]
  }

  function MarkSent(rows: map<string, Notification>, key: string, id: string): map<string, Notification> {
    if key in rows then rows[key := rows[key].(status := Sent, gatewayId := Some(id))] else rows
  }

  function MarkDead(rows: map<string, Notification>, key: string): map<string, Notification> {
    if key in rows then rows[key := rows[key].(status := Dead)] else rows
  }

  function CountFailure(rows: map<string, Notification>, key: string): map<string, Notification> {
    if key in rows then rows[key := rows[key].(attempts := rows[key].attempts + 1)] else rows
  }

  /** A repeated key returns the message of the first request instead of making a second one. */
  function Send(g: Gate, call: Call, answer: Answer): Gate {
    var asked := g.(calls := g.calls + [call]);
    if answer.Refused? || call.key in g.keys then asked
    else asked.(sent := g.sent + [(call.key, call.message)], keys := g.keys + {call.key})
  }

  // ---- handling one entry, with nobody else around

  datatype Outcome = WasSent | Duplicate | Ignored | WentDead | Failed | Raised

  /** The event was dealt with before: its row exists and is no longer being sent. */
  predicate AlreadyDone(rows: map<string, Notification>, key: string) {
    key in rows && !rows[key].status.Sending?
  }

  /** The columns hold this many characters. */
  const ID_WIDTH := 64
  const TEXT_WIDTH := 512

  predicate Fits(codec: Codec, text: string, width: nat) {
    codec.sendable(text) && |text| <= width
  }

  /** The database takes the values of the claim row. If it does not, the insert raises. */
  predicate InsertFits(codec: Codec, e: BookingEvent, text: string) {
    && Fits(codec, e.eventId, ID_WIDTH) && Fits(codec, e.bookingId, ID_WIDTH) && Fits(codec, e.clientId, ID_WIDTH)
    && Fits(codec, e.kind, ID_WIDTH) && Fits(codec, text, TEXT_WIDTH)
  }

  /** First the dead-letter entry, then the row, then the acknowledgement. The row is looked for
      under the event id: if that cannot be sent to the database, the update raises. */
  function DeadLetter(codec: Codec, w: World, entry: nat, key: Option<string>): (World, Outcome)
    requires entry < |w.broker.entries|
  {
    var b := AddDead(w.broker, entry);
    if key.None? then (w.(broker := Ack(b, entry)), WentDead)
    else if codec.sendable(key.value) then
      (w.(broker := Ack(b, entry), rows := MarkDead(w.rows, key.value)), WentDead)
    else (w.(broker := b), Raised)
  }

  function Attempt(w: World, entry: nat, e: BookingEvent, text: string, answer: Answer): (World, Outcome) {
    var rows := InsertRow(w.rows, e, text);
    if AlreadyDone(rows, e.eventId) then (w.(broker := Ack(w.broker, entry)), Duplicate)
    else
      var gate := Send(w.gate, Call(entry, e.eventId, Message(e.clientId, text)), answer);
      match answer
      case Delivered(id) => (World(Ack(w.broker, entry), MarkSent(rows, e.eventId, id), gate), WasSent)
      case Lost => (World(w.broker, CountFailure(rows, e.eventId), gate), Failed)
      case Refused => (World(w.broker, CountFailure(rows, e.eventId), gate), Failed)
  }

  function Handle(codec: Codec, max: nat, w: World, entry: nat, deliveries: nat, answer: Answer)
    : (r: (World, Outcome))
    requires entry < |w.broker.entries|
    ensures r.0.broker.entries == w.broker.entries && (WellFormed(w.broker) ==> WellFormed(r.0.broker))
  {
    match ReadData(codec, w.broker.entries[entry])
    case Raises => (w, Raised)
    case Unreadable => DeadLetter(codec, w, entry, None)
    case Readable(e) =>
      if deliveries > max then DeadLetter(codec, w, entry, Some(e.eventId))
      else if Render(codec, e).None? then (w.(broker := Ack(w.broker, entry)), Ignored)
      else if !InsertFits(codec, e, Render(codec, e).value) then (w, Raised)
      else Attempt(w, entry, e, Render(codec, e).value, answer)
  }

  // ---- one cycle: abandoned entries first, then new ones

  datatype Job = Job(entry: nat, deliveries: nat)

  /** Entries are handed out in order, and only handed out entries are pending. */
  predicate WellFormed(b: Broker) {
    b.delivered <= |b.entries| && forall e :: e in b.pending ==> e < b.delivered
  }

  /** Claiming an entry counts as another delivery. */
  function CountUp(pending: map<nat, nat>, claimed: set<nat>): map<nat, nat> {
    map e | e in pending :: if e in claimed then pending[e] + 1 else pending[e]
  }

  function Claim(b: Broker, claimed: set<nat>): Broker {
    b.(pending := CountUp(b.pending, claimed))
  }

  function ReclaimedJobs(counts: map<nat, nat>, order: seq<nat>): seq<Job>
    requires forall e :: e in order ==> e in counts
  {
    seq(|order|, i requires 0 <= i < |order| => assert order[i] in order; Job(order[i], counts[order[i]] + 1))
  }

  /** How many new entries one read returns. */
  function FreshCount(b: Broker, batch: nat): nat
    requires WellFormed(b)
  {
    if |b.entries| - b.delivered < batch then |b.entries| - b.delivered else batch
  }

  function FirstDeliveries(from: nat, n: nat): (m: map<nat, nat>)
    ensures forall e :: e in m <==> from <= e < from + n
    ensures forall e :: e in m ==> m[e] == 1
  {
    if n == 0 then map[] else FirstDeliveries(from, n - 1)[from + n - 1 := 1]
  }

  function ReadFresh(b: Broker, n: nat): Broker
    requires b.delivered + n <= |b.entries|
  {
    b.(pending := b.pending + FirstDeliveries(b.delivered, n), delivered := b.delivered + n)
  }

  function FreshJobs(b: Broker, n: nat): seq<Job> {
    seq(n, i requires 0 <= i => Job(b.delivered + i, 1))
  }

  predicate JobsExist(entries: seq<Data>, jobs: seq<Job>) {
    forall i :: 0 <= i < |jobs| ==> jobs[i].entry < |entries|
  }

  /** Handles the jobs in turn. An exception nobody foresaw ends the cycle. */
  function HandleAll(codec: Codec, max: nat, w: World, jobs: seq<Job>, answers: nat -> Answer, from: nat)
    : (r: (World, seq<Outcome>))
    requires JobsExist(w.broker.entries, jobs)
    ensures r.0.broker.entries == w.broker.entries && (WellFormed(w.broker) ==> WellFormed(r.0.broker))
    decreases |jobs|
  {
    if jobs == [] then (w, [])
    else
      var (w1, outcome) := Handle(codec, max, w, jobs[0].entry, jobs[0].deliveries, answers(from));
      if outcome.Raised? then (w1, [outcome])
      else
        var (w2, rest) := HandleAll(codec, max, w1, jobs[1..], answers, from + 1);
        (w2, [outcome] + rest)
  }

  /** The pending entries this cycle takes over: the first ones that have been idle for long enough. */
  function Overdue(b: Broker, idle: set<nat>, batch: nat): (order: seq<nat>)
    ensures forall e :: e in order ==> e in b.pending
  {
    FirstNIsPrefix(b.pending.Keys * idle, batch);
    FirstN(b.pending.Keys * idle, batch)
  }

  /** The stores and the work after everything due has been claimed. */
  function TakeWork(b: Broker, idle: set<nat>, batch: nat): (r: (Broker, seq<Job>))
    requires WellFormed(b)
    ensures JobsExist(b.entries, r.1) && r.0.entries == b.entries && WellFormed(r.0)
  {
    var order := Overdue(b, idle, batch);
    var claimed := Claim(b, set e | e in order);
    var n := FreshCount(b, batch);
    var jobs := ReclaimedJobs(b.pending, order);
    (ReadFresh(claimed, n), jobs + FreshJobs(b, n))
  }

  function Cycle(codec: Codec, max: nat, batch: nat, w: World, idle: set<nat>, answers: nat -> Answer)
    : (r: (World, seq<Outcome>))
    requires WellFormed(w.broker)
    ensures r.0.broker.entries == w.broker.entries && WellFormed(r.0.broker)
  {
    var (b, jobs) := TakeWork(w.broker, idle, batch);
    HandleAll(codec, max, w.(broker := b), jobs, answers, 0)
  }
}
