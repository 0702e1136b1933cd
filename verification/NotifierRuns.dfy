/** Every run of any number of consumers: effects interleave freely, and a consumer may die
    between any two of them, losing only what it held in memory. */
module NotifierRuns {
  import opened Common
  import opened NotifierDomain
  import opened Notifier

  // ---- the machine

  /** How far a consumer is with the entry at the head of its jobs. */
  datatype Point =
    | Start
    | DeadAdded(key: string)     // in the dead stream, row not yet updated
    | Conflict(text: string)     // the row was there before; its status is not read yet
    | Sendable(text: string)
    | Answered(id: string)       // the gateway accepted; nothing recorded yet
    | Unsent                     // the gateway call failed; nothing recorded yet
    | Ackable

  datatype Worker =
    | Idle
    | Seen(counts: map<nat, nat>)              // XPENDING answered, XCLAIM not yet sent
    | Reading(jobs: seq<Job>)                  // reclaimed entries in hand, new ones not yet read
    | Handling(jobs: seq<Job>, at: Point)

  datatype State = State(w: World, workers: map<nat, Worker>)

  datatype Step =
    | Publish(data: Data)
    | Look(id: nat, counts: map<nat, nat>)
    | Take(id: nat, order: seq<nat>)
    | Fetch(id: nat, n: nat)
    | Act(id: nat, answer: Answer)
    | Crash(id: nat)

  function WorkerOf(s: State, id: nat): Worker {
    if id in s.workers then s.workers[id] else Idle
  }

  function Continue(jobs: seq<Job>): Worker {
    if jobs == [] then Idle else Handling(jobs, Start)
  }

  /** The next effect of a consumer that has work. */
  function Act1(codec: Codec, max: nat, w: World, jobs: seq<Job>, at: Point, answer: Answer): (World, Worker)
    requires jobs != [] && jobs[0].entry < |w.broker.entries|
  {
    var e := jobs[0].entry;
    match ReadData(codec, w.broker.entries[e])
    case Raises => (w, Idle)
    case Unreadable =>
      if at.Start? then (w.(broker := AddDead(w.broker, e)), Handling(jobs, Ackable))
      else (w.(broker := Ack(w.broker, e)), Continue(jobs[1..]))
    case Readable(ev) => ActOn(codec, max, w, jobs, at, ev, answer)
  }

  function ActOn(codec: Codec, max: nat, w: World, jobs: seq<Job>, at: Point, ev: BookingEvent, answer: Answer)
    : (World, Worker)
    requires jobs != [] && jobs[0].entry < |w.broker.entries|
  {
    var e, text := jobs[0].entry, Render(codec, ev);
    match at
    case Start =>
      if jobs[0].deliveries > max then (w.(broker := AddDead(w.broker, e)), Handling(jobs, DeadAdded(ev.eventId)))
      else if text.None? then (w, Handling(jobs, Ackable))
      else if !InsertFits(codec, ev, text.value) then (w, Idle)
      else (w.(rows := InsertRow(w.rows, ev, text.value)),
            Handling(jobs, if ev.eventId in w.rows then Conflict(text.value) else Sendable(text.value)))
    case DeadAdded(key) =>
      if codec.sendable(key) then (w.(rows := MarkDead(w.rows, key)), Handling(jobs, Ackable)) else (w, Idle)
    case Conflict(t) => (w, Handling(jobs, if AlreadyDone(w.rows, ev.eventId) then Ackable else Sendable(t)))
    case Sendable(t) =>
      (w.(gate := Send(w.gate, Call(e, ev.eventId, Message(ev.clientId, t)), answer)),
       Handling(jobs, if answer.Delivered? then Answered(answer.id) else Unsent))
    case Answered(id) => (w.(rows := MarkSent(w.rows, ev.eventId, id)), Handling(jobs, Ackable))
    case Unsent => (w.(rows := CountFailure(w.rows, ev.eventId)), Continue(jobs[1..]))
    case Ackable => (w.(broker := Ack(w.broker, e)), Continue(jobs[1..]))
  }

  ghost predicate Enabled(s: State, step: Step) {
    match step
    case Publish(_) => true
    case Look(id, counts) =>
      // the delivery counts of some pending entries, as they are now
      WorkerOf(s, id).Idle? && forall e :: e in counts ==> e in s.w.broker.pending && counts[e] == s.w.broker.pending[e]
    case Take(id, order) =>
      // some of the entries seen, each once, if they are still pending
      WorkerOf(s, id).Seen?
      && (forall i, j :: 0 <= i < j < |order| ==> order[i] != order[j])
      && forall e :: e in order ==> e in WorkerOf(s, id).counts && e in s.w.broker.pending
    case Fetch(id, n) => WorkerOf(s, id).Reading? && s.w.broker.delivered + n <= |s.w.broker.entries|
    case Act(id, _) =>
      var worker := WorkerOf(s, id);
      worker.Handling? && worker.jobs != [] && worker.jobs[0].entry < |s.w.broker.entries|
    case Crash(_) => true
  }

  ghost function Next(codec: Codec, max: nat, s: State, step: Step): State
    requires Enabled(s, step)
  {
    match step
    case Publish(data) => s.(w := s.w.(broker := s.w.broker.(entries := s.w.broker.entries + [data])))
    case Look(id, counts) => s.(workers := s.workers[id := Seen(counts)])
    case Take(id, order) =>
      State(s.w.(broker := Claim(s.w.broker, set e | e in order)),
            s.workers[id := Reading(ReclaimedJobs(WorkerOf(s, id).counts, order))])
    case Fetch(id, n) =>
      State(s.w.(broker := ReadFresh(s.w.broker, n)),
            s.workers[id := Continue(WorkerOf(s, id).jobs + FreshJobs(s.w.broker, n))])
    case Act(id, answer) =>
      var worker := WorkerOf(s, id);
      var (w', worker') := Act1(codec, max, s.w, worker.jobs, worker.at, answer);
      State(w', s.workers[id := worker'])
    case Crash(id) => s.(workers := s.workers[id := Idle])
  }

  const START := State(World(Broker([], 0, map[], {}, []), map[], Gate([], {}, [])), map[])

  ghost predicate Run(codec: Codec, max: nat, states: seq<State>, steps: seq<Step>) {
    && |states| == |steps| + 1 && states[0] == START
    && forall i :: 0 <= i < |steps| ==>
         Enabled(states[i], steps[i]) && states[i + 1] == Next(codec, max, states[i], steps[i])
  }

  /** One step, as a relation. */
  ghost function Moves(codec: Codec, max: nat): (State, Step, State) -> bool {
    (s: State, step: Step, t: State) => Enabled(s, step) && t == Next(codec, max, s, step)
  }

  // ---- what holds in every reachable state

  ghost predicate DeadHolds(dead: seq<DeadEntry>, e: nat) {
    exists i :: 0 <= i < |dead| && dead[i].original == e
  }

  ghost predicate DeadHoldsKey(codec: Codec, dead: seq<DeadEntry>, key: string) {
    exists i :: 0 <= i < |dead|
      && ReadData(codec, dead[i].data).Readable? && ReadData(codec, dead[i].data).event.eventId == key
  }

  /** The row of this event can be asked for, if it gets one. */
  predicate Addressable(codec: Codec, ev: BookingEvent) {
    Render(codec, ev).Some? ==> codec.sendable(ev.eventId)
  }

  /** Nobody needs to look at this entry again, and somebody can tell why. */
  ghost predicate Accounted(codec: Codec, b: Broker, keys: set<string>, e: nat) {
    e < |b.entries| &&
    match ReadData(codec, b.entries[e])
    case Raises => false
    case Unreadable => DeadHolds(b.dead, e)
    case Readable(ev) =>
      Addressable(codec, ev) &&
      (Render(codec, ev).None? || ev.eventId in keys || DeadHolds(b.dead, e) || DeadHoldsKey(codec, b.dead, ev.eventId))
  }

  /** No silent loss: an entry is still to be handed out, or pending, or acknowledged and accounted for. */
  ghost predicate NothingLost(codec: Codec, b: Broker, keys: set<string>) {
    && (forall e :: 0 <= e < b.delivered ==> e in b.pending || e in b.acked)
    && (forall e :: e in b.acked ==> Accounted(codec, b, keys, e))
  }

  ghost predicate BrokerSound(b: Broker) {
    && WellFormed(b)
    && (forall e :: e in b.acked ==> e < b.delivered)
    && (forall i :: 0 <= i < |b.dead| ==>
          b.dead[i].original < |b.entries| && b.dead[i].data == b.entries[b.dead[i].original])
  }

  /** A row that is no longer being sent has a reason. */
  ghost predicate RowsSound(codec: Codec, rows: map<string, Notification>, keys: set<string>, dead: seq<DeadEntry>) {
    forall k :: k in rows ==>
      && (rows[k].status.Sent? ==> k in keys)
      && (rows[k].status.Dead? ==> DeadHoldsKey(codec, dead, k))
  }

  /** The request is the one the entry asks for. */
  ghost predicate CallFits(codec: Codec, entries: seq<Data>, c: Call) {
    && c.entry < |entries| && ReadData(codec, entries[c.entry]).Readable?
    && var ev := ReadData(codec, entries[c.entry]).event;
       c.key == ev.eventId && c.message.recipient == ev.clientId && Render(codec, ev) == Some(c.message.text)
  }

  ghost predicate CallsSound(codec: Codec, entries: seq<Data>, calls: seq<Call>) {
    forall i :: 0 <= i < |calls| ==> CallFits(codec, entries, calls[i])
  }

  ghost predicate Asked(calls: seq<Call>, key: string, message: Message) {
    exists j :: 0 <= j < |calls| && calls[j].key == key && calls[j].message == message
  }

  ghost predicate EachAsked(sent: seq<(string, Message)>, calls: seq<Call>) {
    forall i :: 0 <= i < |sent| ==> Asked(calls, sent[i].0, sent[i].1)
  }

  ghost predicate Keyed(sent: seq<(string, Message)>, key: string) {
    exists i :: 0 <= i < |sent| && sent[i].0 == key
  }

  ghost predicate OnePerKey(sent: seq<(string, Message)>) {
    forall i, j :: 0 <= i < |sent| && 0 <= j < |sent| && sent[i].0 == sent[j].0 ==> i == j
  }

  /** The gateway holds one message for each key it remembers, and each was asked for. */
  ghost predicate GateSound(g: Gate) {
    EachAsked(g.sent, g.calls) && OnePerKey(g.sent) && forall k :: k in g.keys <==> Keyed(g.sent, k)
  }

  ghost predicate WorldSound(codec: Codec, w: World) {
    && BrokerSound(w.broker) && NothingLost(codec, w.broker, w.gate.keys)
    && RowsSound(codec, w.rows, w.gate.keys, w.broker.dead)
    && CallsSound(codec, w.broker.entries, w.gate.calls) && GateSound(w.gate)
  }

  ghost predicate JobsHandedOut(b: Broker, jobs: seq<Job>) {
    forall i :: 0 <= i < |jobs| ==> jobs[i].entry < b.delivered
  }

  /** What a consumer's memory may rely on. */
  ghost predicate PointSound(codec: Codec, w: World, e: nat, at: Point)
    requires e < |w.broker.entries|
  {
    var reading := ReadData(codec, w.broker.entries[e]);
    match at
    case Start => true
    case DeadAdded(key) => reading.Readable? && reading.event.eventId == key && DeadHolds(w.broker.dead, e)
    case Conflict(text) => reading.Readable? && Render(codec, reading.event) == Some(text) && Addressable(codec, reading.event)
    case Sendable(text) => reading.Readable? && Render(codec, reading.event) == Some(text) && Addressable(codec, reading.event)
    case Answered(_) => reading.Readable? && reading.event.eventId in w.gate.keys && Addressable(codec, reading.event)
    case Unsent => reading.Readable?
    case Ackable => Accounted(codec, w.broker, w.gate.keys, e)
  }

  ghost predicate WorkerSound(codec: Codec, w: World, worker: Worker)
    requires WellFormed(w.broker)
  {
    match worker
    case Idle => true
    case Seen(counts) => forall e :: e in counts ==> e < w.broker.delivered
    case Reading(jobs) => JobsHandedOut(w.broker, jobs)
    case Handling(jobs, at) =>
      jobs != [] && JobsHandedOut(w.broker, jobs) && PointSound(codec, w, jobs[0].entry, at)
  }

  ghost predicate Inv(codec: Codec, s: State) {
    && WorldSound(codec, s.w)
    && forall id :: id in s.workers ==> WorkerSound(codec, s.w, s.workers[id])
  }

  // ---- memory stays good while others act

  /** Nothing another consumer may rely on is ever taken back. */
  ghost predicate Grows(w: World, w': World) {
    && w.broker.entries <= w'.broker.entries && w.broker.delivered <= w'.broker.delivered
    && w.broker.dead <= w'.broker.dead && w.gate.keys <= w'.gate.keys
  }

  lemma AccountedGrows(codec: Codec, w: World, w': World, e: nat)
    requires Grows(w, w') && Accounted(codec, w.broker, w.gate.keys, e)
    ensures Accounted(codec, w'.broker, w'.gate.keys, e)
  {
    if i :| 0 <= i < |w.broker.dead| && w.broker.dead[i].original == e {
      assert w'.broker.dead[i].original == e;
    }
    var reading := ReadData(codec, w.broker.entries[e]);
    if reading.Readable? && DeadHoldsKey(codec, w.broker.dead, reading.event.eventId) {
      DeadKeyGrows(codec, w.broker.dead, w'.broker.dead, reading.event.eventId);
    }
  }

  lemma DeadKeyGrows(codec: Codec, dead: seq<DeadEntry>, dead': seq<DeadEntry>, key: string)
    requires dead <= dead' && DeadHoldsKey(codec, dead, key)
    ensures DeadHoldsKey(codec, dead', key)
  {
    var i :| 0 <= i < |dead|
      && ReadData(codec, dead[i].data).Readable? && ReadData(codec, dead[i].data).event.eventId == key;
    assert dead'[i] == dead[i];
  }

  lemma WorkerGrows(codec: Codec, w: World, w': World, worker: Worker)
    requires WellFormed(w.broker) && WellFormed(w'.broker) && Grows(w, w') && WorkerSound(codec, w, worker)
    ensures WorkerSound(codec, w', worker)
  {
    if worker.Handling? {
      var e := worker.jobs[0].entry;
      assert w'.broker.entries[e] == w.broker.entries[e];
      if worker.at.Ackable? {
        AccountedGrows(codec, w, w', e);
      }
      if worker.at.DeadAdded? {
        var i :| 0 <= i < |w.broker.dead| && w.broker.dead[i].original == e;
        assert w'.broker.dead[i].original == e;
      }
    }
  }

  lemma RowsGrow(codec: Codec, rows: map<string, Notification>, w: World, w': World)
    requires Grows(w, w') && RowsSound(codec, rows, w.gate.keys, w.broker.dead)
    ensures RowsSound(codec, rows, w'.gate.keys, w'.broker.dead)
  {
    forall k | k in rows && rows[k].status.Dead? ensures DeadHoldsKey(codec, w'.broker.dead, k) {
      DeadKeyGrows(codec, w.broker.dead, w'.broker.dead, k);
    }
  }

  // ---- what each effect keeps

  lemma PublishKeeps(codec: Codec, w: World, data: Data)
    requires WorldSound(codec, w)
    ensures var w' := w.(broker := w.broker.(entries := w.broker.entries + [data]));
      WorldSound(codec, w') && Grows(w, w')
  {
    var w' := w.(broker := w.broker.(entries := w.broker.entries + [data]));
    forall e | e in w.broker.acked ensures Accounted(codec, w'.broker, w'.gate.keys, e) {
      AccountedGrows(codec, w, w', e);
    }
    assert forall i :: 0 <= i < |w.gate.calls| ==> CallFits(codec, w.broker.entries, w.gate.calls[i]);
  }

  lemma ClaimKeeps(codec: Codec, w: World, claimed: set<nat>)
    requires WorldSound(codec, w)
    ensures var w' := w.(broker := Claim(w.broker, claimed)); WorldSound(codec, w') && Grows(w, w')
  {
    SameEvidence(codec, w, w.(broker := Claim(w.broker, claimed)));
  }

  /** Evidence is about entries, the dead stream and the gateway only. */
  lemma SameEvidence(codec: Codec, w: World, w': World)
    requires w'.broker.entries == w.broker.entries && w'.broker.dead == w.broker.dead && w'.gate.keys == w.gate.keys
    ensures forall e :: Accounted(codec, w'.broker, w'.gate.keys, e) <==> Accounted(codec, w.broker, w.gate.keys, e)
  {
  }

  lemma FetchKeeps(codec: Codec, w: World, n: nat)
    requires WorldSound(codec, w) && w.broker.delivered + n <= |w.broker.entries|
    ensures var w' := w.(broker := ReadFresh(w.broker, n)); WorldSound(codec, w') && Grows(w, w')
  {
    SameEvidence(codec, w, w.(broker := ReadFresh(w.broker, n)));
  }

  lemma AckKeeps(codec: Codec, w: World, e: nat)
    requires WorldSound(codec, w) && e < w.broker.delivered && Accounted(codec, w.broker, w.gate.keys, e)
    ensures var w' := w.(broker := Ack(w.broker, e)); WorldSound(codec, w') && Grows(w, w')
  {
    SameEvidence(codec, w, w.(broker := Ack(w.broker, e)));
  }

  lemma AddDeadKeeps(codec: Codec, w: World, e: nat)
    requires WorldSound(codec, w) && e < |w.broker.entries|
    ensures var w' := w.(broker := AddDead(w.broker, e));
      && WorldSound(codec, w') && Grows(w, w') && DeadHolds(w'.broker.dead, e)
      && var reading := ReadData(codec, w.broker.entries[e]);
         reading.Readable? ==> DeadHoldsKey(codec, w'.broker.dead, reading.event.eventId)
  {
    var w' := w.(broker := AddDead(w.broker, e));
    var n := |w.broker.dead|;
    assert w'.broker.dead[n].original == e && w'.broker.dead[n].data == w.broker.entries[e];
    RowsGrow(codec, w.rows, w, w');
    forall x | x in w.broker.acked ensures Accounted(codec, w'.broker, w'.gate.keys, x) {
      AccountedGrows(codec, w, w', x);
    }
  }

  lemma MarkDeadKeeps(codec: Codec, w: World, key: string)
    requires WorldSound(codec, w) && DeadHoldsKey(codec, w.broker.dead, key)
    ensures var w' := w.(rows := MarkDead(w.rows, key)); WorldSound(codec, w') && Grows(w, w')
  {
  }

  lemma MarkSentKeeps(codec: Codec, w: World, key: string, id: string)
    requires WorldSound(codec, w) && key in w.gate.keys
    ensures var w' := w.(rows := MarkSent(w.rows, key, id)); WorldSound(codec, w') && Grows(w, w')
  {
  }

  lemma SendKeeps(codec: Codec, w: World, call: Call, answer: Answer)
    requires WorldSound(codec, w) && CallFits(codec, w.broker.entries, call)
    ensures var w' := w.(gate := Send(w.gate, call, answer));
      WorldSound(codec, w') && Grows(w, w') && (!answer.Refused? ==> call.key in w'.gate.keys)
  {
    var w' := w.(gate := Send(w.gate, call, answer));
    GateKeeps(w.gate, call, answer);
    RowsGrow(codec, w.rows, w, w');
    forall x | x in w.broker.acked ensures Accounted(codec, w'.broker, w'.gate.keys, x) {
      AccountedGrows(codec, w, w', x);
    }
  }

  lemma GateKeeps(g: Gate, call: Call, answer: Answer)
    requires GateSound(g)
    ensures GateSound(Send(g, call, answer))
  {
    var g' := Send(g, call, answer);
    CallsAppend(g, call);
    assert EachAsked(g'.sent, g'.calls);
    forall k ensures k in g'.keys <==> Keyed(g'.sent, k) {
      KeyedAppend(g.sent, call.key, call.message, k);
    }
    if call.key !in g.keys {
      assert !Keyed(g.sent, call.key);
    }
  }

  lemma CallsAppend(g: Gate, call: Call)
    requires EachAsked(g.sent, g.calls)
    ensures EachAsked(g.sent, g.calls + [call]) && Asked(g.calls + [call], call.key, call.message)
  {
    var calls := g.calls + [call];
    forall i | 0 <= i < |g.sent| ensures Asked(calls, g.sent[i].0, g.sent[i].1) {
      var j :| 0 <= j < |g.calls| && g.calls[j].key == g.sent[i].0 && g.calls[j].message == g.sent[i].1;
      assert calls[j] == g.calls[j];
    }
    assert calls[|g.calls|] == call;
  }

  lemma KeyedAppend(sent: seq<(string, Message)>, key: string, message: Message, k: string)
    ensures Keyed(sent + [(key, message)], k) <==> Keyed(sent, k) || k == key
  {
    var after := sent + [(key, message)];
    assert after[|sent|].0 == key;
    if i :| 0 <= i < |sent| && sent[i].0 == k {
      assert after[i].0 == k;
    }
  }

  // ---- one effect of one consumer

  lemma ActKeeps(codec: Codec, max: nat, w: World, jobs: seq<Job>, at: Point, answer: Answer)
    requires WorldSound(codec, w) && WorkerSound(codec, w, Handling(jobs, at))
    ensures var (w', worker') := Act1(codec, max, w, jobs, at, answer);
      WorldSound(codec, w') && Grows(w, w') && WorkerSound(codec, w', worker')
  {
    var e := jobs[0].entry;
    var (w', worker') := Act1(codec, max, w, jobs, at, answer);
    match ReadData(codec, w.broker.entries[e]) {
      case Raises =>
      case Unreadable =>
        if at.Start? {
          AddDeadKeeps(codec, w, e);
        } else {
          AckKeeps(codec, w, e);
        }
      case Readable(ev) => ActOnKeeps(codec, max, w, jobs, at, ev, answer);
    }
  }

  lemma ActOnKeeps(codec: Codec, max: nat, w: World, jobs: seq<Job>, at: Point, ev: BookingEvent, answer: Answer)
    requires WorldSound(codec, w) && WorkerSound(codec, w, Handling(jobs, at))
    requires ReadData(codec, w.broker.entries[jobs[0].entry]) == Readable(ev)
    ensures var (w', worker') := ActOn(codec, max, w, jobs, at, ev, answer);
      WorldSound(codec, w') && Grows(w, w') && WorkerSound(codec, w', worker')
  {
    var e := jobs[0].entry;
    match at {
      case Start =>
        if jobs[0].deliveries > max {
          AddDeadKeeps(codec, w, e);
        }
      case DeadAdded(key) =>
        DeadKeyOf(codec, w, e, key);
        MarkDeadKeeps(codec, w, key);
      case Conflict(text) => DoneIsAccounted(codec, w, e, ev);
      case Sendable(text) => SendKeeps(codec, w, Call(e, ev.eventId, Message(ev.clientId, text)), answer);
      case Answered(id) => MarkSentKeeps(codec, w, ev.eventId, id);
      case Unsent =>
      case Ackable => AckKeeps(codec, w, e);
    }
  }

  lemma DeadKeyOf(codec: Codec, w: World, e: nat, key: string)
    requires BrokerSound(w.broker) && e < |w.broker.entries| && DeadHolds(w.broker.dead, e)
    requires ReadData(codec, w.broker.entries[e]).Readable?
    requires ReadData(codec, w.broker.entries[e]).event.eventId == key
    ensures DeadHoldsKey(codec, w.broker.dead, key)
  {
    var i :| 0 <= i < |w.broker.dead| && w.broker.dead[i].original == e;
    assert w.broker.dead[i].data == w.broker.entries[e];
  }

  /** A row that is no longer being sent is a reason to acknowledge the entry. */
  lemma DoneIsAccounted(codec: Codec, w: World, e: nat, ev: BookingEvent)
    requires RowsSound(codec, w.rows, w.gate.keys, w.broker.dead) && e < |w.broker.entries|
    requires ReadData(codec, w.broker.entries[e]) == Readable(ev)
    ensures AlreadyDone(w.rows, ev.eventId) && Addressable(codec, ev) ==> Accounted(codec, w.broker, w.gate.keys, e)
  {
  }

  // ---- every step, every run

  lemma StepKeeps(codec: Codec, max: nat, s: State, step: Step)
    requires Inv(codec, s) && Enabled(s, step)
    ensures Inv(codec, Next(codec, max, s, step))
    ensures Grows(s.w, Next(codec, max, s, step).w)
  {
    var s' := Next(codec, max, s, step);
    match step {
      case Publish(data) => PublishKeeps(codec, s.w, data);
      case Look(id, counts) =>
      case Take(id, order) => ClaimKeeps(codec, s.w, set e | e in order);
      case Fetch(id, n) => FetchKeeps(codec, s.w, n);
      case Act(id, answer) =>
        ActKeeps(codec, max, s.w, WorkerOf(s, id).jobs, WorkerOf(s, id).at, answer);
      case Crash(id) =>
    }
    assert WorldSound(codec, s'.w) && Grows(s.w, s'.w);
    MoverSound(codec, max, s, step);
    forall id | id in s'.workers ensures WorkerSound(codec, s'.w, s'.workers[id]) {
      if id in s.workers && s'.workers[id] == s.workers[id] {
        WorkerGrows(codec, s.w, s'.w, s.workers[id]);
      }
    }
  }

  /** The consumer that moves may rely on its new memory. */
  lemma MoverSound(codec: Codec, max: nat, s: State, step: Step)
    requires Inv(codec, s) && Enabled(s, step)
    requires WellFormed(Next(codec, max, s, step).w.broker)
    ensures !step.Publish? ==> var s' := Next(codec, max, s, step);
      step.id in s'.workers && WorkerSound(codec, s'.w, s'.workers[step.id])
      && forall id :: id in s'.workers && id != step.id ==> id in s.workers && s'.workers[id] == s.workers[id]
    ensures step.Publish? ==> Next(codec, max, s, step).workers == s.workers
  {
    match step {
      case Publish(data) =>
      case Look(id, counts) =>
      case Take(id, order) =>
      case Fetch(id, n) =>
      case Act(id, answer) =>
        ActKeeps(codec, max, s.w, WorkerOf(s, id).jobs, WorkerOf(s, id).at, answer);
      case Crash(id) =>
    }
  }

  lemma {:induction false} EveryRunKeeps(codec: Codec, max: nat, states: seq<State>, steps: seq<Step>, i: nat)
    requires Run(codec, max, states, steps) && i < |states|
    ensures Inv(codec, states[i])
  {
    if i > 0 {
      EveryRunKeeps(codec, max, states, steps, i - 1);
      StepKeeps(codec, max, states[i - 1], steps[i - 1]);
    }
  }

  // ---- the guarantees

  /** An acknowledged entry is of an unknown type, or its message was accepted by the gateway,
      or the dead stream holds it; an entry that was handed out is acknowledged or still pending. */
  lemma NoSilentLoss(codec: Codec, max: nat, states: seq<State>, steps: seq<Step>, i: nat, e: nat)
    requires Run(codec, max, states, steps) && i < |states|
    ensures var w := states[i].w;
      && (e in w.broker.acked ==> Accounted(codec, w.broker, w.gate.keys, e))
      && (e < w.broker.delivered ==> e in w.broker.pending || e in w.broker.acked)
  {
    EveryRunKeeps(codec, max, states, steps, i);
  }

  /** Every message the gateway holds is the one some entry asks for, under the id of that
      entry's event, and no two are held under one key. */
  lemma MessagesComeFromEntries(codec: Codec, w: World, i: nat) returns (e: nat)
    requires CallsSound(codec, w.broker.entries, w.gate.calls) && GateSound(w.gate) && i < |w.gate.sent|
    ensures CallFits(codec, w.broker.entries, Call(e, w.gate.sent[i].0, w.gate.sent[i].1))
    ensures forall j :: 0 <= j < |w.gate.sent| && w.gate.sent[j].0 == w.gate.sent[i].0 ==> j == i
  {
    e := MessageComesFromEntry(codec, w, i);
  }

  lemma MessageComesFromEntry(codec: Codec, w: World, i: nat) returns (e: nat)
    requires CallsSound(codec, w.broker.entries, w.gate.calls) && EachAsked(w.gate.sent, w.gate.calls) && i < |w.gate.sent|
    ensures CallFits(codec, w.broker.entries, Call(e, w.gate.sent[i].0, w.gate.sent[i].1))
  {
    assert Asked(w.gate.calls, w.gate.sent[i].0, w.gate.sent[i].1);
    var j :| 0 <= j < |w.gate.calls|
      && w.gate.calls[j].key == w.gate.sent[i].0 && w.gate.calls[j].message == w.gate.sent[i].1;
    e := w.gate.calls[j].entry;
    assert CallFits(codec, w.broker.entries, w.gate.calls[j]);
  }

  /** A notification that left `Sending` never returns to it, and no row disappears. */
  lemma NeverBackToSending(codec: Codec, max: nat, s: State, step: Step, k: string)
    requires Enabled(s, step) && k in s.w.rows
    ensures var rows' := Next(codec, max, s, step).w.rows;
      k in rows' && rows'[k].event == s.w.rows[k].event && rows'[k].text == s.w.rows[k].text
      && (!s.w.rows[k].status.Sending? ==> !rows'[k].status.Sending?)
  {
  }
}
