/** From a booking to the client's message: the booking service, any number of relays and
    any number of consumers, each of which may stop between any two effects. A database
    transaction that does not commit leaves nothing; what reached the stream or the gateway stays. */
module Delivery {
  import opened Common
  import opened BookingDomain
  import opened BookingService
  import opened BookingEvents
  import opened NotifierDomain
  import History = BookingHistory
  import Relay = OutboxRelay
  import Batches
  import Notifier
  import Runs = NotifierRuns

  // ---- the machine

  /** A relay between its SELECT and its commit, or between its rollback and the recorded failure. */
  datatype Pass = Passing(batch: seq<nat>, at: nat) | Failing(id: nat)

  datatype State = State(booking: History.State, passes: map<nat, Pass>, net: Runs.State)

  datatype Step =
    | Serve(service: History.Step)
    | Begin(r: nat, limit: nat)
    | Hand(r: nat, answer: Relay.Answer)
    | Commit(r: nat, now: int)
    | NoteFailure(r: nat)
    | CrashRelay(r: nat)
    | Consume(consumer: Runs.Step)

  /** The rows a pass has locked. */
  function RowsOf(pass: Pass): seq<nat> {
    if pass.Passing? then pass.batch else []
  }

  function Outbox(s: State): seq<Row> {
    s.booking.db.outbox
  }

  function WithOutbox(s: History.State, rows: seq<Row>): History.State {
    s.(db := s.db.(outbox := rows))
  }

  ghost predicate Enabled(s: State, step: Step) {
    match step
    case Serve(inner) => History.Enabled(s.booking, inner)
    case Begin(r, _) => r !in s.passes
    case Hand(r, _) =>
      && r in s.passes && s.passes[r].Passing? && s.passes[r].at < |s.passes[r].batch|
      && Relay.HasRow(Outbox(s), s.passes[r].batch[s.passes[r].at])
    case Commit(r, _) => r in s.passes && s.passes[r].Passing? && s.passes[r].at == |s.passes[r].batch|
    case NoteFailure(r) => r in s.passes && s.passes[r].Failing?
    case CrashRelay(r) => r in s.passes
    case Consume(inner) => !inner.Publish? && Runs.Enabled(s.net, inner)
  }

  /** One publish call: the stream keeps what it took, the pass goes on only if it heard so. */
  function AfterHand(s: State, codec: Codec, r: nat, answer: Relay.Answer): State
    requires r in s.passes && s.passes[r].Passing? && s.passes[r].at < |s.passes[r].batch|
    requires Relay.HasRow(Outbox(s), s.passes[r].batch[s.passes[r].at])
  {
    var pass := s.passes[r];
    var data := Encode(codec, Relay.Payload(Outbox(s), pass.batch[pass.at]));
    var w := s.net.w;
    s.(net := if answer.Refused? then s.net
              else s.net.(w := w.(broker := w.broker.(entries := w.broker.entries + [data]))),
       passes := s.passes[r := if answer.Accepted? then pass.(at := pass.at + 1) else Failing(pass.batch[pass.at])])
  }

  ghost function Next(codec: Codec, max: nat, s: State, step: Step): State
    requires Enabled(s, step)
  {
    match step
    case Serve(inner) => s.(booking := History.Next(s.booking, inner))
    case Begin(r, limit) =>
      var batch := Batches.FirstN(Relay.Eligible(Outbox(s), Batches.Locked(s.passes, RowsOf)), limit);
      s.(passes := s.passes[r := Passing(batch, 0)])
    case Hand(r, answer) => AfterHand(s, codec, r, answer)
    case Commit(r, now) =>
      s.(booking := WithOutbox(s.booking, Relay.Mark(Outbox(s), Relay.Ids(s.passes[r].batch), now)),
         passes := s.passes - {r})
    case NoteFailure(r) =>
      s.(booking := WithOutbox(s.booking, Relay.CountFailure(Outbox(s), s.passes[r].id)), passes := s.passes - {r})
    case CrashRelay(r) => s.(passes := s.passes - {r})
    case Consume(inner) => s.(net := Runs.Next(codec, max, s.net, inner))
  }

  const START := State(History.START, map[], Runs.START)

  ghost predicate Run(codec: Codec, max: nat, states: seq<State>, steps: seq<Step>) {
    && |states| == |steps| + 1 && states[0] == START
    && forall i :: 0 <= i < |steps| ==>
         Enabled(states[i], steps[i]) && states[i + 1] == Next(codec, max, states[i], steps[i])
  }

  /** One step, as a relation. */
  ghost function Moves(codec: Codec, max: nat): (State, Step, State) -> bool {
    (s: State, step: Step, t: State) => Enabled(s, step) && t == Next(codec, max, s, step)
  }

  // ---- what holds in every reachable state

  ghost predicate FromRow(codec: Codec, rows: seq<Row>, data: Data) {
    exists j :: 0 <= j < |rows| && data == Encode(codec, rows[j].event)
  }

  /** The stream holds nothing but payloads of committed rows. */
  ghost predicate StreamFromRows(codec: Codec, rows: seq<Row>, entries: seq<Data>) {
    forall i :: 0 <= i < |entries| ==> FromRow(codec, rows, entries[i])
  }

  ghost predicate InStream(codec: Codec, entries: seq<Data>, e: Event) {
    exists i :: 0 <= i < |entries| && entries[i] == Encode(codec, e)
  }

  /** A row is marked only after its payload reached the stream. */
  ghost predicate MarkedInStream(codec: Codec, rows: seq<Row>, entries: seq<Data>) {
    forall j :: 0 <= j < |rows| && !Relay.Unpublished(rows[j]) ==> InStream(codec, entries, rows[j].event)
  }

  /** What a pass has counted as handed over is in the stream. */
  ghost predicate PassSound(codec: Codec, rows: seq<Row>, entries: seq<Data>, pass: Pass) {
    pass.Passing? ==>
      && pass.at <= |pass.batch|
      && forall j :: 0 <= j < |rows| && rows[j].event.id in pass.batch[..pass.at] ==> InStream(codec, entries, rows[j].event)
  }

  ghost predicate PassesSound(codec: Codec, rows: seq<Row>, entries: seq<Data>, passes: map<nat, Pass>) {
    forall r :: r in passes ==> PassSound(codec, rows, entries, passes[r])
  }

  /** The ids a pass holds exist, so nothing inserted later has one of them. */
  ghost predicate BatchesExist(rows: seq<Row>, passes: map<nat, Pass>) {
    forall r, x :: r in passes && passes[r].Passing? && x in passes[r].batch ==> Relay.HasRow(rows, x)
  }

  ghost predicate OutboxInv(codec: Codec, s: State) {
    && History.Inv(s.booking)
    && StreamFromRows(codec, Outbox(s), s.net.w.broker.entries)
    && MarkedInStream(codec, Outbox(s), s.net.w.broker.entries)
    && PassesSound(codec, Outbox(s), s.net.w.broker.entries, s.passes)
    && BatchesExist(Outbox(s), s.passes)
  }

  ghost predicate Inv(codec: Codec, s: State) {
    OutboxInv(codec, s) && Runs.Inv(codec, s.net)
  }

  // ---- how the outbox changes

  /** The same events in the same order, whatever happened to marks and counters. */
  ghost predicate SameEvents(rows: seq<Row>, rows': seq<Row>) {
    |rows'| == |rows| && forall i :: 0 <= i < |rows| ==> rows'[i].event == rows[i].event
  }

  /** Rows are only ever appended, unpublished, under ids not used before. */
  ghost predicate Appended(rows: seq<Row>, rows': seq<Row>) {
    && rows <= rows'
    && forall j :: |rows| <= j < |rows'| ==> Relay.Unpublished(rows'[j]) && Fresh(rows, rows'[j].event.id)
  }

  lemma {:induction false} SameTrail(rows: seq<Row>, rows': seq<Row>, b: nat)
    requires SameEvents(rows, rows')
    ensures History.Trail(rows', b) == History.Trail(rows, b)
  {
    if rows != [] {
      SameTrail(rows[..|rows| - 1], rows'[..|rows| - 1], b);
    }
  }

  lemma SameEventsKeepSound(s: History.State, rows': seq<Row>)
    requires History.Inv(s) && SameEvents(s.db.outbox, rows')
    ensures History.Inv(WithOutbox(s, rows'))
  {
    forall b | b in s.db.bookings
      ensures Walk(History.Trail(rows', b)) == Some(s.db.bookings[b].status)
    {
      SameTrail(s.db.outbox, rows', b);
    }
    var db' := WithOutbox(s, rows').db;
    forall i | 0 <= i < |rows'| ensures History.RowTruthful(db', rows'[i].event) {
      assert History.RowTruthful(s.db, s.db.outbox[i].event);
    }
  }

  lemma {:induction false} ExpiredAppended(db: Db, order: seq<nat>, ids: seq<nat>, now: int)
    requires |ids| == |order| && (forall b :: b in order ==> b in db.bookings)
    requires forall x :: x in ids ==> Fresh(db.outbox, x)
    ensures Appended(db.outbox, AddExpired(db, order, ids, now))
  {
    if order != [] {
      ExpiredAppended(db, order[..|order| - 1], ids[..|order| - 1], now);
    }
  }

  lemma ServeAppends(s: History.State, step: History.Step)
    requires History.Enabled(s, step)
    ensures Appended(s.db.outbox, History.Next(s, step).db.outbox)
  {
    match step {
      case DoCreate(_, _, _, _) =>
      case DoBook(slot, _, now, ttl, _, order, ids) =>
        ExpiredAppended(s.db, order, ids, now);
      case Ask(_, _, _) =>
      case Read(_) =>
      case Update(_, _, _) =>
      case Forget(_) =>
    }
  }

  // ---- what each step keeps

  lemma StreamGrows(codec: Codec, rows: seq<Row>, entries: seq<Data>, data: Data, passes: map<nat, Pass>)
    requires StreamFromRows(codec, rows, entries) && FromRow(codec, rows, data)
    requires MarkedInStream(codec, rows, entries) && PassesSound(codec, rows, entries, passes)
    ensures StreamFromRows(codec, rows, entries + [data])
    ensures MarkedInStream(codec, rows, entries + [data]) && PassesSound(codec, rows, entries + [data], passes)
    ensures forall e :: InStream(codec, entries, e) || data == Encode(codec, e) ==> InStream(codec, entries + [data], e)
  {
    forall e | InStream(codec, entries, e) || data == Encode(codec, e) ensures InStream(codec, entries + [data], e) {
      var i := if data == Encode(codec, e) then |entries| else
        var i :| 0 <= i < |entries| && entries[i] == Encode(codec, e); i;
      assert (entries + [data])[i] == Encode(codec, e);
    }
  }

  lemma SameEventsKeepStream(codec: Codec, rows: seq<Row>, rows': seq<Row>, entries: seq<Data>, passes: map<nat, Pass>)
    requires SameEvents(rows, rows')
    requires StreamFromRows(codec, rows, entries) && PassesSound(codec, rows, entries, passes) && BatchesExist(rows, passes)
    ensures StreamFromRows(codec, rows', entries) && PassesSound(codec, rows', entries, passes) && BatchesExist(rows', passes)
  {
    forall i | 0 <= i < |entries| ensures FromRow(codec, rows', entries[i]) {
      var j :| 0 <= j < |rows| && entries[i] == Encode(codec, rows[j].event);
      assert rows'[j].event == rows[j].event;
    }
    forall r, x | r in passes && passes[r].Passing? && x in passes[r].batch ensures Relay.HasRow(rows', x) {
      assert Relay.HasRow(rows, x);
      var j :| 0 <= j < |rows| && rows[j].event.id == x;
      assert rows'[j].event.id == x;
    }
  }

  lemma AppendKeepsStream(codec: Codec, rows: seq<Row>, rows': seq<Row>, entries: seq<Data>, passes: map<nat, Pass>)
    requires Appended(rows, rows')
    requires StreamFromRows(codec, rows, entries) && MarkedInStream(codec, rows, entries)
    requires PassesSound(codec, rows, entries, passes) && BatchesExist(rows, passes)
    ensures StreamFromRows(codec, rows', entries) && MarkedInStream(codec, rows', entries)
    ensures PassesSound(codec, rows', entries, passes) && BatchesExist(rows', passes)
  {
    forall i | 0 <= i < |entries| ensures FromRow(codec, rows', entries[i]) {
      var j :| 0 <= j < |rows| && entries[i] == Encode(codec, rows[j].event);
      assert rows'[j].event == rows[j].event;
    }
    forall r, x | r in passes && passes[r].Passing? && x in passes[r].batch ensures Relay.HasRow(rows', x) {
      assert Relay.HasRow(rows, x);
      var j :| 0 <= j < |rows| && rows[j].event.id == x;
      assert rows'[j].event.id == x;
    }
    forall r | r in passes ensures PassSound(codec, rows', entries, passes[r]) {
      var pass := passes[r];
      if pass.Passing? {
        forall j | 0 <= j < |rows'| && rows'[j].event.id in pass.batch[..pass.at]
          ensures InStream(codec, entries, rows'[j].event)
        {
          assert Relay.HasRow(rows, rows'[j].event.id);
          assert j < |rows| && rows'[j] == rows[j];
        }
      }
    }
  }

  lemma HandKeeps(codec: Codec, s: State, r: nat, answer: Relay.Answer)
    requires OutboxInv(codec, s) && Enabled(s, Hand(r, answer))
    ensures OutboxInv(codec, AfterHand(s, codec, r, answer))
  {
    var s' := AfterHand(s, codec, r, answer);
    var pass := s.passes[r];
    var id := pass.batch[pass.at];
    var e := Relay.Payload(Outbox(s), id);
    var data := Encode(codec, e);
    PayloadIsRow(Outbox(s), id);
    assert FromRow(codec, Outbox(s), data);
    var entries, entries' := s.net.w.broker.entries, s'.net.w.broker.entries;
    if !answer.Refused? {
      StreamGrows(codec, Outbox(s), entries, data, s.passes);
    }
    if answer.Accepted? {
      OneFurther(codec, Outbox(s), entries, entries', pass, e);
    }
    assert PassesSound(codec, Outbox(s'), entries', s'.passes);
    assert BatchesExist(Outbox(s'), s'.passes);
  }

  lemma OneFurther(codec: Codec, rows: seq<Row>, entries: seq<Data>, entries': seq<Data>, pass: Pass, e: Event)
    requires pass.Passing? && pass.at < |pass.batch| && PassSound(codec, rows, entries', pass)
    requires History.UniqueIds(rows) && e.id == pass.batch[pass.at] && InStream(codec, entries', e)
    requires exists j :: 0 <= j < |rows| && rows[j].event == e
    ensures PassSound(codec, rows, entries', pass.(at := pass.at + 1))
  {
    var k :| 0 <= k < |rows| && rows[k].event == e;
    assert pass.batch[..pass.at + 1] == pass.batch[..pass.at] + [e.id];
    forall j | 0 <= j < |rows| && rows[j].event.id in pass.batch[..pass.at + 1]
      ensures InStream(codec, entries', rows[j].event)
    {
      if rows[j].event.id == e.id {
        assert j == k;
      }
    }
  }

  lemma {:induction false} PayloadIsRow(rows: seq<Row>, id: nat)
    requires Relay.HasRow(rows, id)
    ensures exists j :: 0 <= j < |rows| && rows[j].event == Relay.Payload(rows, id)
  {
    if rows[|rows| - 1].event.id == id {
      assert rows[|rows| - 1].event == Relay.Payload(rows, id);
    } else {
      var front := rows[..|rows| - 1];
      var i :| 0 <= i < |rows| && rows[i].event.id == id;
      assert front[i].event.id == id;
      PayloadIsRow(front, id);
      var j :| 0 <= j < |front| && front[j].event == Relay.Payload(front, id);
      assert rows[j].event == Relay.Payload(rows, id);
    }
  }

  lemma CommitKeeps(codec: Codec, s: State, r: nat, now: int)
    requires OutboxInv(codec, s) && Enabled(s, Commit(r, now))
    ensures OutboxInv(codec, Next(codec, 0, s, Commit(r, now)))
  {
    var batch := s.passes[r].batch;
    var rows' := Relay.Mark(Outbox(s), Relay.Ids(batch), now);
    SameEventsKeepSound(s.booking, rows');
    SameEventsKeepStream(codec, Outbox(s), rows', s.net.w.broker.entries, s.passes);
    assert batch[..s.passes[r].at] == batch;
    assert PassSound(codec, Outbox(s), s.net.w.broker.entries, s.passes[r]);
  }

  lemma NoteFailureKeeps(codec: Codec, s: State, r: nat)
    requires OutboxInv(codec, s) && Enabled(s, NoteFailure(r))
    ensures OutboxInv(codec, Next(codec, 0, s, NoteFailure(r)))
  {
    var rows' := Relay.CountFailure(Outbox(s), s.passes[r].id);
    SameEventsKeepSound(s.booking, rows');
    SameEventsKeepStream(codec, Outbox(s), rows', s.net.w.broker.entries, s.passes);
  }

  lemma BeginKeeps(codec: Codec, s: State, r: nat, limit: nat)
    requires OutboxInv(codec, s) && Enabled(s, Begin(r, limit))
    ensures OutboxInv(codec, Next(codec, 0, s, Begin(r, limit)))
  {
    Relay.EligibleHeld(Outbox(s), Batches.Locked(s.passes, RowsOf), limit);
  }

  lemma ServeKeeps(codec: Codec, s: State, step: History.Step)
    requires OutboxInv(codec, s) && History.Enabled(s.booking, step)
    ensures OutboxInv(codec, Next(codec, 0, s, Serve(step)))
  {
    History.StepKeeps(s.booking, step);
    ServeAppends(s.booking, step);
    AppendKeepsStream(codec, Outbox(s), History.Next(s.booking, step).db.outbox, s.net.w.broker.entries, s.passes);
  }

  lemma ConsumeKeeps(codec: Codec, max: nat, s: State, step: Runs.Step)
    requires OutboxInv(codec, s) && Enabled(s, Consume(step))
    ensures OutboxInv(codec, Next(codec, max, s, Consume(step)))
  {
    ConsumersDoNotPublish(codec, max, s.net, step);
  }

  lemma ConsumersDoNotPublish(codec: Codec, max: nat, s: Runs.State, step: Runs.Step)
    requires Runs.Enabled(s, step) && !step.Publish?
    ensures Runs.Next(codec, max, s, step).w.broker.entries == s.w.broker.entries
  {
  }

  lemma StepKeepsOutbox(codec: Codec, max: nat, s: State, step: Step)
    requires OutboxInv(codec, s) && Enabled(s, step)
    ensures OutboxInv(codec, Next(codec, max, s, step))
  {
    match step {
      case Serve(inner) => ServeKeeps(codec, s, inner);
      case Begin(r, limit) => BeginKeeps(codec, s, r, limit);
      case Hand(r, answer) => HandKeeps(codec, s, r, answer);
      case Commit(r, now) => CommitKeeps(codec, s, r, now);
      case NoteFailure(r) => NoteFailureKeeps(codec, s, r);
      case CrashRelay(r) =>
      case Consume(inner) => ConsumeKeeps(codec, max, s, inner);
    }
  }

  /** Of all steps only two are felt by the notifier: a relay publishes, or a consumer acts. */
  ghost predicate Felt(codec: Codec, max: nat, s: State, s': State, felt: Option<Runs.Step>) {
    if felt.None? then s'.net == s.net
    else Runs.Enabled(s.net, felt.value) && s'.net == Runs.Next(codec, max, s.net, felt.value)
  }

  lemma WhatIsFelt(codec: Codec, max: nat, s: State, step: Step) returns (felt: Option<Runs.Step>)
    requires Enabled(s, step)
    ensures Felt(codec, max, s, Next(codec, max, s, step), felt)
  {
    match step {
      case Hand(r, answer) =>
        var data := Encode(codec, Relay.Payload(Outbox(s), s.passes[r].batch[s.passes[r].at]));
        felt := if answer.Refused? then None else Some(Runs.Publish(data));
      case Consume(inner) => felt := Some(inner);
      case _ => felt := None;
    }
  }

  lemma StepKeeps(codec: Codec, max: nat, s: State, step: Step)
    requires Inv(codec, s) && Enabled(s, step)
    ensures Inv(codec, Next(codec, max, s, step))
  {
    StepKeepsOutbox(codec, max, s, step);
    var felt := WhatIsFelt(codec, max, s, step);
    if felt.Some? {
      Runs.StepKeeps(codec, max, s.net, felt.value);
    }
  }

  lemma {:induction false} EveryRunKeeps(codec: Codec, max: nat, states: seq<State>, steps: seq<Step>, i: nat)
    requires Run(codec, max, states, steps) && i < |states|
    ensures Inv(codec, states[i])
  {
    if i > 0 {
      EveryRunKeeps(codec, max, states, steps, i - 1);
      StepKeeps(codec, max, states[i - 1], steps[i - 1]);
    }
  }

  // ---- the guarantees

  /** The message is the notice of a change this booking really made, to its client, under
      the id of the outbox row that recorded the change. */
  ghost predicate Tells(codec: Codec, db: Db, j: nat, message: (string, Notifier.Message)) {
    && j < |db.outbox|
    && var e := db.outbox[j].event;
      && message.0 == codec.showId(e.id)
      && message.1 == Notifier.Message(e.client, Notice(codec, e))
      && e.booking in db.bookings && db.bookings[e.booking].client == e.client
      && e.status in History.Trail(db.outbox, e.booking)
      && Walk(History.Trail(db.outbox, e.booking)) == Some(db.bookings[e.booking].status)
  }

  /** Whatever crashed and was repeated, every message NotifyGate holds tells of one change. */
  lemma EveryMessageTellsAChange(codec: Codec, max: nat, states: seq<State>, steps: seq<Step>, i: nat, m: nat)
    returns (j: nat)
    requires Faithful(codec) && Run(codec, max, states, steps) && i < |states|
    requires m < |states[i].net.w.gate.sent|
    ensures Tells(codec, states[i].booking.db, j, states[i].net.w.gate.sent[m])
  {
    EveryRunKeeps(codec, max, states, steps, i);
    j := MessageTells(codec, states[i], m);
  }

  lemma MessageTells(codec: Codec, s: State, m: nat) returns (j: nat)
    requires Faithful(codec) && OutboxInv(codec, s) && m < |s.net.w.gate.sent|
    requires Runs.CallsSound(codec, s.net.w.broker.entries, s.net.w.gate.calls)
    requires Runs.EachAsked(s.net.w.gate.sent, s.net.w.gate.calls)
    ensures Tells(codec, s.booking.db, j, s.net.w.gate.sent[m])
  {
    var entry := Runs.MessageComesFromEntry(codec, s.net.w, m);
    assert FromRow(codec, Outbox(s), s.net.w.broker.entries[entry]);
    j :| 0 <= j < |Outbox(s)| && s.net.w.broker.entries[entry] == Encode(codec, Outbox(s)[j].event);
    var e := Outbox(s)[j].event;
    ReadsWhatWasWritten(codec, e);
    RendersTheNotice(codec, e, codec.showId(e.id), codec.showId(e.booking));
    History.TrailHas(Outbox(s), j);
    assert History.RowTruthful(s.booking.db, e);
  }

  /** Each change of each booking is told at most once. */
  lemma EachChangeIsToldOnce(codec: Codec, max: nat, states: seq<State>, steps: seq<Step>, i: nat,
                             m1: nat, j1: nat, m2: nat, j2: nat)
    requires Faithful(codec) && Run(codec, max, states, steps) && i < |states|
    requires var sent := states[i].net.w.gate.sent; var db := states[i].booking.db;
      && m1 < |sent| && Tells(codec, db, j1, sent[m1]) && m2 < |sent| && Tells(codec, db, j2, sent[m2])
      && db.outbox[j1].event.booking == db.outbox[j2].event.booking
      && db.outbox[j1].event.status == db.outbox[j2].event.status
    ensures m1 == m2
  {
    EveryRunKeeps(codec, max, states, steps, i);
    History.OneRowPerTransition(states[i].booking.db, j1, j2);
  }

  /** Somewhere between the outbox and the client, or settled for a reason. */
  ghost predicate Underway(codec: Codec, w: Notifier.World, e: Event, i: nat) {
    && i < |w.broker.entries| && w.broker.entries[i] == Encode(codec, e)
    && (i >= w.broker.delivered || i in w.broker.pending
        || codec.showId(e.id) in w.gate.keys
        || Runs.DeadHolds(w.broker.dead, i) || Runs.DeadHoldsKey(codec, w.broker.dead, codec.showId(e.id)))
  }

  /** No committed change is lost: its row is unpublished, so that a relay will take it, or its
      payload is in the stream, and there it is still to be handled, or the gateway has the
      message, or the dead stream shows it. */
  lemma NoChangeIsLost(codec: Codec, max: nat, states: seq<State>, steps: seq<Step>, i: nat, j: nat)
    requires Faithful(codec) && Run(codec, max, states, steps) && i < |states|
    requires j < |Outbox(states[i])| && !Relay.Unpublished(Outbox(states[i])[j])
    ensures exists k :: Underway(codec, states[i].net.w, Outbox(states[i])[j].event, k)
  {
    EveryRunKeeps(codec, max, states, steps, i);
    var w, e := states[i].net.w, Outbox(states[i])[j].event;
    assert InStream(codec, w.broker.entries, e);
    var k :| 0 <= k < |w.broker.entries| && w.broker.entries[k] == Encode(codec, e);
    ReadsWhatWasWritten(codec, e);
    RendersTheNotice(codec, e, codec.showId(e.id), codec.showId(e.booking));
    if k in w.broker.acked {
      assert Runs.Accounted(codec, w.broker, w.gate.keys, k);
    }
    assert Underway(codec, w, e, k);
  }
}
