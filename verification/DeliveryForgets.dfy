/** From a booking to the client's message, with a gateway that may forget any key at any time: every
    message still tells of a change, and each change is told once for each time its key was
    forgotten, and once more while it is known. */
module DeliveryForgets {
  import opened Common
  import opened BookingService
  import opened BookingEvents
  import opened NotifierDomain
  import opened Notifier
  import opened Delivery
  import Forgets = NotifierForgets
  import History = BookingHistory
  import Runs = NotifierRuns

  type Step = Forgets.Step<Delivery.Step>

  ghost predicate Enabled(s: State, step: Step) {
    step.Take? ==> Delivery.Enabled(s, step.inner)
  }

  ghost function Next(codec: Codec, max: nat, s: State, step: Step): State
    requires Enabled(s, step)
  {
    match step
    case Take(inner) => Delivery.Next(codec, max, s, inner)
    case Forget(key) => s.(net := s.net.(w := s.net.w.(gate := Forgets.Forgetting(s.net.w.gate, key))))
  }

  ghost predicate Run(codec: Codec, max: nat, states: seq<State>, steps: seq<Step>) {
    && |states| == |steps| + 1 && states[0] == START
    && forall i :: 0 <= i < |steps| ==> Enabled(states[i], steps[i]) && states[i + 1] == Next(codec, max, states[i], steps[i])
  }

  // ---- what forgetting leaves alone

  /** A consumer about to ask the gateway holds the text of its entry. */
  ghost predicate TextSound(codec: Codec, entries: seq<Data>, worker: Runs.Worker) {
    worker.Handling? && (worker.at.Conflict? || worker.at.Sendable?) ==>
      && worker.jobs != [] && worker.jobs[0].entry < |entries|
      && var reading := ReadData(codec, entries[worker.jobs[0].entry]);
         reading.Readable? && Render(codec, reading.event) == Some(worker.at.text)
  }

  ghost predicate RequestsSound(codec: Codec, s: Runs.State) {
    && Runs.CallsSound(codec, s.w.broker.entries, s.w.gate.calls) && Runs.EachAsked(s.w.gate.sent, s.w.gate.calls)
    && forall id :: id in s.workers ==> TextSound(codec, s.w.broker.entries, s.workers[id])
  }

  ghost predicate Inv(codec: Codec, s: State) {
    OutboxInv(codec, s) && RequestsSound(codec, s.net)
  }

  lemma ActKeepsText(codec: Codec, max: nat, w: World, jobs: seq<Job>, at: Runs.Point, answer: Answer)
    requires jobs != [] && jobs[0].entry < |w.broker.entries| && TextSound(codec, w.broker.entries, Runs.Handling(jobs, at))
    ensures var (w', worker') := Runs.Act1(codec, max, w, jobs, at, answer);
      w'.broker.entries == w.broker.entries && TextSound(codec, w.broker.entries, worker')
  {
  }

  lemma ActKeepsRequests(codec: Codec, max: nat, w: World, jobs: seq<Job>, at: Runs.Point, answer: Answer)
    requires Runs.CallsSound(codec, w.broker.entries, w.gate.calls) && Runs.EachAsked(w.gate.sent, w.gate.calls)
    requires jobs != [] && jobs[0].entry < |w.broker.entries| && TextSound(codec, w.broker.entries, Runs.Handling(jobs, at))
    ensures var gate := Runs.Act1(codec, max, w, jobs, at, answer).0.gate;
      Runs.CallsSound(codec, w.broker.entries, gate.calls) && Runs.EachAsked(gate.sent, gate.calls)
  {
    var reading := ReadData(codec, w.broker.entries[jobs[0].entry]);
    if reading.Readable? && at.Sendable? {
      var call := Call(jobs[0].entry, reading.event.eventId, Message(reading.event.clientId, at.text));
      Runs.CallsAppend(w.gate, call);
      assert Runs.CallFits(codec, w.broker.entries, call);
    }
  }

  lemma NetKeeps(codec: Codec, max: nat, s: Runs.State, step: Runs.Step)
    requires RequestsSound(codec, s) && Runs.Enabled(s, step)
    ensures RequestsSound(codec, Runs.Next(codec, max, s, step))
  {
    var s' := Runs.Next(codec, max, s, step);
    match step {
      case Publish(data) =>
        assert forall i :: 0 <= i < |s.w.gate.calls| ==> Runs.CallFits(codec, s.w.broker.entries, s.w.gate.calls[i]);
        forall id | id in s'.workers ensures TextSound(codec, s'.w.broker.entries, s'.workers[id]) {
          assert TextSound(codec, s.w.broker.entries, s.workers[id]);
        }
      case Act(id, answer) =>
        ActKeepsText(codec, max, s.w, Runs.WorkerOf(s, id).jobs, Runs.WorkerOf(s, id).at, answer);
        ActKeepsRequests(codec, max, s.w, Runs.WorkerOf(s, id).jobs, Runs.WorkerOf(s, id).at, answer);
      case _ =>
    }
  }

  lemma StepKeeps(codec: Codec, max: nat, s: State, step: Step)
    requires Inv(codec, s) && Enabled(s, step)
    ensures Inv(codec, Next(codec, max, s, step))
  {
    if step.Take? {
      StepKeepsOutbox(codec, max, s, step.inner);
      var felt := WhatIsFelt(codec, max, s, step.inner);
      if felt.Some? {
        NetKeeps(codec, max, s.net, felt.value);
      }
    }
  }

  lemma {:induction false} EveryRunKeeps(codec: Codec, max: nat, states: seq<State>, steps: seq<Step>, i: nat)
    requires Run(codec, max, states, steps) && i < |states|
    ensures Inv(codec, states[i])
  {
    if i > 0 {
      EveryRunKeeps(codec, max, states, steps, i - 1);
      StepKeeps(codec, max, states[i - 1], steps[i - 1]);
    }
  }

  // ---- what is told

  /** Whatever the gateway forgot, every message it holds tells of one change. */
  lemma EveryMessageTellsAChange(codec: Codec, max: nat, states: seq<State>, steps: seq<Step>, i: nat, m: nat)
    returns (j: nat)
    requires Faithful(codec) && Run(codec, max, states, steps) && i < |states|
    requires m < |states[i].net.w.gate.sent|
    ensures Tells(codec, states[i].booking.db, j, states[i].net.w.gate.sent[m])
  {
    EveryRunKeeps(codec, max, states, steps, i);
    j := MessageTells(codec, states[i], m);
  }

  ghost predicate SameChange(db: Db, k: nat, j: nat) {
    && k < |db.outbox| && j < |db.outbox|
    && db.outbox[k].event.booking == db.outbox[j].event.booking && db.outbox[k].event.status == db.outbox[j].event.status
  }

  /** The message tells of the same change of the same booking as the row `j` does. */
  ghost predicate TellsThisChange(codec: Codec, db: Db, j: nat, message: (string, Message))
    requires j < |db.outbox|
  {
    exists k: nat :: Tells(codec, db, k, message) && SameChange(db, k, j)
  }

  /** Of each change as many messages are held as its key was forgotten, and one more while it is known. */
  lemma EachChangeIsToldPerMemory(codec: Codec, max: nat, states: seq<State>, steps: seq<Step>, i: nat, j: nat)
    requires Faithful(codec) && Run(codec, max, states, steps) && i < |states| && j < |Outbox(states[i])|
    ensures var gate, db := states[i].net.w.gate, states[i].booking.db; var key := codec.showId(db.outbox[j].event.id);
      && Forgets.Held(gate.sent, key) == Forgets.Forgotten(Gates(states), steps, key, i) + (if key in gate.keys then 1 else 0)
      && forall m :: 0 <= m < |gate.sent| ==> (TellsThisChange(codec, db, j, gate.sent[m]) <==> gate.sent[m].0 == key)
  {
    var gate, db := states[i].net.w.gate, states[i].booking.db;
    var key := codec.showId(db.outbox[j].event.id);
    GatesRemember(codec, max, states, steps, key);
    Forgets.HeldPerMemory(Gates(states), steps, key, i);
    EveryRunKeeps(codec, max, states, steps, i);
    forall m | 0 <= m < |gate.sent| ensures TellsThisChange(codec, db, j, gate.sent[m]) <==> gate.sent[m].0 == key {
      KeyTellsTheChange(codec, states[i], j, m);
    }
  }

  lemma KeyTellsTheChange(codec: Codec, s: State, j: nat, m: nat)
    requires Faithful(codec) && Inv(codec, s) && j < |Outbox(s)| && m < |s.net.w.gate.sent|
    ensures TellsThisChange(codec, s.booking.db, j, s.net.w.gate.sent[m])
            <==> s.net.w.gate.sent[m].0 == codec.showId(Outbox(s)[j].event.id)
  {
    var db, message := s.booking.db, s.net.w.gate.sent[m];
    if k: nat :| Tells(codec, db, k, message) && SameChange(db, k, j) {
      History.OneRowPerTransition(db, k, j);
    }
    if message.0 == codec.showId(db.outbox[j].event.id) {
      var k := MessageTells(codec, s, m);
      SameId(db, k, j);
    }
  }

  lemma SameId(db: Db, k: nat, j: nat)
    requires History.UniqueIds(db.outbox) && k < |db.outbox| && j < |db.outbox|
    requires db.outbox[k].event.id == db.outbox[j].event.id
    ensures SameChange(db, k, j)
  {
  }

  function Gates(states: seq<State>): seq<Gate> {
    seq(|states|, i requires 0 <= i < |states| => states[i].net.w.gate)
  }

  lemma GatesRemember(codec: Codec, max: nat, states: seq<State>, steps: seq<Step>, key: string)
    requires Run(codec, max, states, steps)
    ensures Forgets.Remembering(Gates(states), steps, key)
  {
    forall k | 0 <= k < |steps|
      ensures var g, g' := Gates(states)[k], Gates(states)[k + 1];
        if steps[k].Forget? then g' == Forgets.Forgetting(g, steps[k].key) else Forgets.Balanced(g, g', key)
    {
      if steps[k].Take? {
        var felt := WhatIsFelt(codec, max, states[k], steps[k].inner);
        if felt.Some? {
          Forgets.StepCounts(codec, max, states[k].net, felt.value, key);
        }
      }
    }
  }
}
