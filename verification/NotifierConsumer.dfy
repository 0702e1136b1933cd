/** The consumer as it runs: each method makes its effects one after another. */
module NotifierConsumer {
  import opened Common
  import opened NotifierDomain
  import opened Notifier
  import opened NotifierOutcomes

  class Consumer {
    const codec: Codec
    const maxDeliveries: nat
    const batch: nat
    var broker: Broker
    var rows: map<string, Notification>
    var gate: Gate

    function Stores(): World
      reads this
    {
      World(broker, rows, gate)
    }

    constructor (codec: Codec, maxDeliveries: nat, batch: nat, broker: Broker,
                 rows: map<string, Notification>, gate: Gate)
      ensures Stores() == World(broker, rows, gate)
      ensures this.codec == codec && this.maxDeliveries == maxDeliveries && this.batch == batch
    {
      this.codec, this.maxDeliveries, this.batch := codec, maxDeliveries, batch;
      this.broker, this.rows, this.gate := broker, rows, gate;
    }

    method Acknowledge(entry: nat)
      modifies this`broker
      ensures broker == Ack(old(broker), entry)
    {
      broker := broker.(pending := broker.pending - {entry});
      broker := broker.(acked := broker.acked + {entry});
    }

    /** Claims the event, or reports that it has already been dealt with. The row claims it: a repeat
        finds the row and looks at its status. No answer means that the database refused the row. */
    method ClaimOrDone(e: BookingEvent, text: string) returns (done: Option<bool>)
      modifies this`rows
      ensures rows == if InsertFits(codec, e, text) then InsertRow(old(rows), e, text) else old(rows)
      ensures done == if InsertFits(codec, e, text) then Some(AlreadyDone(rows, e.eventId)) else None
    {
      if !InsertFits(codec, e, text) {
        return None;
      }
      if e.eventId !in rows {
        rows := rows[e.eventId := Notification(e, text, Sending, 0, None)];
        return Some(false);
      }
      var existing := rows[e.eventId];
      done := Some(!existing.status.Sending?);
    }

    /** The request to the gateway; `answer` is what happens on the other side. */
    method CallGateway(entry: nat, key: string, message: Message, answer: Answer) returns (id: Option<string>)
      modifies this`gate
      ensures gate == Send(old(gate), Call(entry, key, message), answer)
      ensures id == if answer.Delivered? then Some(answer.id) else None
    {
      gate := gate.(calls := gate.calls + [Call(entry, key, message)]);
      if !answer.Refused? && key !in gate.keys {
        gate := gate.(sent := gate.sent + [(key, message)], keys := gate.keys + {key});
      }
      id := if answer.Delivered? then Some(answer.id) else None;
    }

    method RecordFailure(key: string)
      modifies this`rows
      ensures rows == CountFailure(old(rows), key)
    {
      if key in rows {
        rows := rows[key := rows[key].(attempts := rows[key].attempts + 1)];
      }
    }

    method RecordSent(key: string, id: string)
      modifies this`rows
      ensures rows == MarkSent(old(rows), key, id)
    {
      if key in rows {
        rows := rows[key := rows[key].(status := Sent, gatewayId := Some(id))];
      }
    }

    method GiveUp(entry: nat, key: Option<string>) returns (outcome: Outcome)
      requires entry < |broker.entries|
      modifies this`broker, this`rows
      ensures (World(broker, rows, gate), outcome) == DeadLetter(codec, old(Stores()), entry, key)
    {
      broker := broker.(dead := broker.dead + [DeadEntry(entry, broker.entries[entry])]);
      if key.Some? {
        if !codec.sendable(key.value) {
          return Raised;
        }
        if key.value in rows {
          rows := rows[key.value := rows[key.value].(status := Dead)];
        }
      }
      Acknowledge(entry);
      outcome := WentDead;
    }

    method HandleEntry(entry: nat, deliveries: nat, answer: Answer) returns (outcome: Outcome)
      requires entry < |broker.entries|
      modifies this
      ensures (Stores(), outcome) == Handle(codec, maxDeliveries, old(Stores()), entry, deliveries, answer)
      ensures Tells(codec, maxDeliveries, old(Stores()), Stores(), outcome, entry, deliveries, answer)
    {
      HandleTells(codec, maxDeliveries, Stores(), entry, deliveries, answer);
      var reading := ReadData(codec, broker.entries[entry]);
      if reading.Raises? {
        return Raised;
      }
      if reading.Unreadable? {
        outcome := GiveUp(entry, None);
        return;
      }
      var event := reading.event;
      if deliveries > maxDeliveries {
        outcome := GiveUp(entry, Some(event.eventId));
        return;
      }
      var text := Render(codec, event);
      if text.None? {
        Acknowledge(entry);
        return Ignored;
      }
      var done := ClaimOrDone(event, text.value);
      if done.None? {
        return Raised;
      }
      if done.value {
        Acknowledge(entry);
        return Duplicate;
      }
      var id := CallGateway(entry, event.eventId, Message(event.clientId, text.value), answer);
      if id.None? {
        RecordFailure(event.eventId);
        return Failed;
      }
      RecordSent(event.eventId, id.value);
      Acknowledge(entry);
      outcome := WasSent;
    }

    /** Entries another consumer took and never acknowledged. */
    method Reclaimed(idle: set<nat>) returns (jobs: seq<Job>)
      modifies this`broker
      ensures var order := Overdue(old(broker), idle, batch);
        broker == Notifier.Claim(old(broker), set e | e in order) && jobs == ReclaimedJobs(old(broker).pending, order)
    {
      var order := Overdue(broker, idle, batch);
      jobs := [];
      var counts := broker.pending;
      for i := 0 to |order|
        invariant broker == old(broker)
        invariant jobs == ReclaimedJobs(counts, order)[..i]
      {
        assert order[i] in order;
        jobs := jobs + [Job(order[i], counts[order[i]] + 1)];
      }
      broker := Notifier.Claim(broker, set e | e in order);
    }

    method Fresh() returns (jobs: seq<Job>)
      requires WellFormed(broker)
      modifies this`broker
      ensures var n := FreshCount(old(broker), batch);
        broker == ReadFresh(old(broker), n) && jobs == FreshJobs(old(broker), n)
    {
      var n := FreshCount(broker, batch);
      jobs := FreshJobs(broker, n);
      broker := ReadFresh(broker, n);
    }

    /** One cycle. `results` counts the outcomes; an unforeseen exception ends the cycle early. */
    method RunOnce(idle: set<nat>, answers: nat -> Answer) returns (results: multiset<Outcome>)
      requires WellFormed(broker)
      modifies this
      ensures var (w, outcomes) := Cycle(codec, maxDeliveries, batch, old(Stores()), idle, answers);
        Stores() == w && results == multiset(outcomes)
    {
      var reclaimed := Reclaimed(idle);
      var recent := Fresh();
      ghost var (b, jobs) := TakeWork(old(broker), idle, batch);
      assert reclaimed + recent == jobs && Stores() == old(Stores()).(broker := b);
      results := HandleJobs(reclaimed + recent, answers);
    }

    method HandleJobs(jobs: seq<Job>, answers: nat -> Answer) returns (results: multiset<Outcome>)
      requires JobsExist(broker.entries, jobs)
      modifies this
      ensures var (w, outcomes) := HandleAll(codec, maxDeliveries, old(Stores()), jobs, answers, 0);
        Stores() == w && results == multiset(outcomes)
    {
      ghost var all := HandleAll(codec, maxDeliveries, Stores(), jobs, answers, 0);
      results := multiset{};
      var i := 0;
      assert jobs[0..] == jobs;
      while i < |jobs|
        invariant 0 <= i <= |jobs|
        invariant JobsExist(broker.entries, jobs)
        invariant all.0 == Ahead(codec, maxDeliveries, Stores(), jobs, answers, i).0
        invariant multiset(all.1) == results + multiset(Ahead(codec, maxDeliveries, Stores(), jobs, answers, i).1)
      {
        OneMore(codec, maxDeliveries, Stores(), jobs, answers, i);
        var outcome := HandleEntry(jobs[i].entry, jobs[i].deliveries, answers(i));
        results := results + multiset{outcome};
        if outcome.Raised? {
          return;
        }
        i := i + 1;
      }
    }
  }

  /** What the jobs from `i` on come to. */
  ghost function Ahead(codec: Codec, max: nat, w: World, jobs: seq<Job>, answers: nat -> Answer, i: nat)
    : (World, seq<Outcome>)
    requires i <= |jobs| && JobsExist(w.broker.entries, jobs)
  {
    HandleAll(codec, max, w, jobs[i..], answers, i)
  }

  lemma OneMore(codec: Codec, max: nat, w: World, jobs: seq<Job>, answers: nat -> Answer, i: nat)
    requires i < |jobs| && JobsExist(w.broker.entries, jobs)
    ensures var (w', outcome) := Handle(codec, max, w, jobs[i].entry, jobs[i].deliveries, answers(i));
      var (w2, outcomes) := Ahead(codec, max, w, jobs, answers, i);
      if outcome.Raised? then w2 == w' && multiset(outcomes) == multiset{outcome}
      else
        var (w3, rest) := Ahead(codec, max, w', jobs, answers, i + 1);
        w2 == w3 && multiset(outcomes) == multiset{outcome} + multiset(rest)
  {
    assert jobs[i..][1..] == jobs[i + 1..];
  }
}
