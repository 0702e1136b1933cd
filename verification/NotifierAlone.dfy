/** A consumer that runs its methods with nobody else around takes the same steps as one
    among many: what holds in every run holds for it. */
module NotifierAlone {
  import opened Common
  import opened Paths
  import opened NotifierDomain
  import opened Batches
  import opened Notifier
  import opened NotifierRuns

  function With(s: State, w: World, id: nat, worker: Worker): State {
    State(w, s.workers[id := worker])
  }

  lemma ActFirst(codec: Codec, max: nat, s: State, id: nat, w: World, jobs: seq<Job>, at: Point, answer: Answer,
                 rest: seq<Step>, t: State)
    requires jobs != [] && jobs[0].entry < |w.broker.entries|
    requires var (w', worker') := Act1(codec, max, w, jobs, at, answer); Leads(Moves(codec, max), With(s, w', id, worker'), rest, t)
    ensures Leads(Moves(codec, max), With(s, w, id, Handling(jobs, at)), [Act(id, answer)] + rest, t)
  {
    var (w', worker') := Act1(codec, max, w, jobs, at, answer);
    assert s.workers[id := Handling(jobs, at)][id := worker'] == s.workers[id := worker'];
    First(Moves(codec, max), With(s, w, id, Handling(jobs, at)), Act(id, answer), With(s, w', id, worker'), rest, t);
  }

  /** Handling one entry without interruption is a run of at most six effects. */
  lemma HandleIsARun(codec: Codec, max: nat, s: State, id: nat, w: World, jobs: seq<Job>, answer: Answer)
    returns (steps: seq<Step>)
    requires jobs != [] && jobs[0].entry < |w.broker.entries|
    ensures var (w', outcome) := Handle(codec, max, w, jobs[0].entry, jobs[0].deliveries, answer);
      Leads(Moves(codec, max), With(s, w, id, Handling(jobs, Start)), steps,
            With(s, w', id, if outcome.Raised? then Idle else Continue(jobs[1..])))
    ensures |steps| <= 6
  {
    var (w', outcome) := Handle(codec, max, w, jobs[0].entry, jobs[0].deliveries, answer);
    var t := With(s, w', id, if outcome.Raised? then Idle else Continue(jobs[1..]));
    var e := jobs[0].entry;
    match ReadData(codec, w.broker.entries[e]) {
      case Raises =>
        ActFirst(codec, max, s, id, w, jobs, Start, answer, [], t);
        steps := [Act(id, answer)] + [];
      case Unreadable =>
        steps := AckRun(codec, max, s, id, w.(broker := AddDead(w.broker, e)), jobs, answer);
        ActFirst(codec, max, s, id, w, jobs, Start, answer, steps, t);
        steps := [Act(id, answer)] + steps;
      case Readable(ev) =>
        if jobs[0].deliveries > max {
          var w1 := w.(broker := AddDead(w.broker, e));
          steps := [];
          if codec.sendable(ev.eventId) {
            steps := AckRun(codec, max, s, id, w1.(rows := MarkDead(w1.rows, ev.eventId)), jobs, answer);
          }
          ActFirst(codec, max, s, id, w1, jobs, DeadAdded(ev.eventId), answer, steps, t);
          ActFirst(codec, max, s, id, w, jobs, Start, answer, [Act(id, answer)] + steps, t);
          steps := [Act(id, answer)] + ([Act(id, answer)] + steps);
        } else if Render(codec, ev).None? {
          steps := AckRun(codec, max, s, id, w, jobs, answer);
          ActFirst(codec, max, s, id, w, jobs, Start, answer, steps, t);
          steps := [Act(id, answer)] + steps;
        } else if !InsertFits(codec, ev, Render(codec, ev).value) {
          ActFirst(codec, max, s, id, w, jobs, Start, answer, [], t);
          steps := [Act(id, answer)] + [];
        } else {
          steps := ClaimRun(codec, max, s, id, w, jobs, ev, answer);
        }
    }
  }

  /** From a point at which the only thing left is to acknowledge the entry. */
  lemma AckRun(codec: Codec, max: nat, s: State, id: nat, w: World, jobs: seq<Job>, answer: Answer)
    returns (steps: seq<Step>)
    requires jobs != [] && jobs[0].entry < |w.broker.entries|
    requires !ReadData(codec, w.broker.entries[jobs[0].entry]).Raises?
    ensures Leads(Moves(codec, max), With(s, w, id, Handling(jobs, Ackable)), steps,
                  With(s, w.(broker := Ack(w.broker, jobs[0].entry)), id, Continue(jobs[1..])))
    ensures |steps| == 1
  {
    steps := [Act(id, answer)];
    ActFirst(codec, max, s, id, w, jobs, Ackable, answer, [],
             With(s, w.(broker := Ack(w.broker, jobs[0].entry)), id, Continue(jobs[1..])));
  }

  lemma ClaimRun(codec: Codec, max: nat, s: State, id: nat, w: World, jobs: seq<Job>, ev: BookingEvent, answer: Answer)
    returns (steps: seq<Step>)
    requires jobs != [] && jobs[0].entry < |w.broker.entries| && jobs[0].deliveries <= max
    requires ReadData(codec, w.broker.entries[jobs[0].entry]) == Readable(ev) && Render(codec, ev).Some?
    requires InsertFits(codec, ev, Render(codec, ev).value)
    ensures Leads(Moves(codec, max), With(s, w, id, Handling(jobs, Start)), steps,
                  With(s, Attempt(w, jobs[0].entry, ev, Render(codec, ev).value, answer).0, id, Continue(jobs[1..])))
    ensures |steps| <= 6
  {
    var text := Render(codec, ev).value;
    var w1 := w.(rows := InsertRow(w.rows, ev, text));
    var t := With(s, Attempt(w, jobs[0].entry, ev, text, answer).0, id, Continue(jobs[1..]));
    if ev.eventId !in w.rows {
      steps := SendRun(codec, max, s, id, w1, jobs, ev, text, answer);
    } else {
      assert w1 == w;
      if AlreadyDone(w.rows, ev.eventId) {
        steps := AckRun(codec, max, s, id, w1, jobs, answer);
      } else {
        steps := SendRun(codec, max, s, id, w1, jobs, ev, text, answer);
      }
      ActFirst(codec, max, s, id, w1, jobs, Conflict(text), answer, steps, t);
      steps := [Act(id, answer)] + steps;
    }
    ActFirst(codec, max, s, id, w, jobs, Start, answer, steps, t);
    steps := [Act(id, answer)] + steps;
  }

  lemma SendRun(codec: Codec, max: nat, s: State, id: nat, w: World, jobs: seq<Job>, ev: BookingEvent,
                text: string, answer: Answer) returns (steps: seq<Step>)
    requires jobs != [] && jobs[0].entry < |w.broker.entries|
    requires ReadData(codec, w.broker.entries[jobs[0].entry]) == Readable(ev)
    ensures var gate := Send(w.gate, Call(jobs[0].entry, ev.eventId, Message(ev.clientId, text)), answer);
      Leads(Moves(codec, max), With(s, w, id, Handling(jobs, Sendable(text))), steps,
        With(s, if answer.Delivered?
                then World(Ack(w.broker, jobs[0].entry), MarkSent(w.rows, ev.eventId, answer.id), gate)
                else World(w.broker, CountFailure(w.rows, ev.eventId), gate), id, Continue(jobs[1..])))
    ensures |steps| <= 3
  {
    var w1 := w.(gate := Send(w.gate, Call(jobs[0].entry, ev.eventId, Message(ev.clientId, text)), answer));
    if answer.Delivered? {
      var w2 := w1.(rows := MarkSent(w.rows, ev.eventId, answer.id));
      var t := With(s, w2.(broker := Ack(w.broker, jobs[0].entry)), id, Continue(jobs[1..]));
      steps := AckRun(codec, max, s, id, w2, jobs, answer);
      ActFirst(codec, max, s, id, w1, jobs, Answered(answer.id), answer, steps, t);
      ActFirst(codec, max, s, id, w, jobs, Sendable(text), answer, [Act(id, answer)] + steps, t);
      steps := [Act(id, answer)] + ([Act(id, answer)] + steps);
    } else {
      var t := With(s, w1.(rows := CountFailure(w.rows, ev.eventId)), id, Continue(jobs[1..]));
      ActFirst(codec, max, s, id, w1, jobs, Unsent, answer, [], t);
      ActFirst(codec, max, s, id, w, jobs, Sendable(text), answer, [Act(id, answer)], t);
      steps := [Act(id, answer)] + [Act(id, answer)];
    }
  }

  lemma {:induction false} HandleAllIsARun(codec: Codec, max: nat, s: State, id: nat, w: World, jobs: seq<Job>,
                                           answers: nat -> Answer, from: nat) returns (steps: seq<Step>)
    requires JobsExist(w.broker.entries, jobs)
    ensures Leads(Moves(codec, max), With(s, w, id, Continue(jobs)), steps,
                  With(s, HandleAll(codec, max, w, jobs, answers, from).0, id, Idle))
    decreases |jobs|
  {
    if jobs == [] {
      steps := [];
    } else {
      var (w1, outcome) := Handle(codec, max, w, jobs[0].entry, jobs[0].deliveries, answers(from));
      steps := HandleIsARun(codec, max, s, id, w, jobs, answers(from));
      if !outcome.Raised? {
        var rest := HandleAllIsARun(codec, max, s, id, w1, jobs[1..], answers, from + 1);
        Join(Moves(codec, max), With(s, w, id, Continue(jobs)), steps, With(s, w1, id, Continue(jobs[1..])), rest,
                With(s, HandleAll(codec, max, w1, jobs[1..], answers, from + 1).0, id, Idle));
        steps := steps + rest;
      }
    }
  }

  /** Looking at the pending list, taking what is due and fetching what is new leads to the
      work of a cycle. */
  lemma TakeWorkIsARun(codec: Codec, max: nat, batch: nat, s: State, id: nat, idle: set<nat>,
                       rest: seq<Step>, t: State) returns (steps: seq<Step>)
    requires WellFormed(s.w.broker) && WorkerOf(s, id).Idle?
    requires var (b', jobs) := TakeWork(s.w.broker, idle, batch);
      Leads(Moves(codec, max), With(s, s.w.(broker := b'), id, Continue(jobs)), rest, t)
    ensures Leads(Moves(codec, max), s, steps, t)
  {
    var b, order := s.w.broker, Overdue(s.w.broker, idle, batch);
    FirstNIsPrefix(b.pending.Keys * idle, batch);
    var n := FreshCount(b, batch);
    steps := FetchIsARun(codec, max, s, id, s.w.(broker := Claim(b, set e | e in order)),
                         ReclaimedJobs(b.pending, order), n, rest, t);
    steps := TakeIsARun(codec, max, s, id, b.pending, order, steps, t);
    steps := LookIsARun(codec, max, s, id, steps, t);
  }

  lemma LookIsARun(codec: Codec, max: nat, s: State, id: nat, rest: seq<Step>, t: State) returns (steps: seq<Step>)
    requires WorkerOf(s, id).Idle? && Leads(Moves(codec, max), With(s, s.w, id, Seen(s.w.broker.pending)), rest, t)
    ensures Leads(Moves(codec, max), s, steps, t)
  {
    First(Moves(codec, max), s, Look(id, s.w.broker.pending), With(s, s.w, id, Seen(s.w.broker.pending)), rest, t);
    steps := [Look(id, s.w.broker.pending)] + rest;
  }

  lemma TakeIsARun(codec: Codec, max: nat, s: State, id: nat, counts: map<nat, nat>, order: seq<nat>,
                   rest: seq<Step>, t: State) returns (steps: seq<Step>)
    requires forall i, j :: 0 <= i < j < |order| ==> order[i] < order[j]
    requires forall e :: e in order ==> e in counts && e in s.w.broker.pending
    requires Leads(Moves(codec, max), With(s, s.w.(broker := Claim(s.w.broker, set e | e in order)), id,
                                    Reading(ReclaimedJobs(counts, order))), rest, t)
    ensures Leads(Moves(codec, max), With(s, s.w, id, Seen(counts)), steps, t)
  {
    var s1 := With(s, s.w, id, Seen(counts));
    var s2 := With(s, s.w.(broker := Claim(s.w.broker, set e | e in order)), id, Reading(ReclaimedJobs(counts, order)));
    assert s1.workers[id := Reading(ReclaimedJobs(counts, order))] == s2.workers;
    steps := [Take(id, order)] + rest;
    First(Moves(codec, max), s1, Take(id, order), s2, rest, t);
  }

  lemma FetchIsARun(codec: Codec, max: nat, s: State, id: nat, w: World, jobs: seq<Job>, n: nat,
                    rest: seq<Step>, t: State) returns (steps: seq<Step>)
    requires w.broker.delivered + n <= |w.broker.entries|
    requires Leads(Moves(codec, max), With(s, w.(broker := ReadFresh(w.broker, n)), id,
                                    Continue(jobs + FreshJobs(w.broker, n))), rest, t)
    ensures Leads(Moves(codec, max), With(s, w, id, Reading(jobs)), steps, t)
  {
    var s1 := With(s, w, id, Reading(jobs));
    var s2 := With(s, w.(broker := ReadFresh(w.broker, n)), id, Continue(jobs + FreshJobs(w.broker, n)));
    assert s1.workers[id := Continue(jobs + FreshJobs(w.broker, n))] == s2.workers;
    steps := [Fetch(id, n)] + rest;
    First(Moves(codec, max), s1, Fetch(id, n), s2, rest, t);
  }

  /** One whole cycle is a run of the machine: it looks, takes, fetches and then handles. */
  lemma CycleIsARun(codec: Codec, max: nat, batch: nat, s: State, id: nat, idle: set<nat>, answers: nat -> Answer)
    returns (steps: seq<Step>)
    requires WellFormed(s.w.broker) && WorkerOf(s, id).Idle?
    ensures Leads(Moves(codec, max), s, steps, With(s, Cycle(codec, max, batch, s.w, idle, answers).0, id, Idle))
  {
    var (b', jobs) := TakeWork(s.w.broker, idle, batch);
    var w' := s.w.(broker := b');
    var handling := HandleAllIsARun(codec, max, s, id, w', jobs, answers, 0);
    steps := TakeWorkIsARun(codec, max, batch, s, id, idle, handling,
                            With(s, HandleAll(codec, max, w', jobs, answers, 0).0, id, Idle));
  }
}
