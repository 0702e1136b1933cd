/** What the claim row is for: in no run is a notification that is sent or given up asked for again,
    whatever the gateway remembers. */
module NotifierFinished {
  import opened Common
  import opened NotifierDomain
  import opened Notifier
  import opened NotifierRuns
  import opened NotifierOverwrites

  /** The row says that the event is dealt with, and no consumer is just about to ask the gateway
      for it, having read the row before. */
  ghost predicate Finished(codec: Codec, s: State, key: string) {
    && key in s.w.rows && s.w.rows[key].status != Sending
    && forall id :: id in s.workers ==> !AboutToSend(codec, s, id, key)
  }

  predicate AboutToSend(codec: Codec, s: State, id: nat, key: string) {
    WorksOn(codec, s, id, key) && WorkerOf(s, id).at.Sendable?
  }

  /** Requests are only added, none of them under this key. */
  ghost predicate NoneAdded(calls: seq<Call>, calls': seq<Call>, key: string) {
    calls <= calls' && forall n :: |calls| <= n < |calls'| ==> calls'[n].key != key
  }

  lemma StaysFinished(codec: Codec, max: nat, s: State, step: Step, key: string)
    requires Inv(codec, s) && Enabled(s, step) && Finished(codec, s, key)
    ensures var s' := Next(codec, max, s, step);
      Finished(codec, s', key) && NoneAdded(s.w.gate.calls, s'.w.gate.calls, key)
  {
    var s' := Next(codec, max, s, step);
    if step.Act? {
      var worker := WorkerOf(s, step.id);
      assert WorkerSound(codec, s.w, worker);
      ActStaysFinished(codec, max, s.w, worker.jobs, worker.at, step.answer, key);
    }
    NeverBackToSending(codec, max, s, step, key);
    forall id | id in s'.workers ensures !AboutToSend(codec, s', id, key) {
      if id in s.workers && s'.workers[id] == s.workers[id] {
        assert WorkerSound(codec, s.w, s.workers[id]);
        assert AboutToSend(codec, s', id, key) ==> AboutToSend(codec, s, id, key);
      }
    }
  }

  lemma ActStaysFinished(codec: Codec, max: nat, w: World, jobs: seq<Job>, at: Point, answer: Answer, key: string)
    requires jobs != [] && jobs[0].entry < |w.broker.entries| && PointSound(codec, w, jobs[0].entry, at)
    requires key in w.rows && w.rows[key].status != Sending
    requires var reading := ReadData(codec, w.broker.entries[jobs[0].entry]);
      reading.Readable? && reading.event.eventId == key ==> !at.Sendable?
    ensures var (w', worker') := Act1(codec, max, w, jobs, at, answer);
      var reading := ReadData(codec, w.broker.entries[jobs[0].entry]);
      && NoneAdded(w.gate.calls, w'.gate.calls, key) && w'.broker.entries == w.broker.entries
      && (reading.Readable? && reading.event.eventId == key && worker'.Handling? ==> !worker'.at.Sendable?)
      && (worker'.Handling? && worker'.at.Sendable? ==> worker'.jobs == jobs)
  {
  }

  /** From then on no continuation of the run adds a request under that key. */
  lemma {:induction false} NeverAskedAgain(codec: Codec, max: nat, states: seq<State>, steps: seq<Step>, i: nat, j: nat, key: string)
    requires Run(codec, max, states, steps) && i <= j < |states| && Finished(codec, states[i], key)
    ensures Finished(codec, states[j], key) && NoneAdded(states[i].w.gate.calls, states[j].w.gate.calls, key)
    decreases j
  {
    if i < j {
      NeverAskedAgain(codec, max, states, steps, i, j - 1, key);
      StaysFinishedInARun(codec, max, states, steps, j - 1, key);
      NoneAddedJoins(states[i].w.gate.calls, states[j - 1].w.gate.calls, states[j].w.gate.calls, key);
    }
  }

  lemma StaysFinishedInARun(codec: Codec, max: nat, states: seq<State>, steps: seq<Step>, n: nat, key: string)
    requires Run(codec, max, states, steps) && n < |steps| && Finished(codec, states[n], key)
    ensures Finished(codec, states[n + 1], key) && NoneAdded(states[n].w.gate.calls, states[n + 1].w.gate.calls, key)
  {
    EveryRunKeeps(codec, max, states, steps, n);
    StaysFinished(codec, max, states[n], steps[n], key);
  }

  lemma NoneAddedJoins(a: seq<Call>, b: seq<Call>, c: seq<Call>, key: string)
    requires NoneAdded(a, b, key) && NoneAdded(b, c, key)
    ensures NoneAdded(a, c, key)
  {
    forall n | |a| <= n < |c| ensures c[n].key != key {
      assert n < |b| ==> c[n] == b[n];
    }
  }
}
