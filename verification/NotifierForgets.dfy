/** NotifyGate keeps its keys for a day only. What uniqueness is left when it may forget any key at
    any time, between any two steps of any number of consumers. */
module NotifierForgets {
  import opened Common
  import opened NotifierDomain
  import opened Notifier
  import Runs = NotifierRuns

  /** A step of the system, or the gateway forgets a key. */
  datatype Step<T> = Take(inner: T) | Forget(key: string)

  function Forgetting(g: Gate, key: string): Gate {
    g.(keys := g.keys - {key})
  }

  ghost predicate Enabled(s: Runs.State, step: Step<Runs.Step>) {
    step.Take? ==> Runs.Enabled(s, step.inner)
  }

  ghost function Next(codec: Codec, max: nat, s: Runs.State, step: Step<Runs.Step>): Runs.State
    requires Enabled(s, step)
  {
    match step
    case Take(inner) => Runs.Next(codec, max, s, inner)
    case Forget(key) => s.(w := s.w.(gate := Forgetting(s.w.gate, key)))
  }

  ghost predicate Run(codec: Codec, max: nat, states: seq<Runs.State>, steps: seq<Step<Runs.Step>>) {
    && |states| == |steps| + 1 && states[0] == Runs.START
    && forall i :: 0 <= i < |steps| ==> Enabled(states[i], steps[i]) && states[i + 1] == Next(codec, max, states[i], steps[i])
  }

  // ---- counting

  /** The messages held under a key. */
  function Held(sent: seq<(string, Message)>, key: string): nat {
    if sent == [] then 0
    else Held(sent[..|sent| - 1], key) + (if sent[|sent| - 1].0 == key then 1 else 0)
  }

  /** The times a key was forgotten that the gateway then knew. */
  function Forgotten<T>(gates: seq<Gate>, steps: seq<Step<T>>, key: string, n: nat): nat
    requires n <= |steps| && n <= |gates|
  {
    if n == 0 then 0
    else
      Forgotten(gates, steps, key, n - 1)
      + (if steps[n - 1].Forget? && steps[n - 1].key == key && key in gates[n - 1].keys then 1 else 0)
  }

  /** A message is added exactly when the key is not known, and is then known. */
  predicate Balanced(g: Gate, g': Gate, key: string) {
    Held(g'.sent, key) - Held(g.sent, key) == (if key in g'.keys then 1 else 0) - (if key in g.keys then 1 else 0)
  }

  ghost predicate Remembering<T>(gates: seq<Gate>, steps: seq<Step<T>>, key: string) {
    && |gates| == |steps| + 1 && gates[0].sent == [] && key !in gates[0].keys
    && forall k :: 0 <= k < |steps| ==>
         if steps[k].Forget? then gates[k + 1] == Forgetting(gates[k], steps[k].key) else Balanced(gates[k], gates[k + 1], key)
  }

  /** The messages held are one for each time the key was forgotten, and one more while it is known. */
  lemma {:induction false} HeldPerMemory<T>(gates: seq<Gate>, steps: seq<Step<T>>, key: string, i: nat)
    requires Remembering(gates, steps, key) && i < |gates|
    ensures Held(gates[i].sent, key) == Forgotten(gates, steps, key, i) + (if key in gates[i].keys then 1 else 0)
  {
    if i > 0 {
      HeldPerMemory(gates, steps, key, i - 1);
      assert if steps[i - 1].Forget? then gates[i] == Forgetting(gates[i - 1], steps[i - 1].key)
             else Balanced(gates[i - 1], gates[i], key);
    }
  }

  lemma HeldAppend(sent: seq<(string, Message)>, message: (string, Message), key: string)
    ensures Held(sent + [message], key) == Held(sent, key) + (if message.0 == key then 1 else 0)
  {
    assert (sent + [message])[..|sent|] == sent;
  }

  lemma SendCounts(g: Gate, call: Call, answer: Answer, key: string)
    ensures Balanced(g, Send(g, call, answer), key)
  {
    HeldAppend(g.sent, (call.key, call.message), key);
  }

  lemma StepCounts(codec: Codec, max: nat, s: Runs.State, step: Runs.Step, key: string)
    requires Runs.Enabled(s, step)
    ensures Balanced(s.w.gate, Runs.Next(codec, max, s, step).w.gate, key)
  {
    if step.Act? {
      var worker := Runs.WorkerOf(s, step.id);
      ActSends(codec, max, s.w, worker.jobs, worker.at, step.answer, key);
    }
  }

  lemma ActSends(codec: Codec, max: nat, w: World, jobs: seq<Job>, at: Runs.Point, answer: Answer, key: string)
    requires jobs != [] && jobs[0].entry < |w.broker.entries|
    ensures Balanced(w.gate, Runs.Act1(codec, max, w, jobs, at, answer).0.gate, key)
  {
    var reading := ReadData(codec, w.broker.entries[jobs[0].entry]);
    if reading.Readable? && at.Sendable? {
      SendCounts(w.gate, Call(jobs[0].entry, reading.event.eventId, Message(reading.event.clientId, at.text)), answer, key);
    }
  }

  function Gates(states: seq<Runs.State>): seq<Gate> {
    seq(|states|, i requires 0 <= i < |states| => states[i].w.gate)
  }

  /** In every run: the messages held for an event are one for each time its key was forgotten, and
      one more while the key is known. */
  lemma OneMessagePerMemory(codec: Codec, max: nat, states: seq<Runs.State>, steps: seq<Step<Runs.Step>>, i: nat, key: string)
    requires Run(codec, max, states, steps) && i < |states|
    ensures Held(states[i].w.gate.sent, key)
         == Forgotten(Gates(states), steps, key, i) + (if key in states[i].w.gate.keys then 1 else 0)
  {
    forall k | 0 <= k < |steps|
      ensures var g, g' := Gates(states)[k], Gates(states)[k + 1];
        if steps[k].Forget? then g' == Forgetting(g, steps[k].key) else Balanced(g, g', key)
    {
      if steps[k].Take? {
        StepCounts(codec, max, states[k], steps[k].inner, key);
      }
    }
    HeldPerMemory(Gates(states), steps, key, i);
  }

  /** So a client gets a second message for one change exactly if the gateway forgot and was asked again. */
  lemma SecondMessageExactly(codec: Codec, max: nat, states: seq<Runs.State>, steps: seq<Step<Runs.Step>>, i: nat, key: string)
    requires Run(codec, max, states, steps) && i < |states|
    ensures var held, forgotten := Held(states[i].w.gate.sent, key), Forgotten(Gates(states), steps, key, i);
      && held <= forgotten + 1 && (forgotten == 0 ==> held <= 1)
      && (held > 1 <==> forgotten > 1 || (forgotten == 1 && key in states[i].w.gate.keys))
  {
    OneMessagePerMemory(codec, max, states, steps, i, key);
  }
}
