/** One consumer that does not crash, whatever arrives and whatever the gateway answers: how often
    entries are delivered and what they may cause. */
module NotifierRetries {
  import opened Common
  import opened NotifierDomain
  import opened Batches
  import opened Notifier

  function Count(b: Broker, e: nat): nat {
    if e in b.pending then b.pending[e] else 0
  }

  function CallsFor(calls: seq<Call>, e: nat): nat {
    if calls == [] then 0
    else CallsFor(calls[..|calls| - 1], e) + (if calls[|calls| - 1].entry == e then 1 else 0)
  }

  /** An entry that was handed out is pending until it is acknowledged. It has caused no more calls
      than deliveries, and none beyond the limit. One that was just claimed and is still to be handled
      (`due`) has its call before it. */
  ghost predicate EntryBounded(b: Broker, calls: nat, max: nat, due: bool, e: nat) {
    && calls <= max && (due ==> e in b.pending) && (e in b.acked ==> e < b.delivered)
    && (e < b.delivered ==> (e in b.pending <==> e !in b.acked))
    && (e >= b.delivered ==> calls == 0)
    && (e in b.pending ==> b.pending[e] >= 1 && calls + (if due then 1 else 0) <= b.pending[e])
  }

  ghost predicate Bounded(w: World, max: nat, todo: set<nat>) {
    WellFormed(w.broker) && forall e: nat :: EntryBounded(w.broker, CallsFor(w.gate.calls, e), max, e in todo, e)
  }

  lemma LessToDo(w: World, max: nat, todo: set<nat>)
    requires Bounded(w, max, todo)
    ensures Bounded(w, max, {})
  {
    forall e: nat ensures EntryBounded(w.broker, CallsFor(w.gate.calls, e), max, false, e) {
      assert EntryBounded(w.broker, CallsFor(w.gate.calls, e), max, e in todo, e);
    }
  }

  // ---- handling

  /** Handling an entry acknowledges it or leaves it to come again, and touches no other. */
  lemma HandleShape(codec: Codec, max: nat, w: World, e: nat, deliveries: nat, answer: Answer)
    requires e < |w.broker.entries|
    ensures var (w', outcome) := Handle(codec, max, w, e, deliveries, answer);
      && w'.broker.entries == w.broker.entries && w'.broker.delivered == w.broker.delivered
      && w.broker.dead <= w'.broker.dead
      && if outcome.Raised? || outcome.Failed?
         then w'.broker.pending == w.broker.pending && w'.broker.acked == w.broker.acked
         else w'.broker.pending == w.broker.pending - {e} && w'.broker.acked == w.broker.acked + {e}
  {
  }

  /** It makes at most one call, and only up to the allowed number of deliveries. */
  lemma HandleAsks(codec: Codec, max: nat, w: World, e: nat, deliveries: nat, answer: Answer)
    requires e < |w.broker.entries|
    ensures var calls, calls' := w.gate.calls, Handle(codec, max, w, e, deliveries, answer).0.gate.calls;
      && CallsFor(calls', e) <= CallsFor(calls, e) + (if deliveries > max then 0 else 1)
      && forall x: nat :: x != e ==> CallsFor(calls', x) == CallsFor(calls, x)
  {
    var calls, calls' := w.gate.calls, Handle(codec, max, w, e, deliveries, answer).0.gate.calls;
    assert calls' == calls
           || (deliveries <= max && |calls'| == |calls| + 1 && calls'[..|calls|] == calls && calls'[|calls|].entry == e);
  }

  lemma HandleKeepsBound(codec: Codec, max: nat, w: World, todo: set<nat>, e: nat, answer: Answer)
    requires Bounded(w, max, todo) && e in todo && e < |w.broker.entries|
    ensures e in w.broker.pending
    ensures Bounded(Handle(codec, max, w, e, w.broker.pending[e], answer).0, max, todo - {e})
  {
    assert EntryBounded(w.broker, CallsFor(w.gate.calls, e), max, true, e);
    var w' := Handle(codec, max, w, e, w.broker.pending[e], answer).0;
    HandleShape(codec, max, w, e, w.broker.pending[e], answer);
    HandleAsks(codec, max, w, e, w.broker.pending[e], answer);
    forall x: nat ensures EntryBounded(w'.broker, CallsFor(w'.gate.calls, x), max, x in todo - {e}, x) {
      assert EntryBounded(w.broker, CallsFor(w.gate.calls, x), max, x in todo, x);
    }
  }

  function EntriesOf(jobs: seq<Job>): set<nat> {
    set i | 0 <= i < |jobs| :: jobs[i].entry
  }

  /** The jobs name different entries, each with the delivery count the broker has for it. */
  ghost predicate JobsMatch(b: Broker, jobs: seq<Job>) {
    && (forall i :: 0 <= i < |jobs| ==> jobs[i].entry in b.pending && jobs[i].deliveries == b.pending[jobs[i].entry])
    && (forall i, j :: 0 <= i < j < |jobs| ==> jobs[i].entry != jobs[j].entry)
  }

  lemma RestOfJobs(jobs: seq<Job>)
    requires jobs != [] && forall i, j :: 0 <= i < j < |jobs| ==> jobs[i].entry != jobs[j].entry
    ensures EntriesOf(jobs[1..]) == EntriesOf(jobs) - {jobs[0].entry}
  {
    forall i | 0 <= i < |jobs| && jobs[i].entry != jobs[0].entry ensures jobs[i].entry in EntriesOf(jobs[1..]) {
      assert jobs[1..][i - 1] == jobs[i];
    }
  }

  /** Nothing is taken back, and whoever is not among `mine` keeps what it has. */
  ghost predicate OnlyTouches(w: World, w': World, mine: set<nat>) {
    var b, b' := w.broker, w'.broker;
    && b'.entries == b.entries && b'.delivered == b.delivered && b.acked <= b'.acked && b.dead <= b'.dead
    && (forall x: nat :: x !in b'.acked ==> Count(b', x) == Count(b, x))
    && (forall x: nat :: x !in mine ==> Count(b', x) == Count(b, x) && (x in b'.acked ==> x in b.acked))
    && forall x: nat :: x !in mine ==> CallsFor(w'.gate.calls, x) == CallsFor(w.gate.calls, x)
  }

  lemma HandlesFirst(codec: Codec, max: nat, w: World, jobs: seq<Job>, answer: Answer)
    requires Bounded(w, max, EntriesOf(jobs)) && JobsMatch(w.broker, jobs) && JobsExist(w.broker.entries, jobs)
    requires jobs != []
    ensures var w1 := Handle(codec, max, w, jobs[0].entry, jobs[0].deliveries, answer).0;
      && Bounded(w1, max, EntriesOf(jobs[1..])) && JobsMatch(w1.broker, jobs[1..])
      && OnlyTouches(w, w1, {jobs[0].entry}) && EntriesOf(jobs[1..]) == EntriesOf(jobs) - {jobs[0].entry}
  {
    assert jobs[0].entry in EntriesOf(jobs);
    RestOfJobs(jobs);
    HandleKeepsBound(codec, max, w, EntriesOf(jobs), jobs[0].entry, answer);
    HandleShape(codec, max, w, jobs[0].entry, jobs[0].deliveries, answer);
    HandleAsks(codec, max, w, jobs[0].entry, jobs[0].deliveries, answer);
  }

  lemma {:induction false} HandleAllKeepsBound(codec: Codec, max: nat, w: World, jobs: seq<Job>,
                                               answers: nat -> Answer, from: nat)
    requires Bounded(w, max, EntriesOf(jobs)) && JobsMatch(w.broker, jobs) && JobsExist(w.broker.entries, jobs)
    ensures var (w', outcomes) := HandleAll(codec, max, w, jobs, answers, from);
      && Bounded(w', max, {}) && OnlyTouches(w, w', EntriesOf(jobs)) && |outcomes| <= |jobs|
    decreases |jobs|
  {
    if jobs == [] {
      assert EntriesOf(jobs) == {};
    } else {
      HandlesFirst(codec, max, w, jobs, answers(from));
      assert jobs[0].entry in EntriesOf(jobs);
      var (w1, outcome) := Handle(codec, max, w, jobs[0].entry, jobs[0].deliveries, answers(from));
      if outcome.Raised? {
        LessToDo(w1, max, EntriesOf(jobs[1..]));
      } else {
        HandleAllKeepsBound(codec, max, w1, jobs[1..], answers, from + 1);
      }
    }
  }

  // ---- taking work

  /** Everything taken has one delivery more, and nothing else changed. */
  ghost predicate Taken(b: Broker, b': Broker, todo: set<nat>) {
    && b'.entries == b.entries && b'.acked == b.acked && b.delivered <= b'.delivered
    && forall x: nat :: Count(b', x) == Count(b, x) + (if x in todo then 1 else 0)
  }

  lemma TakeWorkBounds(w: World, max: nat, idle: set<nat>, batch: nat)
    requires Bounded(w, max, {})
    ensures var (b', jobs) := TakeWork(w.broker, idle, batch);
      && Bounded(w.(broker := b'), max, EntriesOf(jobs)) && JobsMatch(b', jobs) && Taken(w.broker, b', EntriesOf(jobs))
      && forall x :: x in EntriesOf(jobs) ==> x !in w.broker.acked
  {
    var b := w.broker;
    var order, n := Overdue(b, idle, batch), FreshCount(b, batch);
    var (b', jobs) := TakeWork(b, idle, batch);
    FirstNIsPrefix(b.pending.Keys * idle, batch);
    JobsOfWork(b, order, n);
    var todo := EntriesOf(jobs);
    forall e: nat ensures EntryBounded(b', CallsFor(w.gate.calls, e), max, e in todo, e)
      ensures Count(b', e) == Count(b, e) + (if e in todo then 1 else 0) && (e in todo ==> e !in b.acked)
    {
      assert EntryBounded(b, CallsFor(w.gate.calls, e), max, false, e);
      ClaimedOnce(b, order, n, todo, e);
    }
  }

  /** Taking work adds one delivery to each entry taken, and to no other. */
  lemma ClaimedOnce(b: Broker, order: seq<nat>, n: nat, todo: set<nat>, e: nat)
    requires WellFormed(b) && b.delivered + n <= |b.entries|
    requires forall x :: x in order ==> x in b.pending
    requires e in todo <==> e in order || b.delivered <= e < b.delivered + n
    ensures var b' := ReadFresh(Claim(b, set e | e in order), n);
      && Count(b', e) == Count(b, e) + (if e in todo then 1 else 0)
      && (e in b'.pending <==> e in b.pending || e in todo)
      && b'.acked == b.acked && b'.delivered == b.delivered + n && b'.entries == b.entries
      && (b.delivered <= e < b'.delivered ==> e in todo)
  {
  }

  lemma JobsOfWork(b: Broker, order: seq<nat>, n: nat)
    requires WellFormed(b) && b.delivered + n <= |b.entries|
    requires forall i, j :: 0 <= i < j < |order| ==> order[i] < order[j]
    requires forall e :: e in order ==> e in b.pending
    ensures var jobs := ReclaimedJobs(b.pending, order) + FreshJobs(b, n);
      && JobsMatch(ReadFresh(Claim(b, set e | e in order), n), jobs)
      && forall e :: e in EntriesOf(jobs) <==> e in order || b.delivered <= e < b.delivered + n
  {
    var old', recent := ReclaimedJobs(b.pending, order), FreshJobs(b, n);
    var jobs := old' + recent;
    forall e | e in order || b.delivered <= e < b.delivered + n ensures e in EntriesOf(jobs) {
      if e in order {
        var i :| 0 <= i < |order| && order[i] == e;
        assert jobs[i].entry == e;
      } else {
        assert jobs[|old'| + (e - b.delivered)].entry == e;
      }
    }
    forall i | 0 <= i < |old'| ensures jobs[i].entry in order && jobs[i].entry in b.pending {
      assert jobs[i] == old'[i] && old'[i].entry == order[i];
    }
  }

  lemma {:induction false} DistinctEntries(jobs: seq<Job>)
    requires forall i, j :: 0 <= i < j < |jobs| ==> jobs[i].entry != jobs[j].entry
    ensures |EntriesOf(jobs)| == |jobs|
  {
    if jobs != [] {
      var n := |jobs| - 1;
      DistinctEntries(jobs[..n]);
      assert EntriesOf(jobs) == EntriesOf(jobs[..n]) + {jobs[n].entry} by {
        forall i | 0 <= i < n ensures jobs[i].entry in EntriesOf(jobs[..n]) {
          assert jobs[..n][i] == jobs[i];
        }
      }
      assert jobs[n].entry !in EntriesOf(jobs[..n]);
    }
  }

  // ---- whole lives

  lemma CycleKeepsBound(codec: Codec, max: nat, batch: nat, w: World, idle: set<nat>, answers: nat -> Answer)
    requires Bounded(w, max, {})
    ensures var w' := Cycle(codec, max, batch, w, idle, answers).0;
      Bounded(w', max, {}) && w.broker.acked <= w'.broker.acked
  {
    var (b', jobs) := TakeWork(w.broker, idle, batch);
    TakeWorkBounds(w, max, idle, batch);
    HandleAllKeepsBound(codec, max, w.(broker := b'), jobs, answers, 0);
  }

  /** What happens between two cycles, and the cycles themselves. */
  datatype Event = Arrives(data: Data) | Cycles(idle: set<nat>, answers: nat -> Answer)

  /** The empty system, from which every life starts. */
  const NOTHING := World(Broker([], 0, map[], {}, []), map[], Gate([], {}, []))

  function Append(w: World, data: Data): World {
    w.(broker := w.broker.(entries := w.broker.entries + [data]))
  }

  /** The world after an event, and how many entries were handled. */
  function Happens(codec: Codec, max: nat, batch: nat, w: World, event: Event): (r: (World, nat))
    requires WellFormed(w.broker)
    ensures WellFormed(r.0.broker) && w.broker.entries <= r.0.broker.entries
  {
    match event
    case Arrives(data) => (Append(w, data), 0)
    case Cycles(idle, answers) =>
      var (w', outcomes) := Cycle(codec, max, batch, w, idle, answers);
      (w', |outcomes|)
  }

  /** The same for a sequence of events. */
  function Live(codec: Codec, max: nat, batch: nat, w: World, events: seq<Event>): (r: (World, nat))
    requires WellFormed(w.broker)
    ensures WellFormed(r.0.broker) && w.broker.entries <= r.0.broker.entries
    decreases |events|
  {
    if events == [] then (w, 0)
    else
      var (w', handled) := Happens(codec, max, batch, w, events[0]);
      var (w'', more) := Live(codec, max, batch, w', events[1..]);
      (w'', handled + more)
  }

  lemma ArrivalKeepsBound(max: nat, w: World, data: Data)
    requires Bounded(w, max, {})
    ensures Bounded(Append(w, data), max, {})
  {
    forall e: nat ensures EntryBounded(Append(w, data).broker, CallsFor(w.gate.calls, e), max, false, e) {
      assert EntryBounded(w.broker, CallsFor(w.gate.calls, e), max, false, e);
    }
  }

  lemma NothingIsBounded(max: nat)
    ensures Bounded(NOTHING, max, {})
  {
    forall e: nat ensures EntryBounded(NOTHING.broker, CallsFor(NOTHING.gate.calls, e), max, false, e) {
      assert CallsFor([], e) == 0;
    }
  }

  lemma {:induction false} LiveStaysBounded(codec: Codec, max: nat, batch: nat, w: World, events: seq<Event>)
    requires Bounded(w, max, {})
    ensures var w' := Live(codec, max, batch, w, events).0; Bounded(w', max, {}) && w.broker.acked <= w'.broker.acked
    decreases |events|
  {
    if events != [] {
      match events[0] {
        case Arrives(data) =>
          ArrivalKeepsBound(max, w, data);
          LiveStaysBounded(codec, max, batch, Append(w, data), events[1..]);
        case Cycles(idle, answers) =>
          CycleKeepsBound(codec, max, batch, w, idle, answers);
          LiveStaysBounded(codec, max, batch, Cycle(codec, max, batch, w, idle, answers).0, events[1..]);
      }
    }
  }

  /** From the empty system on, whatever arrives and whatever the gateway answers: no entry causes
      more gateway calls than it may be delivered. */
  lemma CallsAreBounded(codec: Codec, max: nat, batch: nat, events: seq<Event>, e: nat)
    ensures CallsFor(Live(codec, max, batch, NOTHING, events).0.gate.calls, e) <= max
  {
    NothingIsBounded(max);
    LiveStaysBounded(codec, max, batch, NOTHING, events);
    var w := Live(codec, max, batch, NOTHING, events).0;
    assert EntryBounded(w.broker, CallsFor(w.gate.calls, e), max, false, e);
  }
}
