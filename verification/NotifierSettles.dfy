/** Exactly when everything gets settled. A payload the consumer did not foresee may raise at every
    delivery; which mixtures of payloads end with such an entry, and which never do. */
module NotifierSettles {
  import opened Common
  import opened NotifierDomain
  import opened Batches
  import opened Notifier
  import opened NotifierRetries

  // ---- kinds of payloads

  /** Raises at every delivery: the parser fails in a way nobody catches, or the event id of a
      message to be sent cannot be sent to the database, by the insert as by the dead letter. */
  predicate Hopeless(codec: Codec, data: Data) {
    var reading := ReadData(codec, data);
    || reading.Raises?
    || (reading.Readable? && Render(codec, reading.event).Some? && !codec.sendable(reading.event.eventId))
  }

  /** Ignored as long as the limit is kept; after that the dead letter raises at every delivery. */
  predicate Perishable(codec: Codec, data: Data) {
    var reading := ReadData(codec, data);
    reading.Readable? && Render(codec, reading.event).None? && !codec.sendable(reading.event.eventId)
  }

  /** Raises as long as the limit is kept, because the row cannot be inserted; then a dead letter. */
  predicate Unfit(codec: Codec, data: Data) {
    var reading := ReadData(codec, data);
    && reading.Readable? && codec.sendable(reading.event.eventId)
    && var text := Render(codec, reading.event); text.Some? && !InsertFits(codec, reading.event, text.value)
  }

  predicate Throws(codec: Codec, max: nat, data: Data, deliveries: nat) {
    Hopeless(codec, data) || if deliveries > max then Perishable(codec, data) else Unfit(codec, data)
  }

  /** Which deliveries raise; and that a delivery beyond the limit that does not raise is the last one. */
  lemma ThrowsExactly(codec: Codec, max: nat, w: World, e: nat, deliveries: nat, answer: Answer)
    requires e < |w.broker.entries|
    ensures var (w', outcome) := Handle(codec, max, w, e, deliveries, answer);
      && (outcome.Raised? <==> Throws(codec, max, w.broker.entries[e], deliveries))
      && (Perishable(codec, w.broker.entries[e]) && deliveries <= max ==> outcome.Ignored?)
      && (outcome.Failed? ==> deliveries <= max)
  {
  }

  // ---- entries that will never be settled

  predicate Stuck(codec: Codec, max: nat, b: Broker, e: nat) {
    && e < |b.entries| && e !in b.acked
    && (Hopeless(codec, b.entries[e]) || (Perishable(codec, b.entries[e]) && Count(b, e) > max))
  }

  ghost predicate NoneStuck(codec: Codec, max: nat, b: Broker) {
    forall e: nat :: !Stuck(codec, max, b, e)
  }

  lemma HandleKeepsStuck(codec: Codec, max: nat, w: World, x: nat, deliveries: nat, answer: Answer, e: nat)
    requires x < |w.broker.entries| && Stuck(codec, max, w.broker, e) && (x == e ==> deliveries == Count(w.broker, e))
    ensures Stuck(codec, max, Handle(codec, max, w, x, deliveries, answer).0.broker, e)
  {
    ThrowsExactly(codec, max, w, x, deliveries, answer);
    HandleShape(codec, max, w, x, deliveries, answer);
  }

  lemma {:induction false} HandleAllKeepsStuck(codec: Codec, max: nat, w: World, jobs: seq<Job>,
                                               answers: nat -> Answer, from: nat, e: nat)
    requires Bounded(w, max, EntriesOf(jobs)) && JobsMatch(w.broker, jobs) && JobsExist(w.broker.entries, jobs)
    requires Stuck(codec, max, w.broker, e)
    ensures Stuck(codec, max, HandleAll(codec, max, w, jobs, answers, from).0.broker, e)
    decreases |jobs|
  {
    if jobs != [] {
      HandleKeepsStuck(codec, max, w, jobs[0].entry, jobs[0].deliveries, answers(from), e);
      HandlesFirst(codec, max, w, jobs, answers(from));
      var (w1, outcome) := Handle(codec, max, w, jobs[0].entry, jobs[0].deliveries, answers(from));
      if !outcome.Raised? {
        HandleAllKeepsStuck(codec, max, w1, jobs[1..], answers, from + 1, e);
      }
    }
  }

  lemma {:induction false} StuckForEver(codec: Codec, max: nat, batch: nat, w: World, events: seq<Event>, e: nat)
    requires Bounded(w, max, {}) && Stuck(codec, max, w.broker, e)
    ensures Stuck(codec, max, Live(codec, max, batch, w, events).0.broker, e)
    decreases |events|
  {
    if events != [] {
      match events[0] {
        case Arrives(data) =>
          ArrivalKeepsBound(max, w, data);
          StuckForEver(codec, max, batch, Append(w, data), events[1..], e);
        case Cycles(idle, answers) =>
          CycleKeepsBound(codec, max, batch, w, idle, answers);
          CycleKeepsStuck(codec, max, batch, w, idle, answers, e);
          StuckForEver(codec, max, batch, Cycle(codec, max, batch, w, idle, answers).0, events[1..], e);
      }
    }
  }

  lemma NotYetStuck(codec: Codec, max: nat, batch: nat, w: World, events: seq<Event>)
    requires Bounded(w, max, {}) && NoneStuck(codec, max, Live(codec, max, batch, w, events).0.broker)
    ensures NoneStuck(codec, max, w.broker)
  {
    forall e: nat | Stuck(codec, max, w.broker, e)
      ensures Stuck(codec, max, Live(codec, max, batch, w, events).0.broker, e)
    {
      StuckForEver(codec, max, batch, w, events, e);
    }
  }

  lemma CycleKeepsStuck(codec: Codec, max: nat, batch: nat, w: World, idle: set<nat>, answers: nat -> Answer, e: nat)
    requires Bounded(w, max, {}) && Stuck(codec, max, w.broker, e)
    ensures Stuck(codec, max, Cycle(codec, max, batch, w, idle, answers).0.broker, e)
  {
    var (b', jobs) := TakeWork(w.broker, idle, batch);
    TakeWorkBounds(w, max, idle, batch);
    HandleAllKeepsStuck(codec, max, w.(broker := b'), jobs, answers, 0, e);
  }

  // ---- deliveries to spend

  /** Deliveries after which an entry is settled, the last of which declares it dead. */
  function Left(b: Broker, max: nat, e: nat): nat {
    if e in b.acked then 0 else if Count(b, e) > max then 1 else max + 1 - Count(b, e)
  }

  /** The deliveries left to the first `n` entries together. */
  function Potential(b: Broker, max: nat, n: nat): nat {
    if n == 0 then 0 else Potential(b, max, n - 1) + Left(b, max, n - 1)
  }

  function Budget(b: Broker, max: nat): nat {
    Potential(b, max, |b.entries|)
  }

  function Hits(s: set<nat>, n: nat): nat {
    if n == 0 then 0 else Hits(s, n - 1) + (if n - 1 in s then 1 else 0)
  }

  lemma {:induction false} HitsIsSize(s: set<nat>, n: nat)
    requires forall e :: e in s ==> e < n
    ensures Hits(s, n) == |s|
  {
    if n > 0 {
      HitsIsSize(s - {n - 1}, n - 1);
      HitsWithout(s, n - 1, n - 1);
    } else {
      assert s == {};
    }
  }

  lemma {:induction false} HitsWithout(s: set<nat>, x: nat, n: nat)
    requires x >= n
    ensures Hits(s - {x}, n) == Hits(s, n)
  {
    if n > 0 {
      HitsWithout(s, x, n - 1);
    }
  }

  lemma {:induction false} NoHits(n: nat)
    ensures Hits({}, n) == 0
  {
    if n > 0 {
      NoHits(n - 1);
    }
  }

  /** Whoever is in `spenders` has spent a delivery, and nobody has gained one. */
  lemma {:induction false} PotentialDrops(b: Broker, b': Broker, max: nat, spenders: set<nat>, n: nat)
    requires forall e: nat :: e < n ==> Left(b', max, e) + (if e in spenders then 1 else 0) <= Left(b, max, e)
    ensures Potential(b', max, n) + Hits(spenders, n) <= Potential(b, max, n)
  {
    if n > 0 {
      PotentialDrops(b, b', max, spenders, n - 1);
    }
  }

  lemma {:induction false} PotentialCovers(b: Broker, max: nat, n: nat)
    ensures Potential(b, max, n) == 0 ==> forall e: nat :: e < n ==> e in b.acked
  {
    if n > 0 {
      PotentialCovers(b, max, n - 1);
    }
  }

  /** The delivery of `e` that was just handled was not in vain. */
  predicate Spent(codec: Codec, max: nat, b: Broker, e: nat) {
    e in b.acked || Count(b, e) <= max || Stuck(codec, max, b, e)
  }

  lemma HandleSpends(codec: Codec, max: nat, w: World, e: nat, answer: Answer)
    requires e in w.broker.pending && e < |w.broker.entries|
    ensures Spent(codec, max, Handle(codec, max, w, e, w.broker.pending[e], answer).0.broker, e)
  {
    ThrowsExactly(codec, max, w, e, w.broker.pending[e], answer);
    HandleShape(codec, max, w, e, w.broker.pending[e], answer);
  }

  lemma {:induction false} HandleAllSpends(codec: Codec, max: nat, w: World, jobs: seq<Job>, answers: nat -> Answer, from: nat)
    requires Bounded(w, max, EntriesOf(jobs)) && JobsMatch(w.broker, jobs) && JobsExist(w.broker.entries, jobs)
    ensures var (w', outcomes) := HandleAll(codec, max, w, jobs, answers, from);
      && |outcomes| <= |jobs|
      && forall i :: 0 <= i < |outcomes| ==> Spent(codec, max, w'.broker, jobs[i].entry)
    decreases |jobs|
  {
    if jobs != [] {
      var e, rest := jobs[0].entry, jobs[1..];
      HandleSpends(codec, max, w, e, answers(from));
      HandlesFirst(codec, max, w, jobs, answers(from));
      var (w1, outcome) := Handle(codec, max, w, e, jobs[0].deliveries, answers(from));
      if !outcome.Raised? {
        HandleAllSpends(codec, max, w1, rest, answers, from + 1);
        HandleAllKeepsBound(codec, max, w1, rest, answers, from + 1);
        assert e !in EntriesOf(rest);
        var (w', outcomes) := HandleAll(codec, max, w, jobs, answers, from);
        forall i | 0 < i < |outcomes| ensures Spent(codec, max, w'.broker, jobs[i].entry) {
          assert jobs[i] == rest[i - 1];
        }
      }
    }
  }

  /** Each entry handled in a cycle costs at least one delivery, unless something got stuck. */
  lemma CycleSpends(codec: Codec, max: nat, batch: nat, w: World, idle: set<nat>, answers: nat -> Answer)
    requires Bounded(w, max, {}) && NoneStuck(codec, max, Cycle(codec, max, batch, w, idle, answers).0.broker)
    ensures var (w', outcomes) := Cycle(codec, max, batch, w, idle, answers);
      Budget(w'.broker, max) + |outcomes| <= Budget(w.broker, max)
  {
    var (b', jobs) := TakeWork(w.broker, idle, batch);
    var (w', outcomes) := Cycle(codec, max, batch, w, idle, answers);
    TakeWorkBounds(w, max, idle, batch);
    HandleAllKeepsBound(codec, max, w.(broker := b'), jobs, answers, 0);
    HandleAllSpends(codec, max, w.(broker := b'), jobs, answers, 0);
    var handled := EntriesOf(jobs[..|outcomes|]);
    forall e: nat ensures Left(w'.broker, max, e) + (if e in handled then 1 else 0) <= Left(w.broker, max, e) {
      if e in handled {
        var i :| 0 <= i < |outcomes| && jobs[..|outcomes|][i].entry == e;
        assert jobs[i].entry == e && e in EntriesOf(jobs) && Spent(codec, max, w'.broker, e);
      }
    }
    PotentialDrops(w.broker, w'.broker, max, handled, |w.broker.entries|);
    HandledAreEntries(w.broker, jobs, |outcomes|);
  }

  lemma HandledAreEntries(b: Broker, jobs: seq<Job>, n: nat)
    requires JobsExist(b.entries, jobs) && n <= |jobs|
    requires forall i, j :: 0 <= i < j < |jobs| ==> jobs[i].entry != jobs[j].entry
    ensures Hits(EntriesOf(jobs[..n]), |b.entries|) == n
  {
    HitsIsSize(EntriesOf(jobs[..n]), |b.entries|);
    DistinctEntries(jobs[..n]);
  }

  /** Every entry that arrives brings its deliveries with it. */
  function Granted(max: nat, events: seq<Event>): nat {
    if events == [] then 0
    else Granted(max, events[1..]) + (if events[0].Arrives? then max + 1 else 0)
  }

  lemma ArrivalAdds(max: nat, w: World, data: Data)
    requires WellFormed(w.broker) && forall e :: e in w.broker.acked ==> e < |w.broker.entries|
    ensures Budget(Append(w, data).broker, max) <= Budget(w.broker, max) + (max + 1)
  {
    PotentialDrops(w.broker, Append(w, data).broker, max, {}, |w.broker.entries|);
    NoHits(|w.broker.entries|);
  }

  lemma {:induction false} LiveSpends(codec: Codec, max: nat, batch: nat, w: World, events: seq<Event>)
    requires Bounded(w, max, {}) && NoneStuck(codec, max, Live(codec, max, batch, w, events).0.broker)
    ensures var (w', handled) := Live(codec, max, batch, w, events);
      Budget(w'.broker, max) + handled <= Budget(w.broker, max) + Granted(max, events)
    decreases |events|
  {
    if events != [] {
      match events[0] {
        case Arrives(data) =>
          ArrivalKeepsBound(max, w, data);
          assert forall e :: e in w.broker.acked ==> EntryBounded(w.broker, CallsFor(w.gate.calls, e), max, false, e);
          ArrivalAdds(max, w, data);
          LiveSpends(codec, max, batch, Append(w, data), events[1..]);
        case Cycles(idle, answers) =>
          CycleKeepsBound(codec, max, batch, w, idle, answers);
          var w1 := Cycle(codec, max, batch, w, idle, answers).0;
          NotYetStuck(codec, max, batch, w1, events[1..]);
          CycleSpends(codec, max, batch, w, idle, answers);
          LiveSpends(codec, max, batch, w1, events[1..]);
      }
    }
  }

  // ---- cycles that find everything idle

  ghost predicate AllIdle(b: Broker, idle: set<nat>) {
    forall e: nat :: e < |b.entries| ==> e in idle
  }

  ghost predicate IdleCycles(b: Broker, events: seq<Event>) {
    forall i :: 0 <= i < |events| ==> events[i].Cycles? && AllIdle(b, events[i].idle)
  }

  ghost predicate AllAcked(b: Broker) {
    forall e: nat :: e < |b.entries| ==> e in b.acked
  }

  /** As long as one entry is not settled, such a cycle handles something. */
  lemma SomethingHandled(codec: Codec, max: nat, batch: nat, w: World, idle: set<nat>, answers: nat -> Answer)
    requires Bounded(w, max, {}) && batch > 0 && AllIdle(w.broker, idle) && !AllAcked(w.broker)
    ensures |Cycle(codec, max, batch, w, idle, answers).1| >= 1
  {
    var e: nat :| e < |w.broker.entries| && e !in w.broker.acked;
    assert EntryBounded(w.broker, CallsFor(w.gate.calls, e), max, false, e);
    FirstNIsPrefix(w.broker.pending.Keys * idle, batch);
    if e < w.broker.delivered {
      assert e in w.broker.pending.Keys * idle;
    }
    var (b', jobs) := TakeWork(w.broker, idle, batch);
    assert |jobs| >= 1;
  }

  lemma RestIdle(b: Broker, events: seq<Event>)
    requires events != [] && IdleCycles(b, events)
    ensures IdleCycles(b, events[1..]) && events[0].Cycles? && AllIdle(b, events[0].idle)
  {
    assert forall i :: 0 <= i < |events[1..]| ==> events[1..][i] == events[i + 1];
  }

  lemma {:induction false} IdleHandlesSomething(codec: Codec, max: nat, batch: nat, w: World, events: seq<Event>)
    requires Bounded(w, max, {}) && batch > 0 && IdleCycles(w.broker, events)
    requires !AllAcked(Live(codec, max, batch, w, events).0.broker)
    ensures var (w', handled) := Live(codec, max, batch, w, events);
      handled >= |events| && w'.broker.entries == w.broker.entries && Granted(max, events) == 0
    decreases |events|
  {
    if events != [] {
      RestIdle(w.broker, events);
      var w1 := Cycle(codec, max, batch, w, events[0].idle, events[0].answers).0;
      CycleKeepsBound(codec, max, batch, w, events[0].idle, events[0].answers);
      IdleHandlesSomething(codec, max, batch, w1, events[1..]);
      LiveStaysBounded(codec, max, batch, w, events);
      SomethingHandled(codec, max, batch, w, events[0].idle, events[0].answers);
    }
  }

  /** Whatever the gateway answers: after as many idle cycles as there were deliveries to spend,
      everything is acknowledged, or an entry is there that never will be. */
  lemma SettledOrStuck(codec: Codec, max: nat, batch: nat, w: World, events: seq<Event>)
    requires Bounded(w, max, {}) && batch > 0 && IdleCycles(w.broker, events) && |events| >= Budget(w.broker, max)
    ensures var b' := Live(codec, max, batch, w, events).0.broker;
      AllAcked(b') <==> NoneStuck(codec, max, b')
  {
    var w' := Live(codec, max, batch, w, events).0;
    if NoneStuck(codec, max, w'.broker) && !AllAcked(w'.broker) {
      IdleHandlesSomething(codec, max, batch, w, events);
      LiveSpends(codec, max, batch, w, events);
      PotentialCovers(w'.broker, max, |w'.broker.entries|);
    }
  }

  // ---- vocabularies

  /** Whatever payloads of this kind arrive, in whatever number and order, nothing ever gets stuck:
      none is hopeless, and one that must be ignored in time is never kept waiting for too long. It
      is, if an entry claimed before it in the same batch can raise, or if no delivery is allowed. */
  ghost predicate Harmless(codec: Codec, max: nat, batch: nat, kinds: iset<Data>) {
    && (forall d :: d in kinds ==> !Hopeless(codec, d))
    && ((forall d :: d in kinds ==> !Perishable(codec, d))
        || (max >= 1 && (batch == 1 || forall d :: d in kinds ==> !Unfit(codec, d))))
  }

  ghost predicate Arrivals(kinds: iset<Data>, events: seq<Event>) {
    forall i :: 0 <= i < |events| && events[i].Arrives? ==> events[i].data in kinds
  }

  ghost predicate Contains(kinds: iset<Data>, b: Broker) {
    forall e :: 0 <= e < |b.entries| ==> b.entries[e] in kinds
  }

  // ---- harmless vocabularies

  /** A perishable entry that was handed out and is not settled has been delivered once only, and
      will be the only one claimed when it is claimed. */
  ghost predicate InTime(codec: Codec, max: nat, batch: nat, b: Broker) {
    forall e: nat :: e < b.delivered && e < |b.entries| && Perishable(codec, b.entries[e]) && e !in b.acked ==>
      Waiting(max, batch, b, e)
  }

  predicate Waiting(max: nat, batch: nat, b: Broker, e: nat) {
    batch == 1 && max >= 2 && Count(b, e) == 1
  }

  /** If only the last job may raise and no perishable one is late, the perishable ones are settled. */
  lemma {:induction false} SettlesPerishable(codec: Codec, max: nat, w: World, jobs: seq<Job>, answers: nat -> Answer, from: nat)
    requires Bounded(w, max, EntriesOf(jobs)) && JobsMatch(w.broker, jobs) && JobsExist(w.broker.entries, jobs)
    requires forall i :: 0 <= i < |jobs| - 1 ==> !Throws(codec, max, w.broker.entries[jobs[i].entry], jobs[i].deliveries)
    requires forall i :: 0 <= i < |jobs| && Perishable(codec, w.broker.entries[jobs[i].entry]) ==> jobs[i].deliveries <= max
    ensures var w' := HandleAll(codec, max, w, jobs, answers, from).0;
      forall i :: 0 <= i < |jobs| && Perishable(codec, w.broker.entries[jobs[i].entry]) ==> jobs[i].entry in w'.broker.acked
    decreases |jobs|
  {
    if jobs != [] {
      var e, rest := jobs[0].entry, jobs[1..];
      ThrowsExactly(codec, max, w, e, jobs[0].deliveries, answers(from));
      HandleShape(codec, max, w, e, jobs[0].deliveries, answers(from));
      HandlesFirst(codec, max, w, jobs, answers(from));
      var (w1, outcome) := Handle(codec, max, w, e, jobs[0].deliveries, answers(from));
      if !outcome.Raised? {
        SettlesPerishable(codec, max, w1, rest, answers, from + 1);
        HandleAllKeepsBound(codec, max, w1, rest, answers, from + 1);
        assert forall i :: 0 < i < |jobs| ==> jobs[i] == rest[i - 1];
      }
    }
  }

  /** A cycle claims a batch of the pending entries and reads a batch of new ones. */
  lemma BatchOfWork(b: Broker, idle: set<nat>, batch: nat) returns (k: nat)
    requires WellFormed(b)
    ensures var jobs := TakeWork(b, idle, batch).1;
      && k <= |jobs| && k <= batch && |jobs| <= k + batch
      && (forall i :: 0 <= i < k ==> jobs[i].entry in b.pending && jobs[i].deliveries == b.pending[jobs[i].entry] + 1)
      && forall i :: k <= i < |jobs| ==> jobs[i].entry !in b.pending && jobs[i].deliveries == 1
  {
    FirstNIsPrefix(b.pending.Keys * idle, batch);
    k := |Overdue(b, idle, batch)|;
    var jobs := TakeWork(b, idle, batch).1;
    forall i | 0 <= i < k ensures jobs[i].entry in b.pending && jobs[i].deliveries == b.pending[jobs[i].entry] + 1 {
      assert jobs[i] == ReclaimedJobs(b.pending, Overdue(b, idle, batch))[i];
    }
  }

  /** No perishable entry comes late, and none but the first of two can raise before another. */
  ghost predicate JobsInTime(codec: Codec, max: nat, batch: nat, entries: seq<Data>, jobs: seq<Job>)
    requires JobsExist(entries, jobs)
  {
    && (forall i :: 0 <= i < |jobs| && Perishable(codec, entries[jobs[i].entry]) ==> jobs[i].deliveries <= max)
    && (forall i :: 0 <= i < |jobs| ==> !Hopeless(codec, entries[jobs[i].entry]))
    && (forall i :: 0 <= i < |jobs| && Unfit(codec, entries[jobs[i].entry]) ==> batch == 1)
    && (batch == 1 && |jobs| > 1 ==> |jobs| == 2 && jobs[0].deliveries >= 2 && jobs[1].deliveries == 1)
  }

  lemma WorkInTime(codec: Codec, max: nat, batch: nat, kinds: iset<Data>, w: World, idle: set<nat>)
    requires Bounded(w, max, {}) && Contains(kinds, w.broker) && Harmless(codec, max, batch, kinds)
    requires InTime(codec, max, batch, w.broker) && exists d :: d in kinds && Perishable(codec, d)
    ensures JobsInTime(codec, max, batch, w.broker.entries, TakeWork(w.broker, idle, batch).1)
  {
    var k := BatchOfWork(w.broker, idle, batch);
    var jobs := TakeWork(w.broker, idle, batch).1;
    forall i | 0 <= i < |jobs|
      ensures Perishable(codec, w.broker.entries[jobs[i].entry]) ==> jobs[i].deliveries <= max
      ensures w.broker.entries[jobs[i].entry] in kinds && (i < k ==> jobs[i].deliveries >= 2)
    {
      var e := jobs[i].entry;
      assert EntryBounded(w.broker, CallsFor(w.gate.calls, e), max, false, e);
      if i < k && Perishable(codec, w.broker.entries[e]) {
        assert Waiting(max, batch, w.broker, e);
      }
    }
  }

  lemma CycleKeepsInTime(codec: Codec, max: nat, batch: nat, kinds: iset<Data>, w: World, idle: set<nat>, answers: nat -> Answer)
    requires Bounded(w, max, {}) && Contains(kinds, w.broker) && Harmless(codec, max, batch, kinds)
    requires InTime(codec, max, batch, w.broker)
    ensures InTime(codec, max, batch, Cycle(codec, max, batch, w, idle, answers).0.broker)
  {
    if exists d :: d in kinds && Perishable(codec, d) {
      var (b', jobs) := TakeWork(w.broker, idle, batch);
      TakeWorkBounds(w, max, idle, batch);
      WorkInTime(codec, max, batch, kinds, w, idle);
      HandlesInTime(codec, max, batch, w, w.(broker := b'), jobs, answers);
    } else {
      CycleKeepsBound(codec, max, batch, w, idle, answers);
    }
  }

  lemma HandlesInTime(codec: Codec, max: nat, batch: nat, w: World, taken: World, jobs: seq<Job>, answers: nat -> Answer)
    requires Bounded(w, max, {}) && Bounded(taken, max, EntriesOf(jobs)) && InTime(codec, max, batch, w.broker)
    requires Taken(w.broker, taken.broker, EntriesOf(jobs)) && JobsMatch(taken.broker, jobs)
    requires JobsExist(taken.broker.entries, jobs) && JobsInTime(codec, max, batch, taken.broker.entries, jobs)
    ensures InTime(codec, max, batch, HandleAll(codec, max, taken, jobs, answers, 0).0.broker)
  {
    var b' := taken.broker;
    if |jobs| > 1 && batch == 1 && Throws(codec, max, b'.entries[jobs[0].entry], jobs[0].deliveries) {
      ThrowsExactly(codec, max, taken, jobs[0].entry, jobs[0].deliveries, answers(0));
      assert HandleAll(codec, max, taken, jobs, answers, 0) == (taken, [Raised]);
      CutShort(codec, max, batch, w, taken, jobs);
    } else {
      SettlesPerishable(codec, max, taken, jobs, answers, 0);
      HandleAllKeepsBound(codec, max, taken, jobs, answers, 0);
      AllHandled(codec, max, batch, w, taken, HandleAll(codec, max, taken, jobs, answers, 0).0, jobs);
    }
  }

  lemma CutShort(codec: Codec, max: nat, batch: nat, w: World, taken: World, jobs: seq<Job>)
    requires InTime(codec, max, batch, w.broker) && Taken(w.broker, taken.broker, EntriesOf(jobs)) && JobsMatch(taken.broker, jobs)
    requires JobsExist(w.broker.entries, jobs) && batch == 1 && |jobs| == 2 && jobs[1].deliveries == 1
    requires 2 <= jobs[0].deliveries <= max && Unfit(codec, w.broker.entries[jobs[0].entry])
    requires Bounded(w, max, {}) && Bounded(taken, max, EntriesOf(jobs))
    ensures InTime(codec, max, batch, taken.broker)
  {
    var b, b' := w.broker, taken.broker;
    forall e: nat | e < b'.delivered && e < |b'.entries| && Perishable(codec, b'.entries[e]) && e !in b'.acked
      ensures Waiting(max, batch, b', e)
    {
      if e in EntriesOf(jobs) {
        assert e == jobs[1].entry;
      } else {
        assert EntryBounded(b', CallsFor(w.gate.calls, e), max, false, e);
        assert Count(b', e) == Count(b, e);
        assert Waiting(max, batch, b, e);
      }
    }
  }

  lemma AllHandled(codec: Codec, max: nat, batch: nat, w: World, taken: World, w': World, jobs: seq<Job>)
    requires InTime(codec, max, batch, w.broker) && Taken(w.broker, taken.broker, EntriesOf(jobs))
    requires OnlyTouches(taken, w', EntriesOf(jobs)) && Bounded(w', max, {}) && Bounded(w, max, {})
    requires JobsExist(w.broker.entries, jobs)
    requires forall i :: 0 <= i < |jobs| && Perishable(codec, w.broker.entries[jobs[i].entry]) ==> jobs[i].entry in w'.broker.acked
    ensures InTime(codec, max, batch, w'.broker)
  {
    forall e: nat | e < w'.broker.delivered && e < |w'.broker.entries| && Perishable(codec, w'.broker.entries[e]) && e !in w'.broker.acked
      ensures Waiting(max, batch, w'.broker, e)
    {
      assert EntryBounded(w'.broker, CallsFor(w'.gate.calls, e), max, false, e);
      assert e !in EntriesOf(jobs);
      assert Count(w'.broker, e) == Count(w.broker, e);
      assert Waiting(max, batch, w.broker, e);
    }
  }

  lemma {:induction false} LiveStaysInTime(codec: Codec, max: nat, batch: nat, kinds: iset<Data>, w: World, events: seq<Event>)
    requires Bounded(w, max, {}) && Contains(kinds, w.broker) && Harmless(codec, max, batch, kinds)
    requires InTime(codec, max, batch, w.broker) && Arrivals(kinds, events)
    ensures var b' := Live(codec, max, batch, w, events).0.broker; Contains(kinds, b') && InTime(codec, max, batch, b')
    decreases |events|
  {
    if events != [] {
      assert Arrivals(kinds, events[1..]) by {
        assert forall i :: 0 <= i < |events[1..]| ==> events[1..][i] == events[i + 1];
      }
      match events[0] {
        case Arrives(data) =>
          ArrivalKeepsBound(max, w, data);
          LiveStaysInTime(codec, max, batch, kinds, Append(w, data), events[1..]);
        case Cycles(idle, answers) =>
          CycleKeepsBound(codec, max, batch, w, idle, answers);
          CycleKeepsInTime(codec, max, batch, kinds, w, idle, answers);
          LiveStaysInTime(codec, max, batch, kinds, Cycle(codec, max, batch, w, idle, answers).0, events[1..]);
      }
    }
  }

  lemma HarmlessNeverSticks(codec: Codec, max: nat, batch: nat, kinds: iset<Data>, events: seq<Event>)
    requires Harmless(codec, max, batch, kinds) && Arrivals(kinds, events)
    ensures var w := Live(codec, max, batch, NOTHING, events).0;
      Bounded(w, max, {}) && NoneStuck(codec, max, w.broker) && Contains(kinds, w.broker)
  {
    NothingIsBounded(max);
    LiveStaysBounded(codec, max, batch, NOTHING, events);
    LiveStaysInTime(codec, max, batch, kinds, NOTHING, events);
    var w := Live(codec, max, batch, NOTHING, events).0;
    forall e: nat ensures !Stuck(codec, max, w.broker, e) {
      assert EntryBounded(w.broker, CallsFor(w.gate.calls, e), max, false, e);
    }
  }

  // ---- the others

  lemma LiveUnfolds(codec: Codec, max: nat, batch: nat, w: World, event: Event, rest: seq<Event>)
    requires WellFormed(w.broker)
    ensures var (w1, n) := Happens(codec, max, batch, w, event);
      && Live(codec, max, batch, w, [event] + rest).0 == Live(codec, max, batch, w1, rest).0
      && Live(codec, max, batch, w, [event] + rest).1 == n + Live(codec, max, batch, w1, rest).1
  {
    assert ([event] + rest)[1..] == rest;
  }

  lemma {:induction false} LiveJoins(codec: Codec, max: nat, batch: nat, w: World, before: seq<Event>, after: seq<Event>)
    requires WellFormed(w.broker)
    ensures var w1 := Live(codec, max, batch, w, before).0;
      && Live(codec, max, batch, w, before + after).0 == Live(codec, max, batch, w1, after).0
      && Live(codec, max, batch, w, before + after).1
         == Live(codec, max, batch, w, before).1 + Live(codec, max, batch, w1, after).1
    decreases |before|
  {
    if before == [] {
      assert before + after == after;
    } else {
      var event, rest := before[0], before[1..];
      assert before == [event] + rest && before + after == [event] + (rest + after);
      LiveUnfolds(codec, max, batch, w, event, rest);
      LiveUnfolds(codec, max, batch, w, event, rest + after);
      LiveJoins(codec, max, batch, Happens(codec, max, batch, w, event).0, rest, after);
    }
  }

  const BOTH: set<nat> := {0, 1}

  function NoAnswer(): nat -> Answer {
    n => Refused
  }

  /** Two entries that were both delivered `k` times. */
  function Pair(first: Data, second: Data, k: nat): Broker {
    Broker([first, second], 2, map[0 := k, 1 := k], {}, [])
  }

  function Paired(first: Data, second: Data, k: nat): World {
    World(Pair(first, second, k), map[], Gate([], {}, []))
  }

  lemma PairIsClaimed(first: Data, second: Data, k: nat, batch: nat)
    requires batch >= 2
    ensures TakeWork(Pair(first, second, k), BOTH, batch) == (Pair(first, second, k + 1), [Job(0, k + 1), Job(1, k + 1)])
  {
    var b := Pair(first, second, k);
    FirstTwo(batch);
    assert b.pending.Keys * BOTH == BOTH;
    var order := Overdue(b, BOTH, batch);
    assert order == [0, 1] && (set e | e in order) == BOTH && FreshCount(b, batch) == 0;
    var jobs := ReclaimedJobs(b.pending, order);
    assert jobs == [Job(0, k + 1), Job(1, k + 1)] && jobs + FreshJobs(b, 0) == jobs;
    var mine := set e | e in order;
    assert mine == BOTH && TakeWork(b, BOTH, batch) == (ReadFresh(Claim(b, mine), 0), jobs);
    assert Claim(b, mine) == Claim(b, BOTH);
    NothingFresh(first, second, k);
  }

  lemma NothingFresh(first: Data, second: Data, k: nat)
    ensures ReadFresh(Claim(Pair(first, second, k), BOTH), 0) == Pair(first, second, k + 1)
  {
    assert CountUp(map[0 := k, 1 := k], BOTH) == map[0 := k + 1, 1 := k + 1];
    assert FirstDeliveries(2, 0) == map[];
  }

  lemma FirstTwo(batch: nat)
    requires batch >= 2
    ensures FirstN(BOTH, batch) == [0, 1]
  {
    FirstNIsPrefix(BOTH, batch);
    var order := FirstN(BOTH, batch);
    assert |BOTH| == 2 && order[0] in BOTH && order[1] in BOTH;
  }

  /** As long as the first of the two raises, the second is delivered with it and not handled. */
  lemma {:induction false} PairWaits(codec: Codec, max: nat, batch: nat, kinds: iset<Data>, first: Data, second: Data, n: nat)
    returns (events: seq<Event>)
    requires batch >= 2 && 1 <= n <= max && (Hopeless(codec, first) || Unfit(codec, first))
    requires first in kinds && second in kinds
    ensures Makes(codec, max, batch, kinds, events, Paired(first, second, n))
    decreases n
  {
    if n == 1 {
      events := PairArrives(codec, max, batch, kinds, first, second);
    } else {
      events := PairWaits(codec, max, batch, kinds, first, second, n - 1);
      events := PairOnce(codec, max, batch, kinds, events, first, second, n - 1);
    }
  }

  lemma OneCycle(codec: Codec, max: nat, batch: nat, w: World, idle: set<nat>, answers: nat -> Answer)
    requires WellFormed(w.broker)
    ensures Live(codec, max, batch, w, [Cycles(idle, answers)]).0 == Cycle(codec, max, batch, w, idle, answers).0
  {
  }

  /** These events, made of this vocabulary, lead from the empty system to `w`. */
  ghost predicate Makes(codec: Codec, max: nat, batch: nat, kinds: iset<Data>, events: seq<Event>, w: World) {
    Arrivals(kinds, events) && Live(codec, max, batch, NOTHING, events).0 == w
  }

  /** One more cycle. */
  lemma CycleFollows(codec: Codec, max: nat, batch: nat, kinds: iset<Data>, events: seq<Event>, w: World,
                     idle: set<nat>, answers: nat -> Answer)
    requires Makes(codec, max, batch, kinds, events, w) && WellFormed(w.broker)
    ensures Makes(codec, max, batch, kinds, events + [Cycles(idle, answers)], Cycle(codec, max, batch, w, idle, answers).0)
  {
    LiveJoins(codec, max, batch, NOTHING, events, [Cycles(idle, answers)]);
    OneCycle(codec, max, batch, w, idle, answers);
  }

  lemma PairOnce(codec: Codec, max: nat, batch: nat, kinds: iset<Data>, before: seq<Event>, first: Data, second: Data, n: nat)
    returns (events: seq<Event>)
    requires batch >= 2 && n < max && (Hopeless(codec, first) || Unfit(codec, first))
    requires Makes(codec, max, batch, kinds, before, Paired(first, second, n))
    ensures Makes(codec, max, batch, kinds, events, Paired(first, second, n + 1))
  {
    events := before + [Cycles(BOTH, NoAnswer())];
    CycleFollows(codec, max, batch, kinds, before, Paired(first, second, n), BOTH, NoAnswer());
    var w' := Cycle(codec, max, batch, Paired(first, second, n), BOTH, NoAnswer()).0;
    assert Makes(codec, max, batch, kinds, events, w');
    assert w' == Paired(first, second, n + 1) by {
      PairIsClaimed(first, second, n, batch);
    }
  }

  lemma PairArrives(codec: Codec, max: nat, batch: nat, kinds: iset<Data>, first: Data, second: Data)
    returns (events: seq<Event>)
    requires first in kinds && second in kinds && batch >= 2 && max >= 1 && (Hopeless(codec, first) || Unfit(codec, first))
    ensures Makes(codec, max, batch, kinds, events, Paired(first, second, 1))
  {
    events := [Arrives(first), Arrives(second)];
    var w := Append(Append(NOTHING, first), second);
    TwoArrive(codec, max, batch, first, second);
    assert w.broker.pending.Keys * BOTH == {};
    var (b', jobs) := TakeWork(w.broker, BOTH, batch);
    assert FirstDeliveries(0, 2) == map[0 := 1, 1 := 1];
    assert b' == Pair(first, second, 1) && jobs == [Job(0, 1), Job(1, 1)];
    CycleFollows(codec, max, batch, kinds, events, w, BOTH, NoAnswer());
    events := events + [Cycles(BOTH, NoAnswer())];
  }

  lemma TwoArrive(codec: Codec, max: nat, batch: nat, first: Data, second: Data)
    ensures Live(codec, max, batch, NOTHING, [Arrives(first), Arrives(second)]).0 == Append(Append(NOTHING, first), second)
    ensures Append(Append(NOTHING, first), second).broker.entries == [first, second]
  {
    assert [Arrives(first)] + [Arrives(second)] == [Arrives(first), Arrives(second)] && [Arrives(second)] + [] == [Arrives(second)];
    LiveUnfolds(codec, max, batch, NOTHING, Arrives(first), [Arrives(second)]);
    LiveUnfolds(codec, max, batch, Append(NOTHING, first), Arrives(second), []);
  }

  /** A payload that is ignored in time is not when one that cannot be inserted was claimed before it. */
  lemma PerishesBehindUnfit(codec: Codec, max: nat, batch: nat, first: Data, second: Data) returns (events: seq<Event>)
    requires batch >= 2 && max >= 1 && Unfit(codec, first) && Perishable(codec, second)
    ensures Arrivals(iset{first, second}, events)
    ensures Stuck(codec, max, Live(codec, max, batch, NOTHING, events).0.broker, 1)
  {
    events := PairWaits(codec, max, batch, iset{first, second}, first, second, max);
    var w := Paired(first, second, max);
    NothingIsBounded(max);
    LiveStaysBounded(codec, max, batch, NOTHING, events);
    PairIsClaimed(first, second, max, batch);
    TakeWorkBounds(w, max, BOTH, batch);
    var (b', jobs) := TakeWork(w.broker, BOTH, batch);
    assert Stuck(codec, max, b', 1);
    HandleAllKeepsStuck(codec, max, w.(broker := b'), jobs, NoAnswer(), 0, 1);
    CycleFollows(codec, max, batch, iset{first, second}, events, w, BOTH, NoAnswer());
    events := events + [Cycles(BOTH, NoAnswer())];
  }

  lemma PerishesWithoutDeliveries(codec: Codec, batch: nat, data: Data) returns (events: seq<Event>)
    requires batch > 0 && Perishable(codec, data)
    ensures Arrivals(iset{data}, events) && Stuck(codec, 0, Live(codec, 0, batch, NOTHING, events).0.broker, 0)
  {
    var w := Append(NOTHING, data);
    NothingIsBounded(0);
    ArrivalKeepsBound(0, NOTHING, data);
    TakeWorkBounds(w, 0, {}, batch);
    assert w.broker.pending.Keys * {} == {};
    var (b', jobs) := TakeWork(w.broker, {}, batch);
    assert jobs == [Job(0, 1)] && 0 in EntriesOf(jobs) && Stuck(codec, 0, b', 0);
    HandleAllKeepsStuck(codec, 0, w.(broker := b'), jobs, NoAnswer(), 0, 0);
    OneCycle(codec, 0, batch, w, {}, NoAnswer());
    events := [Arrives(data), Cycles({}, NoAnswer())];
    assert events[1..] == [Cycles({}, NoAnswer())];
  }

  /** Every other vocabulary has a stream on which an entry gets stuck. */
  lemma HarmfulSticks(codec: Codec, max: nat, batch: nat, kinds: iset<Data>) returns (events: seq<Event>, e: nat)
    requires batch > 0 && !Harmless(codec, max, batch, kinds)
    ensures Arrivals(kinds, events) && Stuck(codec, max, Live(codec, max, batch, NOTHING, events).0.broker, e)
  {
    if data :| data in kinds && Hopeless(codec, data) {
      events, e := [Arrives(data)], 0;
      assert events[1..] == [] && Live(codec, max, batch, NOTHING, events).0 == Append(NOTHING, data);
    } else {
      var second :| second in kinds && Perishable(codec, second);
      if max == 0 {
        events := PerishesWithoutDeliveries(codec, batch, second);
        e := 0;
      } else {
        var first :| first in kinds && Unfit(codec, first);
        events := PerishesBehindUnfit(codec, max, batch, first, second);
        e := 1;
      }
    }
  }

  // ---- the main results

  /** Once these events are over, idle cycles in sufficient number leave nothing behind. */
  ghost predicate SettledAfter(codec: Codec, max: nat, batch: nat, before: seq<Event>, after: seq<Event>) {
    var w := Live(codec, max, batch, NOTHING, before).0;
    IdleCycles(w.broker, after) && |after| >= Budget(w.broker, max) ==>
      AllAcked(Live(codec, max, batch, w, after).0.broker)
  }

  /** A vocabulary is harmless if and only if, whatever of it arrives when and whatever the gateway
      answers, everything is acknowledged after as many idle cycles as there were deliveries left. */
  lemma EverythingIsSettledExactly(codec: Codec, max: nat, batch: nat, kinds: iset<Data>)
    requires batch > 0
    ensures (forall before, after :: Arrivals(kinds, before) ==> SettledAfter(codec, max, batch, before, after))
            <==> Harmless(codec, max, batch, kinds)
  {
    NothingIsBounded(max);
    if Harmless(codec, max, batch, kinds) {
      forall before, after | Arrivals(kinds, before) ensures SettledAfter(codec, max, batch, before, after) {
        var w := Live(codec, max, batch, NOTHING, before).0;
        HarmlessNeverSticks(codec, max, batch, kinds, before);
        if IdleCycles(w.broker, after) && |after| >= Budget(w.broker, max) {
          CyclesBringNothing(kinds, w.broker, after);
          LiveJoins(codec, max, batch, NOTHING, before, after);
          HarmlessNeverSticks(codec, max, batch, kinds, before + after);
          SettledOrStuck(codec, max, batch, w, after);
        }
      }
    } else {
      var before, e := HarmfulSticks(codec, max, batch, kinds);
      var w := Live(codec, max, batch, NOTHING, before).0;
      LiveStaysBounded(codec, max, batch, NOTHING, before);
      var after := Idling(w.broker, Budget(w.broker, max));
      StuckForEver(codec, max, batch, w, after, e);
      assert !SettledAfter(codec, max, batch, before, after);
    }
  }

  lemma CyclesBringNothing(kinds: iset<Data>, b: Broker, events: seq<Event>)
    requires IdleCycles(b, events)
    ensures Arrivals(kinds, events)
  {
  }

  function UpTo(n: nat): (s: set<nat>)
    ensures forall x: nat :: x < n ==> x in s
  {
    if n == 0 then {} else UpTo(n - 1) + {n - 1}
  }

  function Idling(b: Broker, n: nat): (events: seq<Event>)
    ensures |events| == n && IdleCycles(b, events)
  {
    seq(n, i => Cycles(UpTo(|b.entries|), NoAnswer()))
  }

  /** And if and only if no entry costs more than one delivery beyond the limit on the average: with
      any other vocabulary there is a stream that is handled over and over again. */
  lemma HandlingsAreBoundedExactly(codec: Codec, max: nat, batch: nat, kinds: iset<Data>)
    requires batch > 0
    ensures (forall events :: Arrivals(kinds, events) ==> HandledWithin(codec, max, batch, events))
            <==> Harmless(codec, max, batch, kinds)
  {
    NothingIsBounded(max);
    if Harmless(codec, max, batch, kinds) {
      forall events | Arrivals(kinds, events) ensures HandledWithin(codec, max, batch, events) {
        HarmlessNeverSticks(codec, max, batch, kinds, events);
        LiveSpends(codec, max, batch, NOTHING, events);
      }
    } else {
      var before, e := HarmfulSticks(codec, max, batch, kinds);
      var w := Live(codec, max, batch, NOTHING, before).0;
      LiveStaysBounded(codec, max, batch, NOTHING, before);
      var after := Idling(w.broker, Granted(max, before) + 1);
      StuckForEver(codec, max, batch, w, after, e);
      IdleHandlesSomething(codec, max, batch, w, after);
      LiveJoins(codec, max, batch, NOTHING, before, after);
      GrantedJoins(max, before, after);
      assert !HandledWithin(codec, max, batch, before + after);
    }
  }

  /** No more entries were handled than deliveries are granted to what arrived. */
  ghost predicate HandledWithin(codec: Codec, max: nat, batch: nat, events: seq<Event>) {
    Live(codec, max, batch, NOTHING, events).1 <= Granted(max, events)
  }

  lemma {:induction false} GrantedJoins(max: nat, before: seq<Event>, after: seq<Event>)
    ensures Granted(max, before + after) == Granted(max, before) + Granted(max, after)
  {
    if before == [] {
      assert before + after == after;
    } else {
      assert (before + after)[1..] == before[1..] + after;
      GrantedJoins(max, before[1..], after);
    }
  }
}
