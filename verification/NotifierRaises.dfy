/** What an entry that raises does to the others. The exception ends the cycle: what was claimed
    together with the entry is not handled, and is delivered once more for nothing. */
module NotifierRaises {
  import opened Common
  import opened NotifierDomain
  import opened Batches
  import opened Notifier
  import opened NotifierRetries
  import opened NotifierSettles
  import Runs = NotifierRuns

  /** With any number of consumers, whatever they do: a hopeless payload is acknowledged in no run. */
  lemma HopelessIsNeverAcknowledged(codec: Codec, max: nat, states: seq<Runs.State>, steps: seq<Runs.Step>, i: nat, e: nat)
    requires Runs.Run(codec, max, states, steps) && i < |states|
    requires e < |states[i].w.broker.entries| && Hopeless(codec, states[i].w.broker.entries[e])
    ensures e !in states[i].w.broker.acked
  {
    Runs.EveryRunKeeps(codec, max, states, steps, i);
    assert e in states[i].w.broker.acked ==> Runs.Accounted(codec, states[i].w.broker, states[i].w.gate.keys, e);
  }

  // ---- payloads of each kind

  /** The inputs: JSON that is no object, or that is nested too deeply, or with an event id that
      cannot be sent; the same id in an event of an unknown type; a client id that is too long. */
  lemma OneOfEachKind(codec: Codec, raw: string, id: string, client: string)
    requires codec.readIso("t").Some? && id != "" && !codec.sendable(id)
    requires codec.sendable("k") && |client| > 64
    ensures Hopeless(codec, NotObject(raw)) && Hopeless(codec, TooDeep(raw))
    ensures Hopeless(codec, Example(id, "booking.confirmed", "c"))
    ensures Perishable(codec, Example(id, "booking.moved", "c"))
    ensures Unfit(codec, Example("k", "booking.confirmed", client))
  {
    ExampleIsRead(codec, id, "booking.confirmed", "c");
    ExampleIsRead(codec, id, "booking.moved", "c");
    ExampleIsRead(codec, "k", "booking.confirmed", client);
    assert "booking.moved"[8] != "booking.confirmed"[8] && "booking.moved"[8] != "booking.cancelled"[8];
    assert "booking.moved"[8] != "booking.expired"[8];
  }

  // ---- what happens to the entries behind it

  /** The entry is pending as before, and no call was made for it. */
  predicate Untouched(w: World, w': World, e: nat) {
    && (e in w'.broker.acked <==> e in w.broker.acked) && CallsFor(w'.gate.calls, e) == CallsFor(w.gate.calls, e)
  }

  /** The first job that raises. */
  ghost predicate RaisesFirst(codec: Codec, max: nat, entries: seq<Data>, jobs: seq<Job>, k: nat)
    requires JobsExist(entries, jobs)
  {
    && k < |jobs| && Throws(codec, max, entries[jobs[k].entry], jobs[k].deliveries)
    && forall i :: 0 <= i < k ==> !Throws(codec, max, entries[jobs[i].entry], jobs[i].deliveries)
  }

  /** The first job that raises ends the cycle. What was claimed behind it counts as delivered once
      more, and nothing else happens to it: no call, no acknowledgement. */
  lemma BehindTheRaiser(codec: Codec, max: nat, batch: nat, w: World, idle: set<nat>, answers: nat -> Answer, k: nat)
    requires Bounded(w, max, {}) && RaisesFirst(codec, max, w.broker.entries, TakeWork(w.broker, idle, batch).1, k)
    ensures var jobs := TakeWork(w.broker, idle, batch).1;
      var (w', outcomes) := Cycle(codec, max, batch, w, idle, answers);
      && |outcomes| == k + 1
      && forall i :: k <= i < |jobs| ==>
           Untouched(w, w', jobs[i].entry) && Count(w'.broker, jobs[i].entry) == Count(w.broker, jobs[i].entry) + 1
  {
    var (b', jobs) := TakeWork(w.broker, idle, batch);
    TakeWorkBounds(w, max, idle, batch);
    HandlesUpTo(codec, max, w.(broker := b'), jobs, answers, 0, k);
    assert forall i :: 0 <= i < |jobs| ==> jobs[i].entry in EntriesOf(jobs);
  }

  lemma {:induction false} HandlesUpTo(codec: Codec, max: nat, w: World, jobs: seq<Job>, answers: nat -> Answer, from: nat, k: nat)
    requires Bounded(w, max, EntriesOf(jobs)) && JobsMatch(w.broker, jobs) && JobsExist(w.broker.entries, jobs)
    requires RaisesFirst(codec, max, w.broker.entries, jobs, k)
    ensures var (w', outcomes) := HandleAll(codec, max, w, jobs, answers, from);
      && |outcomes| == k + 1
      && forall i :: k <= i < |jobs| ==>
           Untouched(w, w', jobs[i].entry) && Count(w'.broker, jobs[i].entry) == Count(w.broker, jobs[i].entry)
    decreases k
  {
    var e, rest := jobs[0].entry, jobs[1..];
    ThrowsExactly(codec, max, w, e, jobs[0].deliveries, answers(from));
    HandlesFirst(codec, max, w, jobs, answers(from));
    var w1 := Handle(codec, max, w, e, jobs[0].deliveries, answers(from)).0;
    if k > 0 {
      HandlesUpTo(codec, max, w1, rest, answers, from + 1, k - 1);
      forall i | k <= i < |jobs| ensures jobs[i] == rest[i - 1] && Untouched(w, w1, jobs[i].entry) {}
    } else {
      HandleShape(codec, max, w, e, jobs[0].deliveries, answers(from));
      RaisingAsksNothing(codec, max, w, e, jobs[0].deliveries, answers(from));
    }
  }

  lemma RaisingAsksNothing(codec: Codec, max: nat, w: World, e: nat, deliveries: nat, answer: Answer)
    requires e < |w.broker.entries| && Throws(codec, max, w.broker.entries[e], deliveries)
    ensures Handle(codec, max, w, e, deliveries, answer).0.gate == w.gate
  {
  }

  // ---- the entries in front

  /** A hopeless payload at the head of the pending list. */
  ghost predicate HeadHopeless(codec: Codec, b: Broker, e: nat) {
    e in b.pending && e < |b.entries| && Hopeless(codec, b.entries[e]) && forall x :: x in b.pending ==> e <= x
  }

  function Beyond(n: nat, max: nat): nat {
    if n > max then n - max else 0
  }

  /** How often the next `n` deliveries of `e` put it into the dead stream: each one beyond the limit
      does, if the payload can be read at all. */
  function Copies(codec: Codec, max: nat, b: Broker, e: nat, n: nat): nat
    requires e < |b.entries|
  {
    if ReadData(codec, b.entries[e]).Raises? then 0 else Beyond(Count(b, e) + n, max) - Beyond(Count(b, e), max)
  }

  function Times(entry: DeadEntry, n: nat): seq<DeadEntry> {
    if n == 0 then [] else [entry] + Times(entry, n - 1)
  }

  lemma {:induction false} TimesJoin(entry: DeadEntry, n: nat, m: nat)
    ensures Times(entry, n) + Times(entry, m) == Times(entry, n + m)
  {
    if n > 0 {
      TimesJoin(entry, n - 1, m);
    } else {
      assert [] + Times(entry, m) == Times(entry, m);
    }
  }

  /** Nothing was settled, nobody was asked, these entries were delivered `n` times more, and the
      dead stream has got nothing but that many copies of `e`. */
  ghost predicate OnlyCounted(w: World, w': World, e: nat, copies: nat, entries: seq<nat>, n: nat)
    requires e < |w.broker.entries|
  {
    && w'.rows == w.rows && w'.gate == w.gate && w'.broker.acked == w.broker.acked
    && w'.broker.dead == w.broker.dead + Times(DeadEntry(e, w.broker.entries[e]), copies)
    && forall x :: x in entries ==> Count(w'.broker, x) == Count(w.broker, x) + n
  }

  /** The head is still there, and `n` deliveries of it and of those claimed with it were all there was. */
  ghost predicate Blocked(codec: Codec, max: nat, batch: nat, w: World, w': World, e: nat, n: nat)
    requires e < |w.broker.entries|
  {
    && HeadHopeless(codec, w'.broker, e) && w'.broker.entries == w.broker.entries
    && OnlyCounted(w, w', e, Copies(codec, max, w.broker, e, n), FirstN(w.broker.pending.Keys, batch), n)
  }

  /** As long as it is there, cycles that find everything idle settle nothing at all and ask the
      gateway nothing, while the delivery counters of it and of the entries claimed with it grow by
      one each time - past the limit, at which they will be given up without a single attempt. */
  lemma {:induction false} HeadBlocksTheRest(codec: Codec, max: nat, batch: nat, w: World, events: seq<Event>, e: nat)
    requires WellFormed(w.broker) && batch > 0 && HeadHopeless(codec, w.broker, e) && IdleCycles(w.broker, events)
    ensures var (w', handled) := Live(codec, max, batch, w, events);
      handled == |events| && Blocked(codec, max, batch, w, w', e, |events|)
    decreases |events|
  {
    if events == [] {
      assert Times(DeadEntry(e, w.broker.entries[e]), 0) == [];
    } else {
      RestIdle(w.broker, events);
      HeadBlocksOnce(codec, max, batch, w, events[0].idle, events[0].answers, e);
      var w1 := Cycle(codec, max, batch, w, events[0].idle, events[0].answers).0;
      HeadBlocksTheRest(codec, max, batch, w1, events[1..], e);
      BlockedJoins(codec, max, batch, w, w1, Live(codec, max, batch, w1, events[1..]).0, e, |events| - 1);
    }
  }

  lemma BlockedJoins(codec: Codec, max: nat, batch: nat, w: World, w1: World, w2: World, e: nat, n: nat)
    requires batch > 0 && HeadHopeless(codec, w.broker, e) && w1.broker.entries == w.broker.entries
    requires Blocked(codec, max, batch, w, w1, e, 1) && Blocked(codec, max, batch, w1, w2, e, n)
    requires forall x :: x in FirstN(w.broker.pending.Keys, batch) ==> x in FirstN(w1.broker.pending.Keys, batch)
    ensures Blocked(codec, max, batch, w, w2, e, n + 1)
  {
    HeadComesFirst(w.broker, batch, e);
    CountsJoin(codec, max, w, w1, w2, e, FirstN(w.broker.pending.Keys, batch), FirstN(w1.broker.pending.Keys, batch), n);
  }

  lemma CountsJoin(codec: Codec, max: nat, w: World, w1: World, w2: World, e: nat, firsts: seq<nat>, more: seq<nat>, n: nat)
    requires e < |w.broker.entries| && w1.broker.entries == w.broker.entries && e in firsts
    requires OnlyCounted(w, w1, e, Copies(codec, max, w.broker, e, 1), firsts, 1)
    requires OnlyCounted(w1, w2, e, Copies(codec, max, w1.broker, e, n), more, n)
    requires forall x :: x in firsts ==> x in more
    ensures OnlyCounted(w, w2, e, Copies(codec, max, w.broker, e, n + 1), firsts, n + 1)
  {
    TimesJoin(DeadEntry(e, w.broker.entries[e]), Copies(codec, max, w.broker, e, 1), Copies(codec, max, w1.broker, e, n));
  }

  lemma HeadComesFirst(b: Broker, batch: nat, e: nat)
    requires batch > 0 && e in b.pending && forall x :: x in b.pending ==> e <= x
    ensures |FirstN(b.pending.Keys, batch)| > 0 && FirstN(b.pending.Keys, batch)[0] == e
  {
  }

  lemma HeadBlocksOnce(codec: Codec, max: nat, batch: nat, w: World, idle: set<nat>, answers: nat -> Answer, e: nat)
    requires WellFormed(w.broker) && batch > 0 && HeadHopeless(codec, w.broker, e) && AllIdle(w.broker, idle)
    ensures var (w', outcomes) := Cycle(codec, max, batch, w, idle, answers);
      && |outcomes| == 1 && Blocked(codec, max, batch, w, w', e, 1)
      && (forall x :: x in FirstN(w.broker.pending.Keys, batch) ==> x in FirstN(w'.broker.pending.Keys, batch))
  {
    var (b', jobs) := TakeWork(w.broker, idle, batch);
    HeadIsClaimed(w.broker, idle, batch, e);
    HopelessHandled(codec, max, w.(broker := b'), e, jobs[0].deliveries, answers(0));
    var (w', outcomes) := HandleAll(codec, max, w.(broker := b'), jobs, answers, 0);
    assert w'.broker.pending == b'.pending && outcomes == [Raised];
  }

  lemma HeadIsClaimed(b: Broker, idle: set<nat>, batch: nat, e: nat)
    requires WellFormed(b) && batch > 0 && e in b.pending && (forall x :: x in b.pending ==> e <= x) && AllIdle(b, idle)
    ensures var (b', jobs) := TakeWork(b, idle, batch);
      && |jobs| > 0 && jobs[0] == Job(e, Count(b, e) + 1) && b'.acked == b.acked && b'.dead == b.dead
      && e in b'.pending && (forall x :: x in b'.pending ==> e <= x)
      && (forall x :: x in FirstN(b.pending.Keys, batch) ==> Count(b', x) == Count(b, x) + 1)
      && forall x :: x in FirstN(b.pending.Keys, batch) ==> x in FirstN(b'.pending.Keys, batch)
  {
    assert b.pending.Keys * idle == b.pending.Keys;
    FirstNIsPrefix(b.pending.Keys, batch);
    HeadComesFirst(b, batch, e);
    StaysFirst(b.pending.Keys, TakeWork(b, idle, batch).0.pending.Keys, batch);
  }

  lemma HopelessHandled(codec: Codec, max: nat, w: World, e: nat, deliveries: nat, answer: Answer)
    requires e < |w.broker.entries| && Hopeless(codec, w.broker.entries[e])
    ensures var copies := if ReadData(codec, w.broker.entries[e]).Raises? || deliveries <= max then 0 else 1;
      Handle(codec, max, w, e, deliveries, answer)
      == (w.(broker := w.broker.(dead := w.broker.dead + Times(DeadEntry(e, w.broker.entries[e]), copies))), Raised)
  {
    assert w.broker.dead + Times(DeadEntry(e, w.broker.entries[e]), 0) == w.broker.dead;
    assert Times(DeadEntry(e, w.broker.entries[e]), 1) == [DeadEntry(e, w.broker.entries[e])];
  }

  /** Larger elements change nothing about who comes first. */
  lemma {:induction false} StaysFirst(s: set<nat>, more: set<nat>, n: nat)
    requires s <= more && forall x, y :: x in s && y in more && y !in s ==> x < y
    ensures forall x :: x in FirstN(s, n) ==> x in FirstN(more, n)
  {
    if n > 0 && s != {} {
      assert Least(more) == Least(s);
      StaysFirst(s - {Least(s)}, more - {Least(s)}, n - 1);
    }
  }

  // ---- the message that is never sent

  /** The notifier can read the message, and find its row. */
  predicate InOrder(codec: Codec, data: Data) {
    ReadData(codec, data).Readable? && codec.sendable(ReadData(codec, data).event.eventId)
  }

  /** A cycle that finds `x` idle after too many deliveries gives it up without asking the gateway. */
  lemma GivesUpOverdue(codec: Codec, max: nat, batch: nat, w: World, x: nat, answers: nat -> Answer)
    requires Bounded(w, max, {}) && batch > 0 && x in w.broker.pending && w.broker.pending[x] >= max
    requires InOrder(codec, w.broker.entries[x])
    ensures var w' := Cycle(codec, max, batch, w, {x}, answers).0;
      && x in w'.broker.acked && DeadEntry(x, w.broker.entries[x]) in w'.broker.dead
      && CallsFor(w'.gate.calls, x) == CallsFor(w.gate.calls, x)
  {
    var (b', jobs) := TakeWork(w.broker, {x}, batch);
    var taken := w.(broker := b');
    TakeWorkBounds(w, max, {x}, batch);
    OnlyOneDue(w.broker, x, batch);
    HandlesFirst(codec, max, taken, jobs, answers(0));
    HandleAsks(codec, max, taken, x, jobs[0].deliveries, answers(0));
    var (w1, outcome) := Handle(codec, max, taken, x, jobs[0].deliveries, answers(0));
    assert outcome == WentDead && w1.gate == w.gate && x in w1.broker.acked;
    var dead := w1.broker.dead;
    assert dead[|dead| - 1] == DeadEntry(x, w.broker.entries[x]);
    HandleAllKeepsBound(codec, max, w1, jobs[1..], answers, 1);
    var w' := HandleAll(codec, max, w1, jobs[1..], answers, 1).0;
    assert x !in EntriesOf(jobs[1..]) && w'.broker.dead[|dead| - 1] == dead[|dead| - 1];
  }

  lemma OnlyOneDue(b: Broker, x: nat, batch: nat)
    requires WellFormed(b) && batch > 0 && x in b.pending
    ensures var jobs := TakeWork(b, {x}, batch).1; |jobs| > 0 && jobs[0] == Job(x, b.pending[x] + 1)
  {
    assert b.pending.Keys * {x} == {x};
    FirstNIsPrefix({x}, batch);
    assert Overdue(b, {x}, batch)[0] in {x};
  }

  /** So a message that was in order, and in front, is lost to its client: after as many such cycles as
      the limit, the next one that gets as far as this entry acknowledges it as dead, and not one
      more request was made for it. */
  lemma GivenUpUnsent(codec: Codec, max: nat, batch: nat, w: World, events: seq<Event>, e: nat, x: nat, answers: nat -> Answer)
    requires Bounded(w, max, {}) && batch > 0 && HeadHopeless(codec, w.broker, e) && IdleCycles(w.broker, events)
    requires x in FirstN(w.broker.pending.Keys, batch) && |events| >= max
    requires x < |w.broker.entries| && InOrder(codec, w.broker.entries[x])
    ensures var w' := Live(codec, max, batch, w, events + [Cycles({x}, answers)]).0;
      && x in w'.broker.acked && DeadEntry(x, w.broker.entries[x]) in w'.broker.dead
      && CallsFor(w'.gate.calls, x) == CallsFor(w.gate.calls, x)
  {
    HeadBlocksTheRest(codec, max, batch, w, events, e);
    LiveStaysBounded(codec, max, batch, w, events);
    var w1 := Live(codec, max, batch, w, events).0;
    FirstNIsPrefix(w.broker.pending.Keys, batch);
    StillPending(w, w1, max, x);
    GivesUpOverdue(codec, max, batch, w1, x, answers);
    LiveJoins(codec, max, batch, w, events, [Cycles({x}, answers)]);
    OneCycle(codec, max, batch, w1, {x}, answers);
  }

  lemma StillPending(w: World, w': World, max: nat, x: nat)
    requires Bounded(w, max, {}) && Bounded(w', max, {}) && x in w.broker.pending
    requires w'.broker.acked == w.broker.acked && Count(w'.broker, x) >= Count(w.broker, x)
    ensures x in w'.broker.pending
  {
    assert EntryBounded(w.broker, CallsFor(w.gate.calls, x), max, false, x);
  }

  /** It happens: whatever hopeless payload comes first and whatever message in order comes next,
      there are events after which the second is given up and nobody was ever asked to send it. */
  lemma NeverAskedFor(codec: Codec, max: nat, batch: nat, first: Data, second: Data) returns (events: seq<Event>)
    requires batch >= 2 && max >= 1 && Hopeless(codec, first) && InOrder(codec, second)
    ensures var w := Live(codec, max, batch, NOTHING, events).0;
      && w.broker.entries == [first, second] && 1 in w.broker.acked && DeadEntry(1, second) in w.broker.dead
      && CallsFor(w.gate.calls, 1) == 0
  {
    events := PairWaits(codec, max, batch, iset{first, second}, first, second, max);
    NothingIsBounded(max);
    LiveStaysBounded(codec, max, batch, NOTHING, events);
    var w := Paired(first, second, max);
    GivesUpOverdue(codec, max, batch, w, 1, NoAnswer());
    CycleFollows(codec, max, batch, iset{first, second}, events, w, {1}, NoAnswer());
    events := events + [Cycles({1}, NoAnswer())];
  }
}
