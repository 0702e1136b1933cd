/** What happens to a notification that is done. The last writer wins: one that was sent can be
    marked dead and the reverse, but exactly by the two steps named here. */
module NotifierOverwrites {
  import opened Common
  import opened Paths
  import opened NotifierDomain
  import opened Notifier
  import opened NotifierRuns

  /** The consumer `id` handles an entry of this event and has got to `at`. */
  predicate WorksOn(codec: Codec, s: State, id: nat, key: string) {
    && WorkerOf(s, id).Handling? && WorkerOf(s, id).jobs != []
    && WorkerOf(s, id).jobs[0].entry < |s.w.broker.entries|
    && var reading := ReadData(codec, s.w.broker.entries[WorkerOf(s, id).jobs[0].entry]);
       reading.Readable? && reading.event.eventId == key
  }

  /** A consumer that has put an entry of this event into the dead stream now marks the row. */
  predicate GivesUp(codec: Codec, s: State, step: Step, key: string) {
    step.Act? && WorksOn(codec, s, step.id, key) && WorkerOf(s, step.id).at.DeadAdded? && codec.sendable(key)
  }

  /** A consumer the gateway answered now records the message. */
  predicate RecordsSent(codec: Codec, s: State, step: Step, key: string) {
    step.Act? && WorksOn(codec, s, step.id, key) && WorkerOf(s, step.id).at.Answered?
  }

  predicate Is(s: State, key: string, status: RowStatus) {
    key in s.w.rows && s.w.rows[key].status == status
  }

  /** Exactly which step takes a notification out of `Sent`, which out of `Dead`, and where they lead. */
  lemma OverwrittenExactly(codec: Codec, max: nat, s: State, step: Step, key: string)
    requires Inv(codec, s) && Enabled(s, step)
    ensures var t := Next(codec, max, s, step);
      && (Is(s, key, Sent) ==> if GivesUp(codec, s, step, key) then Is(t, key, Dead) else Is(t, key, Sent))
      && (Is(s, key, Dead) ==> if RecordsSent(codec, s, step, key) then Is(t, key, Sent) else Is(t, key, Dead))
  {
    if step.Act? && (Is(s, key, Sent) || Is(s, key, Dead)) {
      var worker := WorkerOf(s, step.id);
      assert WorkerSound(codec, s.w, worker);
      ActOverwrites(codec, max, s.w, worker.jobs, worker.at, step.answer, key);
    }
  }

  lemma ActOverwrites(codec: Codec, max: nat, w: World, jobs: seq<Job>, at: Point, answer: Answer, key: string)
    requires jobs != [] && jobs[0].entry < |w.broker.entries| && PointSound(codec, w, jobs[0].entry, at)
    requires key in w.rows && !w.rows[key].status.Sending?
    ensures var rows' := Act1(codec, max, w, jobs, at, answer).0.rows;
      var reading := ReadData(codec, w.broker.entries[jobs[0].entry]);
      var mine := reading.Readable? && reading.event.eventId == key;
      && key in rows'
      && rows'[key].status == (if mine && at.DeadAdded? && codec.sendable(key) then Dead
                               else if mine && at.Answered? then Sent
                               else w.rows[key].status)
  {
  }

  lemma OverwrittenInARun(codec: Codec, max: nat, states: seq<State>, steps: seq<Step>, i: nat, key: string)
    requires Run(codec, max, states, steps) && i < |steps|
    ensures Is(states[i], key, Sent) ==>
              if GivesUp(codec, states[i], steps[i], key) then Is(states[i + 1], key, Dead) else Is(states[i + 1], key, Sent)
    ensures Is(states[i], key, Dead) ==>
              if RecordsSent(codec, states[i], steps[i], key) then Is(states[i + 1], key, Sent) else Is(states[i + 1], key, Dead)
  {
    EveryRunKeeps(codec, max, states, steps, i);
    OverwrittenExactly(codec, max, states[i], steps[i], key);
  }

  /** Over any run: what was sent stays sent for as long as nobody gives up an entry of the same
      event, and no longer. */
  lemma {:induction false} SentStaysExactly(codec: Codec, max: nat, states: seq<State>, steps: seq<Step>,
                                            i: nat, j: nat, key: string)
    requires Run(codec, max, states, steps) && i <= j < |states| && Is(states[i], key, Sent)
    ensures (forall m :: i <= m <= j ==> Is(states[m], key, Sent))
            <==> (forall m :: i <= m < j ==> !GivesUp(codec, states[m], steps[m], key))
    decreases j
  {
    if i < j {
      SentStaysExactly(codec, max, states, steps, i, j - 1, key);
      OverwrittenInARun(codec, max, states, steps, j - 1, key);
    }
  }

  /** The same for one that was given up: dead until a slow sender records its message. */
  lemma {:induction false} DeadStaysExactly(codec: Codec, max: nat, states: seq<State>, steps: seq<Step>,
                                            i: nat, j: nat, key: string)
    requires Run(codec, max, states, steps) && i <= j < |states| && Is(states[i], key, Dead)
    ensures (forall m :: i <= m <= j ==> Is(states[m], key, Dead))
            <==> (forall m :: i <= m < j ==> !RecordsSent(codec, states[m], steps[m], key))
    decreases j
  {
    if i < j {
      DeadStaysExactly(codec, max, states, steps, i, j - 1, key);
      OverwrittenInARun(codec, max, states, steps, j - 1, key);
    }
  }

  /** Whatever is overwritten, in no run does a notification that is done go back to being sent. */
  lemma DoneStaysDone(codec: Codec, max: nat, states: seq<State>, steps: seq<Step>, i: nat, j: nat, key: string)
    requires Run(codec, max, states, steps) && i <= j < |states| && IsDone(states[i], key)
    ensures IsDone(states[j], key)
  {
    var done := seq(|states|, k requires 0 <= k < |states| => IsDone(states[k], key));
    forall k: nat | k + 1 < |done| && done[k] ensures done[k + 1] {
      OverwrittenInARun(codec, max, states, steps, k, key);
    }
    OnceAlways(done, i, j);
  }

  predicate IsDone(s: State, key: string) {
    Is(s, key, Sent) || Is(s, key, Dead)
  }

  lemma {:induction false} OnceAlways(flags: seq<bool>, i: nat, j: nat)
    requires i <= j < |flags| && flags[i] && forall k: nat :: k + 1 < |flags| && flags[k] ==> flags[k + 1]
    ensures flags[j]
    decreases j
  {
    if i < j {
      OnceAlways(flags, i, j - 1);
      assert flags[j - 1 + 1];
    }
  }

  /** In every run a notification, once claimed, keeps its event and its text. */
  lemma {:induction false} TextsStay(codec: Codec, max: nat, states: seq<State>, steps: seq<Step>, i: nat, j: nat, key: string)
    requires Run(codec, max, states, steps) && i <= j < |states| && key in states[i].w.rows
    ensures key in states[j].w.rows && SameText(states[i].w.rows[key], states[j].w.rows[key])
    decreases j
  {
    if i < j {
      TextsStay(codec, max, states, steps, i, j - 1, key);
      NeverBackToSending(codec, max, states[j - 1], steps[j - 1], key);
    }
  }

  predicate SameText(a: Notification, b: Notification) {
    a.event == b.event && a.text == b.text
  }

  // ---- two runs

  const KEY := "k"

  const DATA := Example(KEY, "booking.confirmed", "c")

  /** A codec that can read the instant of the example and send its texts. */
  predicate Reads(codec: Codec) {
    && codec.readIso("t").Some?
    && var when := codec.readIso("t").value;
       InsertFits(codec, BookingEvent(KEY, "booking.confirmed", "b", "c", when), Sentence(codec, when, IS_CONFIRMED))
  }

  function TheEvent(codec: Codec): BookingEvent
    requires Reads(codec)
  {
    BookingEvent(KEY, "booking.confirmed", "b", "c", codec.readIso("t").value)
  }

  function TheText(codec: Codec): string
    requires Reads(codec)
  {
    Sentence(codec, codec.readIso("t").value, IS_CONFIRMED)
  }

  lemma DataIsRead(codec: Codec)
    requires Reads(codec)
    ensures ReadData(codec, DATA) == Readable(TheEvent(codec)) && Render(codec, TheEvent(codec)) == Some(TheText(codec))
  {
    ExampleIsRead(codec, KEY, "booking.confirmed", "c");
  }

  ghost predicate InRun(codec: Codec, max: nat, s: State) {
    Reached(Moves(codec, max), START, s)
  }

  lemma OneStep(codec: Codec, max: nat, s: State, step: Step, t: State)
    requires InRun(codec, max, s) && Enabled(s, step) && t == Next(codec, max, s, step)
    ensures InRun(codec, max, t)
  {
    Reach(Moves(codec, max), START, s, step, t);
  }

  /** Such a state is the last one of a run. */
  lemma LastOfARun(codec: Codec, max: nat, s: State) returns (states: seq<State>, steps: seq<Step>)
    requires InRun(codec, max, s)
    ensures Run(codec, max, states, steps) && states[|states| - 1] == s
  {
    steps :| Leads(Moves(codec, max), START, steps, s);
    states := OnTheWay(Moves(codec, max), START, steps, s);
    forall i | 0 <= i < |steps|
      ensures Enabled(states[i], steps[i]) && states[i + 1] == Next(codec, max, states[i], steps[i])
    {
      assert Moves(codec, max)(states[i], steps[i], states[i + 1]);
    }
  }

  // ---- an entry that is claimed again and again

  function Counted(s: State, e: nat, n: nat): State {
    s.(w := s.w.(broker := s.w.broker.(pending := s.w.broker.pending[e := n])))
  }

  predicate Rests(s: State, e: nat) {
    2 in s.workers && s.workers[2].Idle? && e in s.w.broker.pending
  }

  /** Consumer 2 claims the entry. */
  lemma ClaimedAgain(codec: Codec, max: nat, s: State, e: nat)
    requires InRun(codec, max, s) && Rests(s, e)
    ensures var n := s.w.broker.pending[e] + 1;
      InRun(codec, max, Counted(s, e, n).(workers := s.workers[2 := Reading([Job(e, n)])]))
  {
    var n := s.w.broker.pending[e];
    var seen := s.(workers := s.workers[2 := Seen(map[e := n])]);
    OneStep(codec, max, s, Look(2, map[e := n]), seen);
    var claimed := Counted(s, e, n + 1).(workers := s.workers[2 := Reading([Job(e, n + 1)])]);
    assert CountUp(s.w.broker.pending, set x | x in [e]) == s.w.broker.pending[e := n + 1];
    assert ReclaimedJobs(map[e := n], [e]) == [Job(e, n + 1)];
    assert seen.workers[2 := Reading([Job(e, n + 1)])] == claimed.workers;
    OneStep(codec, max, seen, Take(2, [e]), claimed);
  }

  /** It dies before doing anything, as often as you like. */
  lemma {:induction false} Abandoned(codec: Codec, max: nat, s: State, e: nat, n: nat)
    requires InRun(codec, max, s) && Rests(s, e) && s.w.broker.pending[e] <= n
    ensures InRun(codec, max, Counted(s, e, n))
    decreases n
  {
    if s.w.broker.pending[e] == n {
      assert Counted(s, e, n) == s;
    } else {
      Abandoned(codec, max, s, e, n - 1);
      var before := Counted(s, e, n - 1);
      ClaimedAgain(codec, max, before, e);
      var claimed := Counted(before, e, n).(workers := before.workers[2 := Reading([Job(e, n)])]);
      assert before.w.broker.pending[e := n] == s.w.broker.pending[e := n];
      assert claimed.workers[2 := Idle] == s.workers;
      OneStep(codec, max, claimed, Crash(2), Counted(s, e, n));
    }
  }

  /** Once it was delivered often enough, the next claim puts it into the dead stream. */
  lemma GivingUp(codec: Codec, max: nat, s: State, e: nat) returns (t: State)
    requires Reads(codec) && InRun(codec, max, s) && Rests(s, e) && s.w.broker.pending[e] == max
    requires e < |s.w.broker.entries| && s.w.broker.entries[e] == DATA && s.w.broker.delivered <= |s.w.broker.entries|
    ensures InRun(codec, max, t) && t.w.rows == s.w.rows && t.w.broker.entries == s.w.broker.entries
    ensures t.workers == s.workers[2 := Handling([Job(e, max + 1)], DeadAdded(KEY))]
  {
    ClaimedAgain(codec, max, s, e);
    var claimed := Counted(s, e, max + 1).(workers := s.workers[2 := Reading([Job(e, max + 1)])]);
    t := GivingUpAfterClaim(codec, max, claimed, e);
  }

  lemma GivingUpAfterClaim(codec: Codec, max: nat, s: State, e: nat) returns (t: State)
    requires Reads(codec) && InRun(codec, max, s) && 2 in s.workers && s.workers[2] == Reading([Job(e, max + 1)])
    requires e < |s.w.broker.entries| && s.w.broker.entries[e] == DATA && s.w.broker.delivered <= |s.w.broker.entries|
    ensures InRun(codec, max, t) && t.w.rows == s.w.rows && t.w.broker.entries == s.w.broker.entries
    ensures t.workers == s.workers[2 := Handling([Job(e, max + 1)], DeadAdded(KEY))]
  {
    DataIsRead(codec);
    var jobs := [Job(e, max + 1)];
    var w := s.w.(broker := ReadFresh(s.w.broker, 0));
    var handling := State(w, s.workers[2 := Handling(jobs, Point.Start)]);
    assert jobs + FreshJobs(s.w.broker, 0) == jobs;
    OneStep(codec, max, s, Fetch(2, 0), handling);
    t := State(w.(broker := AddDead(w.broker, e)), s.workers[2 := Handling(jobs, DeadAdded(KEY))]);
    assert handling.workers[2 := Handling(jobs, DeadAdded(KEY))] == t.workers;
    OneStep(codec, max, handling, Act(2, Lost), t);
  }

  // ---- a first delivery, up to the answer of the gateway

  const SENT := Delivered("m")

  function Gateway(codec: Codec): Gate
    requires Reads(codec)
  {
    Send(Gate([], {}, []), Call(0, KEY, Message("c", TheText(codec))), SENT)
  }

  /** One entry, in the hands of consumer 1, accepted by the gateway and not yet recorded. */
  function Accepted(codec: Codec): State
    requires Reads(codec)
  {
    State(World(Broker([DATA], 1, map[0 := 1], {}, []),
                map[KEY := Notification(TheEvent(codec), TheText(codec), Sending, 0, None)], Gateway(codec)),
          map[1 := Handling([Job(0, 1)], Answered("m"))])
  }

  lemma FirstEntryFetched(codec: Codec, max: nat)
    ensures InRun(codec, max, State(World(Broker([DATA], 1, map[0 := 1], {}, []), map[], Gate([], {}, [])),
                                    map[1 := Handling([Job(0, 1)], Point.Start)]))
  {
    Paths.Start(Moves(codec, max), START);
    var w0 := World(Broker([DATA], 0, map[], {}, []), map[], Gate([], {}, []));
    OneStep(codec, max, START, Publish(DATA), State(w0, map[]));
    OneStep(codec, max, State(w0, map[]), Look(1, map[]), State(w0, map[1 := Seen(map[])]));
    assert (set e: nat | e in []) == {} && CountUp(map[], {}) == map[] && ReclaimedJobs(map[], []) == [];
    OneStep(codec, max, State(w0, map[1 := Seen(map[])]), Take(1, []), State(w0, map[1 := Reading([])]));
    var fetched := World(Broker([DATA], 1, map[0 := 1], {}, []), map[], Gate([], {}, []));
    assert [] + FreshJobs(w0.broker, 1) == [Job(0, 1)];
    assert ReadFresh(w0.broker, 1) == fetched.broker;
    OneStep(codec, max, State(w0, map[1 := Reading([])]), Fetch(1, 1),
            State(fetched, map[1 := Handling([Job(0, 1)], Point.Start)]));
  }

  lemma FirstEntryAccepted(codec: Codec, max: nat)
    requires Reads(codec) && max >= 1
    ensures InRun(codec, max, Accepted(codec))
  {
    FirstEntryFetched(codec, max);
    DataIsRead(codec);
    var b, jobs := Broker([DATA], 1, map[0 := 1], {}, []), [Job(0, 1)];
    var start := State(World(b, map[], Gate([], {}, [])), map[1 := Handling(jobs, Point.Start)]);
    var rows := map[KEY := Notification(TheEvent(codec), TheText(codec), Sending, 0, None)];
    var claimed := State(World(b, rows, Gate([], {}, [])), map[1 := Handling(jobs, Sendable(TheText(codec)))]);
    OneStep(codec, max, start, Act(1, Lost), claimed);
    OneStep(codec, max, claimed, Act(1, SENT), Accepted(codec));
  }

  // ---- a notification that was given up is marked as sent

  /** A slow consumer records its message after another one has given the entry up. */
  lemma DeadBecomesSent(codec: Codec, max: nat) returns (states: seq<State>, steps: seq<Step>)
    requires Reads(codec) && max >= 1
    ensures Run(codec, max, states, steps) && |steps| > 0
    ensures Is(states[|steps| - 1], KEY, Dead) && Is(states[|steps|], KEY, Sent)
  {
    FirstEntryAccepted(codec, max);
    var s := Accepted(codec).(workers := Accepted(codec).workers[2 := Idle]);
    OneStep(codec, max, Accepted(codec), Crash(2), s);
    Abandoned(codec, max, s, 0, max);
    var giving := GivingUp(codec, max, Counted(s, 0, max), 0);
    var t := MarksDead(codec, max, giving, 0);
    states, steps := LastOfARun(codec, max, t);
    RecordsLate(codec, max, t);
    steps := steps + [Act(1, Lost)];
    states := states + [Next(codec, max, t, Act(1, Lost))];
  }

  lemma MarksDead(codec: Codec, max: nat, s: State, e: nat) returns (t: State)
    requires Reads(codec) && InRun(codec, max, s) && e < |s.w.broker.entries| && s.w.broker.entries[e] == DATA
    requires 2 in s.workers && s.workers[2] == Handling([Job(e, max + 1)], DeadAdded(KEY)) && KEY in s.w.rows
    ensures InRun(codec, max, t) && Is(t, KEY, Dead) && t.w.broker.entries == s.w.broker.entries
    ensures t.workers == s.workers[2 := Handling([Job(e, max + 1)], Ackable)]
  {
    DataIsRead(codec);
    t := State(s.w.(rows := MarkDead(s.w.rows, KEY)), s.workers[2 := Handling([Job(e, max + 1)], Ackable)]);
    OneStep(codec, max, s, Act(2, Lost), t);
  }

  lemma MarksDeadNext(codec: Codec, max: nat, s: State, e: nat)
    requires Reads(codec) && e < |s.w.broker.entries| && s.w.broker.entries[e] == DATA && KEY in s.w.rows
    requires 2 in s.workers && s.workers[2] == Handling([Job(e, max + 1)], DeadAdded(KEY))
    ensures Enabled(s, Act(2, Lost)) && Is(Next(codec, max, s, Act(2, Lost)), KEY, Dead)
  {
    DataIsRead(codec);
  }

  lemma RecordsLate(codec: Codec, max: nat, s: State)
    requires Reads(codec) && 1 in s.workers && s.workers[1] == Handling([Job(0, 1)], Answered("m"))
    requires 0 < |s.w.broker.entries| && s.w.broker.entries[0] == DATA && Is(s, KEY, Dead)
    ensures Enabled(s, Act(1, Lost)) && Is(Next(codec, max, s, Act(1, Lost)), KEY, Sent)
  {
    DataIsRead(codec);
  }

  // ---- a notification that was sent is marked as dead

  /** The first entry is done with; a second one carries the same event. */
  function Repeated(codec: Codec): State
    requires Reads(codec)
  {
    State(World(Broker([DATA, DATA], 2, map[1 := 1], {0}, []),
                map[KEY := Notification(TheEvent(codec), TheText(codec), Sent, 0, Some("m"))], Gateway(codec)),
          map[1 := Idle, 2 := Idle])
  }

  lemma SecondEntryAbandoned(codec: Codec, max: nat)
    requires Reads(codec) && max >= 1
    ensures InRun(codec, max, Repeated(codec))
  {
    FirstEntrySent(codec, max);
    var rows := Repeated(codec).w.rows;
    var done := World(Broker([DATA], 1, map[], {0}, []), rows, Gateway(codec));
    var w0 := World(Broker([DATA, DATA], 1, map[], {0}, []), rows, Gateway(codec));
    OneStep(codec, max, State(done, map[1 := Idle]), Publish(DATA), State(w0, map[1 := Idle]));
    OneStep(codec, max, State(w0, map[1 := Idle]), Look(2, map[]), State(w0, map[1 := Idle, 2 := Seen(map[])]));
    assert (set e: nat | e in []) == {} && CountUp(map[], {}) == map[] && ReclaimedJobs(map[], []) == [];
    OneStep(codec, max, State(w0, map[1 := Idle, 2 := Seen(map[])]), Take(2, []), State(w0, map[1 := Idle, 2 := Reading([])]));
    SecondEntryFetched(codec, max, w0);
  }

  lemma SecondEntryFetched(codec: Codec, max: nat, w0: World)
    requires Reads(codec) && InRun(codec, max, State(w0, map[1 := Idle, 2 := Reading([])]))
    requires w0 == World(Broker([DATA, DATA], 1, map[], {0}, []), Repeated(codec).w.rows, Gateway(codec))
    ensures InRun(codec, max, Repeated(codec))
  {
    var w := Repeated(codec).w;
    var jobs := [Job(1, 1)];
    assert [] + FreshJobs(w0.broker, 1) == jobs && ReadFresh(w0.broker, 1) == w.broker;
    OneStep(codec, max, State(w0, map[1 := Idle, 2 := Reading([])]), Fetch(2, 1),
            State(w, map[1 := Idle, 2 := Handling(jobs, Point.Start)]));
    OneStep(codec, max, State(w, map[1 := Idle, 2 := Handling(jobs, Point.Start)]), Crash(2), Repeated(codec));
  }

  function Marked(codec: Codec): State
    requires Reads(codec)
  {
    State(World(Broker([DATA], 1, map[0 := 1], {}, []), Repeated(codec).w.rows, Gateway(codec)),
          map[1 := Handling([Job(0, 1)], Ackable)])
  }

  lemma FirstEntryMarked(codec: Codec, max: nat)
    requires Reads(codec) && max >= 1
    ensures InRun(codec, max, Marked(codec))
  {
    FirstEntryAccepted(codec, max);
    DataIsRead(codec);
    OneStep(codec, max, Accepted(codec), Act(1, Lost), Marked(codec));
  }

  lemma FirstEntrySent(codec: Codec, max: nat)
    requires Reads(codec) && max >= 1
    ensures InRun(codec, max, State(World(Broker([DATA], 1, map[], {0}, []), Repeated(codec).w.rows, Gateway(codec)), map[1 := Idle]))
  {
    FirstEntryMarked(codec, max);
    DataIsRead(codec);
    OneStep(codec, max, Marked(codec), Act(1, Lost),
            State(World(Broker([DATA], 1, map[], {0}, []), Repeated(codec).w.rows, Gateway(codec)), map[1 := Idle]));
  }

  /** The event was sent; a second entry of it, claimed too often, marks the notification as dead. */
  lemma SentBecomesDead(codec: Codec, max: nat) returns (states: seq<State>, steps: seq<Step>)
    requires Reads(codec) && max >= 1
    ensures Run(codec, max, states, steps) && |steps| > 0
    ensures Is(states[|steps| - 1], KEY, Sent) && Is(states[|steps|], KEY, Dead)
  {
    SecondEntryAbandoned(codec, max);
    Abandoned(codec, max, Repeated(codec), 1, max);
    var giving := GivingUp(codec, max, Counted(Repeated(codec), 1, max), 1);
    states, steps := LastOfARun(codec, max, giving);
    MarksDeadNext(codec, max, giving, 1);
    steps := steps + [Act(2, Lost)];
    states := states + [Next(codec, max, giving, Act(2, Lost))];
  }
}
