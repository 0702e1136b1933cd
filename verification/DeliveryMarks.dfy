/** Over whole runs: which rows of the outbox are marked, and by what. */
module DeliveryMarks {
  import opened Common
  import opened BookingService
  import opened Delivery
  import Relay = OutboxRelay
  import Batches

  /** A relay commits a pass that has handed over the row with this id. */
  predicate Marks(s: State, step: Step, id: nat) {
    step.Commit? && step.r in s.passes && s.passes[step.r].Passing? && id in s.passes[step.r].batch
  }

  /** One step: rows stay in place with their events, new ones come unmarked under new ids, and a
      row becomes marked exactly by the commit of a pass that holds it. */
  lemma RowAfterStep(codec: Codec, max: nat, s: State, step: Step, n: nat)
    requires Inv(codec, s) && Enabled(s, step) && n < |Outbox(Next(codec, max, s, step))|
    ensures var rows, rows' := Outbox(s), Outbox(Next(codec, max, s, step));
      && |rows| <= |rows'|
      && (n < |rows| ==>
            && rows'[n].event == rows[n].event
            && (!Relay.Unpublished(rows'[n]) <==> !Relay.Unpublished(rows[n]) || Marks(s, step, rows[n].event.id)))
      && (n >= |rows| ==> Relay.Unpublished(rows'[n]) && Fresh(rows, rows'[n].event.id))
  {
    if step.Serve? {
      ServeAppends(s.booking, step.service);
    }
  }

  lemma RowInARun(codec: Codec, max: nat, states: seq<State>, steps: seq<Step>, i: nat, n: nat)
    requires Run(codec, max, states, steps) && i < |steps| && n < |Outbox(states[i + 1])|
    ensures var rows, rows' := Outbox(states[i]), Outbox(states[i + 1]);
      && |rows| <= |rows'|
      && (n < |rows| ==>
            && rows'[n].event == rows[n].event
            && (!Relay.Unpublished(rows'[n]) <==> !Relay.Unpublished(rows[n]) || Marks(states[i], steps[i], rows[n].event.id)))
      && (n >= |rows| ==> Relay.Unpublished(rows'[n]) && Fresh(rows, rows'[n].event.id))
  {
    EveryRunKeeps(codec, max, states, steps, i);
    RowAfterStep(codec, max, states[i], steps[i], n);
  }

  /** Rows stay where they are, with their events. */
  lemma {:induction false} RowsStay(codec: Codec, max: nat, states: seq<State>, steps: seq<Step>, i: nat, j: nat, n: nat)
    requires Run(codec, max, states, steps) && i <= j < |states| && n < |Outbox(states[i])|
    ensures n < |Outbox(states[j])| && Outbox(states[j])[n].event == Outbox(states[i])[n].event
    ensures !Relay.Unpublished(Outbox(states[i])[n]) ==> !Relay.Unpublished(Outbox(states[j])[n])
    decreases j
  {
    if i < j {
      RowsStay(codec, max, states, steps, i, j - 1, n);
      Longer(codec, max, states, steps, j - 1);
      RowInARun(codec, max, states, steps, j - 1, n);
    }
  }

  lemma Longer(codec: Codec, max: nat, states: seq<State>, steps: seq<Step>, i: nat)
    requires Run(codec, max, states, steps) && i < |steps|
    ensures |Outbox(states[i])| <= |Outbox(states[i + 1])|
  {
    EveryRunKeeps(codec, max, states, steps, i);
    if steps[i].Serve? {
      ServeAppends(states[i].booking, steps[i].service);
    }
  }

  /** A pass holds ids of existing rows only. */
  lemma HeldRowExists(codec: Codec, max: nat, states: seq<State>, steps: seq<Step>, m: nat, id: nat) returns (k: nat)
    requires Run(codec, max, states, steps) && m < |steps| && Marks(states[m], steps[m], id)
    ensures k < |Outbox(states[m])| && Outbox(states[m])[k].event.id == id
  {
    EveryRunKeeps(codec, max, states, steps, m);
    assert Relay.HasRow(Outbox(states[m]), id);
    k :| 0 <= k < |Outbox(states[m])| && Outbox(states[m])[k].event.id == id;
  }

  /** No pass has held the id of a row that did not exist yet. */
  lemma NotMarkedBefore(codec: Codec, max: nat, states: seq<State>, steps: seq<Step>, m: nat, i: nat, id: nat)
    requires Run(codec, max, states, steps) && m <= i < |steps| && Fresh(Outbox(states[i]), id)
    ensures !Marks(states[m], steps[m], id)
  {
    if Marks(states[m], steps[m], id) {
      var k := HeldRowExists(codec, max, states, steps, m, id);
      RowsStay(codec, max, states, steps, m, i, k);
    }
  }

  ghost predicate MarkedBefore(states: seq<State>, steps: seq<Step>, i: nat, id: nat) {
    exists m :: 0 <= m < i && m < |states| && m < |steps| && Marks(states[m], steps[m], id)
  }

  /** In every run: a row is marked if and only if some pass that held it was committed. So a row
      whose passes all failed or died is still there for the next relay, however often. */
  lemma {:induction false} MarkedExactlyByCommit(codec: Codec, max: nat, states: seq<State>, steps: seq<Step>, i: nat, n: nat)
    requires Run(codec, max, states, steps) && i < |states| && n < |Outbox(states[i])|
    ensures !Relay.Unpublished(Outbox(states[i])[n]) <==> MarkedBefore(states, steps, i, Outbox(states[i])[n].event.id)
  {
    if i > 0 {
      RowInARun(codec, max, states, steps, i - 1, n);
      var id := Outbox(states[i])[n].event.id;
      if n < |Outbox(states[i - 1])| {
        MarkedExactlyByCommit(codec, max, states, steps, i - 1, n);
        OneMoreStep(states, steps, i, id);
      } else {
        forall m: nat | m < i ensures !Marks(states[m], steps[m], id) {
          NotMarkedBefore(codec, max, states, steps, m, i - 1, id);
        }
      }
    }
  }

  lemma OneMoreStep(states: seq<State>, steps: seq<Step>, i: nat, id: nat)
    requires 0 < i <= |steps| && i < |states|
    ensures MarkedBefore(states, steps, i, id) <==> MarkedBefore(states, steps, i - 1, id) || Marks(states[i - 1], steps[i - 1], id)
  {
    if m :| 0 <= m < i && Marks(states[m], steps[m], id) {
      assert m < i - 1 ==> MarkedBefore(states, steps, i - 1, id);
    }
  }

  // ---- what a relay takes

  /** The row was not published yet, and no relay holds it. */
  ghost predicate Open(s: State, id: nat) {
    && (exists n :: 0 <= n < |Outbox(s)| && Outbox(s)[n].event.id == id && Outbox(s)[n].publishedAt == None)
    && forall r :: r in s.passes && s.passes[r].Passing? ==> id !in s.passes[r].batch
  }

  ghost function AllOpen(s: State): set<nat> {
    set n | 0 <= n < |Outbox(s)| && Open(s, Outbox(s)[n].event.id) :: Outbox(s)[n].event.id
  }

  /** The batch the next relay takes: in order, the open rows with fewer than `limit` others before them. */
  lemma NextBatchExactly(codec: Codec, max: nat, s: State, r: nat, limit: nat)
    requires Enabled(s, Begin(r, limit))
    ensures var pass := Next(codec, max, s, Begin(r, limit)).passes[r];
      pass.Passing? && pass.at == 0 && Batches.FirstOf(pass.batch, AllOpen(s), limit)
  {
    var free := Relay.Eligible(Outbox(s), Batches.Locked(s.passes, RowsOf));
    forall id ensures id in free <==> id in AllOpen(s) {
      HeldMeansLocked(s, id);
      if id in free {
        var n :| 0 <= n < |Outbox(s)| && Outbox(s)[n].publishedAt.None? && Outbox(s)[n].event.id == id;
        assert Open(s, id);
      }
    }
    assert free == AllOpen(s);
    Batches.FirstNIsFirst(free, limit);
  }

  lemma HeldMeansLocked(s: State, id: nat)
    ensures id in Batches.Locked(s.passes, RowsOf)
            <==> exists r :: r in s.passes && s.passes[r].Passing? && id in s.passes[r].batch
  {
    if r :| r in s.passes && s.passes[r].Passing? && id in s.passes[r].batch {
      var i :| 0 <= i < |s.passes[r].batch| && s.passes[r].batch[i] == id;
      assert RowsOf(s.passes[r])[i] == id;
    }
  }

  /** So a row no committed pass has held is in the next batch whose limit reaches it, unless a relay
      holds it just now. */
  lemma UntilThenTaken(codec: Codec, max: nat, states: seq<State>, steps: seq<Step>, i: nat, n: nat, r: nat, limit: nat)
    requires Run(codec, max, states, steps) && i < |states| && n < |Outbox(states[i])| && r !in states[i].passes
    requires !MarkedBefore(states, steps, i, Outbox(states[i])[n].event.id)
    requires |Batches.Smaller(AllOpen(states[i]), Outbox(states[i])[n].event.id)| < limit
    ensures var id := Outbox(states[i])[n].event.id;
      id in Next(codec, max, states[i], Begin(r, limit)).passes[r].batch
      || exists o :: o in states[i].passes && states[i].passes[o].Passing? && id in states[i].passes[o].batch
  {
    MarkedExactlyByCommit(codec, max, states, steps, i, n);
    NextBatchExactly(codec, max, states[i], r, limit);
    assert Outbox(states[i])[n].publishedAt == None;
    var id := Outbox(states[i])[n].event.id;
    if !exists o :: o in states[i].passes && states[i].passes[o].Passing? && id in states[i].passes[o].batch {
      assert Open(states[i], id);
    }
  }

  /** A relay that dies holds nothing any more: what only it held can be taken at once. */
  lemma DeadRelaysHoldNothing(codec: Codec, max: nat, s: State, r: nat, id: nat)
    requires r in s.passes && Enabled(s, CrashRelay(r))
    requires exists n :: 0 <= n < |Outbox(s)| && Outbox(s)[n].event.id == id && Outbox(s)[n].publishedAt == None
    requires forall o :: o in s.passes && o != r && s.passes[o].Passing? ==> id !in s.passes[o].batch
    ensures Open(Next(codec, max, s, CrashRelay(r)), id) && r !in Next(codec, max, s, CrashRelay(r)).passes
  {
    assert Outbox(Next(codec, max, s, CrashRelay(r))) == Outbox(s);
  }
}
