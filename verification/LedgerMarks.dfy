/** Which commands the payments relays take, and what marks them, over whole runs. */
module LedgerMarks {
  import opened Common
  import opened Paths
  import opened PaymentsService
  import opened Ledger
  import opened LedgerRules
  import opened LedgerRuns
  import Batches
  import PaymentsDesk

  // ---- what a relay takes

  /** The command was not carried out yet, and no relay is at it. */
  ghost predicate Open(s: State, c: nat) {
    && c in s.t.outbox && s.t.outbox[c].publishedAt == None
    && forall r :: r in s.passes && s.passes[r].Passing? ==> c !in s.passes[r].batch
  }

  ghost function AllOpen(s: State): set<nat> {
    set c | c in s.t.outbox && Open(s, c)
  }

  /** The batch the next relay takes: in order, the open commands with fewer than `limit` others
      before them, whatever they order. A marked or locked one is never taken, and an open one is
      as soon as the limit lets it. */
  lemma NextBatchExactly(s: State, r: nat, limit: nat)
    requires Enabled(s, Begin(r, limit))
    ensures var pass := Next(s, Begin(r, limit)).passes[r];
      && pass.Passing? && pass.done == [] && pass.asking == None
      && Batches.FirstOf(pass.batch, AllOpen(s), limit)
  {
    var free := Eligible(s.t, Batches.Locked(s.passes, RowsOf));
    forall c ensures c in free <==> Open(s, c) {
      if c in s.t.outbox {
        OpenMeansUnlocked(s, c);
      }
    }
    assert free == AllOpen(s);
    Batches.FirstNIsFirst(free, limit);
  }

  lemma OpenMeansUnlocked(s: State, c: nat)
    ensures c in Batches.Locked(s.passes, RowsOf)
            <==> exists r :: r in s.passes && s.passes[r].Passing? && c in s.passes[r].batch
  {
    if r :| r in s.passes && s.passes[r].Passing? && c in s.passes[r].batch {
      var i :| 0 <= i < |s.passes[r].batch| && s.passes[r].batch[i] == c;
      assert RowsOf(s.passes[r])[i] == c;
    }
  }

  // ---- what marks a command

  /** A relay commits a pass that holds the command. */
  predicate Marks(s: State, step: Step, c: nat) {
    step.Commit? && step.r in s.passes && s.passes[step.r].Passing? && c in s.passes[step.r].batch
  }

  predicate Marked(t: Tables, c: nat) {
    c in t.outbox && t.outbox[c].publishedAt.Some?
  }

  /** One step: commands stay, new ones come unmarked, and a command becomes marked
      exactly by the commit of a pass that holds it. */
  lemma RowAfterStep(s: State, step: Step, c: nat)
    requires Inv(s) && Enabled(s, step)
    ensures var t, t' := s.t, Next(s, step).t;
      && (c in t.outbox ==> c in t'.outbox && t'.outbox[c].command == t.outbox[c].command)
      && (Marked(t', c) <==> Marked(t, c) || Marks(s, step, c))
  {
    match step {
      case Commit(r, now) => CommitMarks(s, r, now, c);
      case Webhook(event, eventType, reference, id) =>
        WebhookMarksNothing(s.t, event, eventType, reference, id, c);
      case NoteFailure(r) => FailureMarksNothing(s.t, s.passes[r].id, c);
      case _ => assert Next(s, step).t.outbox == s.t.outbox;
    }
  }

  lemma WebhookMarksNothing(t: Tables, event: string, eventType: string, reference: Option<nat>, id: nat, c: nat)
    requires id !in t.outbox
    ensures var t' := HandleWebhook(t, event, eventType, reference, id).0;
      (Marked(t', c) <==> Marked(t, c)) && (c in t.outbox ==> c in t'.outbox && t'.outbox[c].command == t.outbox[c].command)
  {
  }

  lemma FailureMarksNothing(t: Tables, failed: nat, c: nat)
    ensures var t' := CountFailure(t, failed);
      (Marked(t', c) <==> Marked(t, c)) && (c in t.outbox ==> c in t'.outbox && t'.outbox[c].command == t.outbox[c].command)
  {
  }

  lemma CommitMarks(s: State, r: nat, now: int, c: nat)
    requires Inv(s) && Enabled(s, Commit(r, now))
    ensures var t, t' := s.t, Next(s, Commit(r, now)).t;
      && (c in t.outbox ==> c in t'.outbox && t'.outbox[c].command == t.outbox[c].command)
      && (Marked(t', c) <==> Marked(t, c) || c in s.passes[r].batch)
  {
    var pass := s.passes[r];
    assert PassSound(s.t, s.ps.refunds, s.booking.db.outbox, s.booking.requests, pass);
    SettleAllKeeps(s.t, s.ps.refunds, s.booking.db.outbox, pass.batch, pass.done, now);
    assert pass.batch[..|pass.done|] == pass.batch;
    if c in s.t.outbox {
      PaymentsDesk.SettledRow(s.t, pass.batch, pass.done, now, c);
    } else {
      NewRowsAreOpen(s.t, pass.batch, pass.done, now, c);
    }
  }

  lemma {:induction false} NewRowsAreOpen(t: Tables, batch: seq<nat>, done: seq<Outcome>, now: int, c: nat)
    requires |done| <= |batch| && (forall d :: d in batch ==> d in t.outbox) && c !in t.outbox
    ensures !Marked(SettleAll(t, batch, done, now), c)
    decreases |done|
  {
    if done != [] {
      NewRowsAreOpen(t, batch, done[..|done| - 1], now, c);
      assert batch[|done| - 1] in batch;
    }
  }

  lemma RowInARun(serial: bool, states: seq<State>, steps: seq<Step>, n: nat, c: nat)
    requires Run(serial, states, steps) && n < |steps|
    ensures var t, t' := states[n].t, states[n + 1].t;
      && (c in t.outbox ==> c in t'.outbox && t'.outbox[c].command == t.outbox[c].command)
      && (Marked(t', c) <==> Marked(t, c) || Marks(states[n], steps[n], c))
  {
    EveryRunKeeps(serial, states, steps, n);
    RowAfterStep(states[n], steps[n], c);
  }

  ghost predicate MarkedBefore(states: seq<State>, steps: seq<Step>, i: nat, c: nat) {
    exists m :: 0 <= m < i && m < |states| && m < |steps| && Marks(states[m], steps[m], c)
  }

  /** In every run: a command is marked as delivered if and only if some pass that held it was
      committed. One whose passes all failed or died stays for the next relay, however often. */
  lemma MarkedExactlyByCommit(serial: bool, states: seq<State>, steps: seq<Step>, i: nat, c: nat)
    requires Run(serial, states, steps) && i < |states|
    ensures Marked(states[i].t, c) <==> MarkedBefore(states, steps, i, c)
  {
    var now := seq(|states|, k requires 0 <= k < |states| => Marked(states[k].t, c));
    var acts := seq(|steps|, k requires 0 <= k < |steps| => Marks(states[k], steps[k], c));
    forall k | 0 <= k < |steps| ensures StepSwitches(now, acts, k) {
      RowInARun(serial, states, steps, k, c);
    }
    SwitchedExactly(now, acts, i);
    assert forall m :: 0 <= m < i ==> acts[m] == Marks(states[m], steps[m], c);
  }

  /** So a command no committed pass has held is in the batch of the next relay whose limit reaches
      it, unless another one is at it just now. */
  lemma UntilThenTaken(serial: bool, states: seq<State>, steps: seq<Step>, i: nat, c: nat, r: nat, limit: nat)
    requires Run(serial, states, steps) && i < |states| && c in states[i].t.outbox
    requires !MarkedBefore(states, steps, i, c) && r !in states[i].passes && |Batches.Smaller(AllOpen(states[i]), c)| < limit
    ensures c in Next(states[i], Begin(r, limit)).passes[r].batch
         || exists o :: o in states[i].passes && states[i].passes[o].Passing? && c in states[i].passes[o].batch
  {
    MarkedExactlyByCommit(serial, states, steps, i, c);
    NextBatchExactly(states[i], r, limit);
  }

  /** Commands stay in the outbox as they were ordered. */
  lemma {:induction false} CommandsStay(serial: bool, states: seq<State>, steps: seq<Step>, i: nat, j: nat, c: nat)
    requires Run(serial, states, steps) && i <= j < |states| && c in states[i].t.outbox
    ensures c in states[j].t.outbox && states[j].t.outbox[c].command == states[i].t.outbox[c].command
    decreases j
  {
    if i < j {
      CommandsStay(serial, states, steps, i, j - 1, c);
      RowInARun(serial, states, steps, j - 1, c);
    }
  }

  /** A relay that dies holds nothing any more: what only it held can be taken at once. */
  lemma DeadRelaysHoldNothing(s: State, r: nat, c: nat)
    requires r in s.passes && c in s.t.outbox && s.t.outbox[c].publishedAt == None
    requires forall o :: o in s.passes && o != r && s.passes[o].Passing? ==> c !in s.passes[o].batch
    ensures Enabled(s, CrashRelay(r)) && Open(Next(s, CrashRelay(r)), c) && r !in Next(s, CrashRelay(r)).passes
  {
  }
}
