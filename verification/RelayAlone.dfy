/** A relay pass as the relay's methods carry it out is a run of the interleaved machine: what
    holds in every run holds for it. */
module RelayAlone {
  import opened Common
  import opened Paths
  import opened BookingService
  import opened BookingEvents
  import opened NotifierDomain
  import opened Delivery
  import opened Batches
  import Relay = OutboxRelay

  function EncodeAll(codec: Codec, events: seq<Event>): seq<Data> {
    seq(|events|, i requires 0 <= i < |events| => Encode(codec, events[i]))
  }

  /** The stream has taken these events, and nothing else has changed but the relays. */
  function Streamed(s: State, codec: Codec, events: seq<Event>, passes: map<nat, Pass>): State {
    var w := s.net.w;
    s.(net := s.net.(w := w.(broker := w.broker.(entries := w.broker.entries + EncodeAll(codec, events)))), passes := passes)
  }

  predicate Held(s: State, batch: seq<nat>) {
    forall x :: x in batch ==> Relay.HasRow(Outbox(s), x)
  }

  /** The first `k` calls are accepted: their payloads are in the stream, and the pass is at `k`. */
  lemma {:induction false} AcceptedCalls(codec: Codec, max: nat, s: State, r: nat, batch: seq<nat>,
                                         answers: nat -> Relay.Answer, k: nat)
    returns (steps: seq<Step>)
    requires k <= |batch| && Held(s, batch) && Relay.AcceptedRun(answers, k) == k
    ensures Leads(Moves(codec, max), Streamed(s, codec, [], s.passes[r := Passing(batch, 0)]), steps,
                  Streamed(s, codec, Relay.Payloads(Outbox(s), batch[..k]), s.passes[r := Passing(batch, k)]))
    ensures |steps| == k
  {
    if k == 0 {
      steps := [];
      assert Relay.Payloads(Outbox(s), batch[..0]) == [];
    } else {
      var before := AcceptedCalls(codec, max, s, r, batch, answers, k - 1);
      steps := before + [Hand(r, answers(k - 1))];
      OneCall(codec, max, s, r, batch, k - 1, answers(k - 1));
      Last(Moves(codec, max), Streamed(s, codec, [], s.passes[r := Passing(batch, 0)]), before,
              Streamed(s, codec, Relay.Payloads(Outbox(s), batch[..k - 1]), s.passes[r := Passing(batch, k - 1)]),
              Hand(r, answers(k - 1)),
              Streamed(s, codec, Relay.Payloads(Outbox(s), batch[..k]), s.passes[r := Passing(batch, k)]));
    }
  }

  /** One call: the stream keeps what it took, and the pass goes on or fails. */
  lemma OneCall(codec: Codec, max: nat, s: State, r: nat, batch: seq<nat>, k: nat, answer: Relay.Answer)
    requires k < |batch| && Held(s, batch)
    ensures var before := Streamed(s, codec, Relay.Payloads(Outbox(s), batch[..k]), s.passes[r := Passing(batch, k)]);
      var taken := Relay.Payloads(Outbox(s), if answer.Refused? then batch[..k] else batch[..k + 1]);
      && Enabled(before, Hand(r, answer))
      && Next(codec, max, before, Hand(r, answer))
         == Streamed(s, codec, taken, s.passes[r := if answer.Accepted? then Passing(batch, k + 1) else Failing(batch[k])])
  {
    var rows := Outbox(s);
    assert batch[k] in batch;
    var sofar := Relay.Payloads(rows, batch[..k]);
    var payload := Relay.Payload(rows, batch[k]);
    assert Relay.Payloads(rows, batch[..k + 1]) == sofar + [payload];
    assert EncodeAll(codec, sofar + [payload]) == EncodeAll(codec, sofar) + [Encode(codec, payload)];
    var before := Streamed(s, codec, sofar, s.passes[r := Passing(batch, k)]);
    var entries := s.net.w.broker.entries;
    var streamed, data := EncodeAll(codec, sofar), Encode(codec, payload);
    assert entries + (streamed + [data]) == entries + streamed + [data];
    assert before.passes[r := Passing(batch, k + 1)] == s.passes[r := Passing(batch, k + 1)];
    assert before.passes[r := Failing(batch[k])] == s.passes[r := Failing(batch[k])];
  }

  /** What a whole pass leaves: the table after it, the stream with what was handed over, and no
      trace of the relay. */
  function AfterWholePass(s: State, codec: Codec, batch: seq<nat>, answers: nat -> Relay.Answer, now: int): State
    requires Held(s, batch)
  {
    Streamed(s, codec, Relay.HandedOver(Outbox(s), batch, answers), s.passes)
      .(booking := WithOutbox(s.booking, Relay.AfterPass(Outbox(s), batch, answers, now)))
  }

  lemma PassIsARun(codec: Codec, max: nat, s: State, r: nat, limit: nat, answers: nat -> Relay.Answer, now: int)
    returns (steps: seq<Step>)
    requires r !in s.passes
    ensures var batch := FirstN(Relay.Eligible(Outbox(s), Locked(s.passes, RowsOf)), limit);
      && Held(s, batch) && Leads(Moves(codec, max), s, steps, AfterWholePass(s, codec, batch, answers, now))
      && |steps| <= |batch| + 2
  {
    var batch := FirstN(Relay.Eligible(Outbox(s), Locked(s.passes, RowsOf)), limit);
    Relay.EligibleHeld(Outbox(s), Locked(s.passes, RowsOf), limit);
    var k := Relay.AcceptedRun(answers, |batch|);
    RunOfRun(answers, |batch|);
    var calls := AcceptedCalls(codec, max, s, r, batch, answers, k);
    var begun := Streamed(s, codec, [], s.passes[r := Passing(batch, 0)]);
    assert s.net.w.broker.entries + [] == s.net.w.broker.entries && EncodeAll(codec, []) == [];
    assert begun == Next(codec, max, s, Begin(r, limit));
    var rest := EndOfPass(codec, max, s, r, batch, answers, now, k, begun, calls);
    First(Moves(codec, max), s, Begin(r, limit), begun, rest, AfterWholePass(s, codec, batch, answers, now));
    steps := [Begin(r, limit)] + rest;
  }

  lemma {:induction false} RunOfRun(answers: nat -> Relay.Answer, n: nat)
    ensures Relay.AcceptedRun(answers, Relay.AcceptedRun(answers, n)) == Relay.AcceptedRun(answers, n)
  {
    if n > 0 {
      RunOfRun(answers, n - 1);
    }
  }

  /** After the accepted calls: commit, or a failed call, the rollback and the recorded failure. */
  lemma EndOfPass(codec: Codec, max: nat, s: State, r: nat, batch: seq<nat>, answers: nat -> Relay.Answer, now: int,
                  k: nat, begun: State, calls: seq<Step>) returns (steps: seq<Step>)
    requires r !in s.passes && Held(s, batch) && k == Relay.AcceptedRun(answers, |batch|) && |calls| == k
    requires Leads(Moves(codec, max), begun, calls,
                   Streamed(s, codec, Relay.Payloads(Outbox(s), batch[..k]), s.passes[r := Passing(batch, k)]))
    ensures Leads(Moves(codec, max), begun, steps, AfterWholePass(s, codec, batch, answers, now)) && |steps| <= |batch| + 1
  {
    var handed := Streamed(s, codec, Relay.Payloads(Outbox(s), batch[..k]), s.passes[r := Passing(batch, k)]);
    var after := AfterWholePass(s, codec, batch, answers, now);
    if k == |batch| {
      steps := calls + [Commit(r, now)];
      assert s.passes[r := Passing(batch, k)] - {r} == s.passes;
      Last(Moves(codec, max), begun, calls, handed, Commit(r, now), after);
    } else {
      OneCall(codec, max, s, r, batch, k, answers(k));
      var failed := Next(codec, max, handed, Hand(r, answers(k)));
      Last(Moves(codec, max), begun, calls, handed, Hand(r, answers(k)), failed);
      assert s.passes[r := Failing(batch[k])] - {r} == s.passes;
      Last(Moves(codec, max), begun, calls + [Hand(r, answers(k))], failed, NoteFailure(r), after);
      steps := calls + [Hand(r, answers(k))] + [NoteFailure(r)];
    }
  }
}
