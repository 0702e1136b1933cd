/** The booking relay: unpublished outbox rows go to the broker, in order, until it refuses one. */
module OutboxRelay {
  import opened Common
  import opened BookingService
  import opened Batches

  /** What the broker does with one publish call: take it, take it but fail to say so, or not take it. */
  datatype Answer = Accepted | LostReply | Refused

  predicate Unpublished(row: Row) {
    row.publishedAt.None?
  }

  /** Rows a relay may take: unpublished, and not locked by another relay. */
  function Eligible(rows: seq<Row>, locked: set<nat>): set<nat> {
    set i | 0 <= i < |rows| && Unpublished(rows[i]) && rows[i].event.id !in locked :: rows[i].event.id
  }

  function Ids(s: seq<nat>): set<nat> {
    set x | x in s
  }

  function Mark(rows: seq<Row>, ids: set<nat>, now: int): seq<Row> {
    seq(|rows|, i requires 0 <= i < |rows| =>
      if rows[i].event.id in ids then rows[i].(publishedAt := Some(now)) else rows[i])
  }

  function CountFailure(rows: seq<Row>, id: nat): seq<Row> {
    seq(|rows|, i requires 0 <= i < |rows| =>
      if rows[i].event.id == id then rows[i].(attempts := rows[i].attempts + 1) else rows[i])
  }

  predicate HasRow(rows: seq<Row>, id: nat) {
    exists i :: 0 <= i < |rows| && rows[i].event.id == id
  }

  /** The payload stored under an id. */
  function Payload(rows: seq<Row>, id: nat): (e: Event)
    requires HasRow(rows, id)
    ensures e.id == id
  {
    if rows[|rows| - 1].event.id == id then rows[|rows| - 1].event else Payload(rows[..|rows| - 1], id)
  }

  function Payloads(rows: seq<Row>, ids: seq<nat>): seq<Event>
    requires forall x :: x in ids ==> HasRow(rows, x)
  {
    seq(|ids|, i requires 0 <= i < |ids| => assert ids[i] in ids; Payload(rows, ids[i]))
  }

  /** How many of the first `n` calls return normally before one does not. */
  function AcceptedRun(answers: nat -> Answer, n: nat): (k: nat)
    ensures k <= n && (forall i :: 0 <= i < k ==> answers(i).Accepted?) && (k < n ==> !answers(k).Accepted?)
  {
    if n == 0 then 0
    else
      var k := AcceptedRun(answers, n - 1);
      if k == n - 1 && answers(k).Accepted? then n else k
  }

  /** Everything the broker holds after a pass: a prefix of the batch, and perhaps the row
      whose acceptance was never heard of. */
  function HandedOver(rows: seq<Row>, batch: seq<nat>, answers: nat -> Answer): seq<Event>
    requires forall x :: x in batch ==> HasRow(rows, x)
  {
    var k := AcceptedRun(answers, |batch|);
    if k < |batch| && answers(k).LostReply? then Payloads(rows, batch[..k + 1]) else Payloads(rows, batch[..k])
  }

  /** The table after a pass: all of the batch is marked, or none of it. */
  function AfterPass(rows: seq<Row>, batch: seq<nat>, answers: nat -> Answer, now: int): seq<Row> {
    var k := AcceptedRun(answers, |batch|);
    if k == |batch| then Mark(rows, Ids(batch), now) else CountFailure(rows, batch[k])
  }

  /** The ids of the rows nobody has published and nobody holds. */
  ghost function OpenIds(rows: seq<Row>, locked: set<nat>): set<nat> {
    (set i | 0 <= i < |rows| && rows[i].publishedAt == None :: rows[i].event.id) - locked
  }

  lemma OpenBatch(rows: seq<Row>, locked: set<nat>, limit: nat)
    ensures FirstOf(FirstN(Eligible(rows, locked), limit), OpenIds(rows, locked), limit)
  {
    assert Eligible(rows, locked) == OpenIds(rows, locked);
    FirstNIsFirst(Eligible(rows, locked), limit);
  }

  lemma EligibleHeld(rows: seq<Row>, locked: set<nat>, limit: nat)
    ensures forall x :: x in FirstN(Eligible(rows, locked), limit) ==> HasRow(rows, x)
  {
    FirstNIsPrefix(Eligible(rows, locked), limit);
  }

  /** A failed pass changes nothing but one counter; a complete one marks exactly its batch.
      Either way every row outside the batch stays as it was. */
  lemma PassMarksAllOrNothing(rows: seq<Row>, batch: seq<nat>, answers: nat -> Answer, now: int, i: nat)
    requires i < |rows|
    requires forall j :: 0 <= j < |rows| && rows[j].event.id in batch ==> Unpublished(rows[j])
    ensures var after := AfterPass(rows, batch, answers, now); var k := AcceptedRun(answers, |batch|);
      && |after| == |rows| && after[i].event == rows[i].event
      && (rows[i].event.id !in batch ==> after[i] == rows[i])
      && (k == |batch| && rows[i].event.id in batch ==> after[i] == rows[i].(publishedAt := Some(now)))
      && (k < |batch| ==>
            after[i] == rows[i].(attempts := rows[i].attempts + (if rows[i].event.id == batch[k] then 1 else 0)))
  {
  }

  /** The relay with its open transaction; what it gave the broker is not undone by a rollback. */
  class Relay {
    var rows: seq<Row>
    var saved: seq<Row>
    var stream: seq<Event>

    method Commit()
      modifies this`saved
      ensures saved == rows
    {
      saved := rows;
    }

    method Rollback()
      modifies this`rows
      ensures rows == saved
    {
      rows := saved;
    }

    /** One call to the broker. `answer` is what happens on the other side. */
    method Publish(e: Event, answer: Answer) returns (ok: bool)
      modifies this`stream
      ensures ok == answer.Accepted?
      ensures stream == if answer.Refused? then old(stream) else old(stream) + [e]
    {
      if !answer.Refused? {
        stream := stream + [e];
      }
      ok := answer.Accepted?;
    }

    method RecordFailure(id: nat)
      requires rows == saved
      modifies this`rows, this`saved
      ensures rows == saved == CountFailure(old(rows), id)
    {
      rows := CountFailure(rows, id);
      Commit();
    }

    method PublishPending(now: int, batchSize: nat, locked: set<nat>, answers: nat -> Answer)
      returns (published: nat, ghost batch: seq<nat>)
      requires rows == saved
      modifies this
      ensures batch == FirstN(Eligible(old(rows), locked), batchSize)
      ensures forall x :: x in batch ==> HasRow(old(rows), x)
      ensures FirstOf(batch, OpenIds(old(rows), locked), batchSize)
      ensures published == AcceptedRun(answers, |batch|)
      ensures stream == old(stream) + HandedOver(old(rows), batch, answers)
      ensures rows == saved == AfterPass(old(rows), batch, answers, now)
    {
      var messages := FirstN(Eligible(rows, locked), batchSize);
      batch := messages;
      EligibleHeld(rows, locked, batchSize);
      OpenBatch(rows, locked, batchSize);
      published := PublishBatch(messages, now, answers);
    }

    method PublishBatch(messages: seq<nat>, now: int, answers: nat -> Answer) returns (published: nat)
      requires rows == saved && forall x :: x in messages ==> HasRow(rows, x)
      modifies this
      ensures published == AcceptedRun(answers, |messages|)
      ensures stream == old(stream) + HandedOver(old(rows), messages, answers)
      ensures rows == saved == AfterPass(old(rows), messages, answers, now)
    {
      ghost var before, streamed := rows, stream;
      published := 0;
      MarkNothing(before, now);
      while published < |messages|
        invariant 0 <= published <= |messages|
        invariant AcceptedRun(answers, published) == published
        invariant saved == before
        invariant rows == Mark(before, Ids(messages[..published]), now)
        invariant stream == streamed + Payloads(before, messages[..published])
      {
        PassStep(before, messages, answers, published, now);
        var id := messages[published];
        var payload := Payload(rows, id);
        var ok := Publish(payload, answers(published));
        if !ok {
          Rollback();
          RecordFailure(id);
          return;
        }
        rows := Mark(rows, {id}, now);
        published := published + 1;
      }
      PassCompletes(before, messages, answers, now);
      Commit();
    }
  }

  lemma MarkNothing(rows: seq<Row>, now: int)
    ensures Mark(rows, Ids([]), now) == rows
  {
  }

  /** The run of accepted calls ends at the first call that is not accepted. */
  lemma {:induction false} RunStops(answers: nat -> Answer, k: nat, n: nat)
    requires k < n && AcceptedRun(answers, k) == k
    ensures !answers(k).Accepted? ==> AcceptedRun(answers, n) == k
    ensures answers(k).Accepted? ==> AcceptedRun(answers, k + 1) == k + 1
  {
    if k < n - 1 {
      RunStops(answers, k, n - 1);
    }
  }

  /** What the next call leads to: the end of the pass, or one more marked row. */
  lemma PassStep(rows: seq<Row>, batch: seq<nat>, answers: nat -> Answer, k: nat, now: int)
    requires k < |batch| && AcceptedRun(answers, k) == k && (forall x :: x in batch ==> HasRow(rows, x))
    ensures var marked := Mark(rows, Ids(batch[..k]), now);
      && batch[k] in batch
      && HasRow(marked, batch[k]) && Payload(marked, batch[k]) == Payload(rows, batch[k])
      && Payloads(rows, batch[..k + 1]) == Payloads(rows, batch[..k]) + [Payload(rows, batch[k])]
      && Mark(marked, {batch[k]}, now) == Mark(rows, Ids(batch[..k + 1]), now)
      && (answers(k).Accepted? ==> AcceptedRun(answers, k + 1) == k + 1)
      && (!answers(k).Accepted? ==>
            && AcceptedRun(answers, |batch|) == k
            && HandedOver(rows, batch, answers) == Payloads(rows, batch[..k])
                 + (if answers(k).LostReply? then [Payload(rows, batch[k])] else [])
            && AfterPass(rows, batch, answers, now) == CountFailure(rows, batch[k]))
  {
    assert batch[k] in batch;
    MarkKeepsPayloads(rows, Ids(batch[..k]), now, batch[k]);
    NextMessage(rows, batch, k, now);
    RunStops(answers, k, |batch|);
  }

  lemma PassCompletes(rows: seq<Row>, batch: seq<nat>, answers: nat -> Answer, now: int)
    requires forall x :: x in batch ==> HasRow(rows, x)
    requires AcceptedRun(answers, |batch|) == |batch|
    ensures HandedOver(rows, batch, answers) == Payloads(rows, batch[..|batch|])
    ensures AfterPass(rows, batch, answers, now) == Mark(rows, Ids(batch[..|batch|]), now)
  {
    assert batch[..|batch|] == batch;
  }

  /** Handling one more message extends the marks and the payloads by that message. */
  lemma NextMessage(rows: seq<Row>, batch: seq<nat>, k: nat, now: int)
    requires k < |batch| && forall x :: x in batch ==> HasRow(rows, x)
    ensures batch[k] in batch
    ensures Payloads(rows, batch[..k + 1]) == Payloads(rows, batch[..k]) + [Payload(rows, batch[k])]
    ensures Mark(Mark(rows, Ids(batch[..k]), now), {batch[k]}, now) == Mark(rows, Ids(batch[..k + 1]), now)
  {
    assert batch[..k + 1] == batch[..k] + [batch[k]];
  }

  lemma {:induction false} MarkKeepsPayloads(rows: seq<Row>, ids: set<nat>, now: int, id: nat)
    requires HasRow(rows, id)
    ensures HasRow(Mark(rows, ids, now), id) && Payload(Mark(rows, ids, now), id) == Payload(rows, id)
  {
    var i :| 0 <= i < |rows| && rows[i].event.id == id;
    assert Mark(rows, ids, now)[i].event.id == id;
    if rows[|rows| - 1].event.id != id {
      MarkKeepsPayloads(rows[..|rows| - 1], ids, now, id);
      assert Mark(rows[..|rows| - 1], ids, now) == Mark(rows, ids, now)[..|rows| - 1];
    }
  }
}
