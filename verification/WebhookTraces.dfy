/** What the order and the repetition of provider events can and cannot change. */
module WebhookTraces {
  import opened Common
  import opened PaymentsService

  /** What happens to the tables of payments, as far as provider events are concerned: a payment
      row appears, or an event is delivered. `id` is what the outbox would use. */
  datatype Item =
    | Opened(p: nat, payment: Payment)
    | Delivered(event: string, eventType: string, reference: Option<nat>, id: nat)

  /** The primary key refuses a second row; a new row is pending. */
  function Apply(t: Tables, item: Item): Tables {
    match item
    case Opened(p, payment) =>
      if p in t.payments then t else t.(payments := t.payments[p := payment.(status := Pending)])
    case Delivered(event, eventType, reference, id) => HandleWebhook(t, event, eventType, reference, id).0
  }

  function Process(items: seq<Item>): Tables {
    if items == [] then EMPTY else Apply(Process(items[..|items| - 1]), items[|items| - 1])
  }

  /** The two types of events that say what became of a charge. */
  predicate Paid(item: Item) {
    item.Delivered? && item.eventType == "charge.succeeded"
  }

  predicate NotPaid(item: Item) {
    item.Delivered? && item.eventType == "charge.failed"
  }

  predicate Handled(item: Item) {
    Paid(item) || NotPaid(item)
  }

  predicate SameEvent(a: Item, b: Item) {
    a.Delivered? && b.Delivered? && a.event == b.event
  }

  predicate FirstDelivery(items: seq<Item>, i: nat) {
    i < |items| && items[i].Delivered? && forall j :: 0 <= j < i ==> !SameEvent(items[j], items[i])
  }

  function WithoutRepeats(items: seq<Item>): seq<Item> {
    if items == [] then []
    else
      var n := |items| - 1;
      WithoutRepeats(items[..n]) + (if items[n].Opened? || FirstDelivery(items, n) then [items[n]] else [])
  }

  /** An event that is ever handled is handled at its first delivery. An event id that always
      carries the same type satisfies this. */
  predicate Consistent(items: seq<Item>) {
    forall i, j | 0 <= i < j < |items| && FirstDelivery(items, i) && SameEvent(items[i], items[j]) && Handled(items[j]) ::
      Handled(items[i])
  }

  /** An event of any other type is acknowledged and leaves everything as it was, recorded or not. */
  lemma OtherTypesChangeNothing(t: Tables, event: string, eventType: string, reference: Option<nat>, id: nat)
    requires eventType != "charge.succeeded" && eventType != "charge.failed"
    ensures HandleWebhook(t, event, eventType, reference, id) == (t, Ignored)
    ensures Apply(t, Delivered(event, eventType, reference, id)) == t
  {
  }

  // ---- repetition

  /** An event is recorded exactly when a delivery of it was handled. */
  lemma {:induction false} RecordedWhenHandled(items: seq<Item>, event: string)
    ensures event in Process(items).events
            <==> exists i :: 0 <= i < |items| && Handled(items[i]) && items[i].event == event
  {
    if items != [] {
      var n := |items| - 1;
      RecordedWhenHandled(items[..n], event);
      if i :| 0 <= i < n && Handled(items[..n][i]) && items[..n][i].event == event {
        assert Handled(items[i]);
      }
      if i :| 0 <= i < |items| && Handled(items[i]) && items[i].event == event {
        assert i < n ==> Handled(items[..n][i]);
      }
    }
  }

  lemma {:induction false} SomeFirst(items: seq<Item>, j: nat) returns (i: nat)
    requires j < |items| && items[j].Delivered?
    ensures i <= j && FirstDelivery(items, i) && SameEvent(items[i], items[j])
  {
    i := j;
    if k :| 0 <= k < j && SameEvent(items[k], items[j]) {
      i := SomeFirst(items, k);
    }
  }

  /** In a consistent sequence a repeated delivery changes nothing. */
  lemma RepeatChangesNothing(items: seq<Item>)
    requires items != [] && Consistent(items)
    requires var n := |items| - 1; items[n].Delivered? && !FirstDelivery(items, n)
    ensures Process(items) == Process(items[..|items| - 1])
  {
    var n := |items| - 1;
    if Handled(items[n]) {
      var i := SomeFirst(items, n);
      assert Handled(items[..n][i]);
      RecordedWhenHandled(items[..n], items[n].event);
    }
  }

  lemma FrontFirst(items: seq<Item>, n: nat, i: nat)
    requires i < n <= |items|
    ensures FirstDelivery(items[..n], i) <==> FirstDelivery(items, i)
  {
    assert forall j :: 0 <= j < n ==> items[..n][j] == items[j];
  }

  lemma ConsistentFront(items: seq<Item>)
    requires items != [] && Consistent(items)
    ensures Consistent(items[..|items| - 1])
  {
    var front := items[..|items| - 1];
    forall i, j | 0 <= i < j < |front| && FirstDelivery(front, i) && SameEvent(front[i], front[j]) && Handled(front[j])
      ensures Handled(front[i])
    {
      FrontFirst(items, |front|, i);
      assert SameEvent(items[i], items[j]) && Handled(items[j]);
    }
  }

  lemma {:induction false} SameWithoutRepeats(items: seq<Item>)
    requires Consistent(items)
    ensures Process(WithoutRepeats(items)) == Process(items)
  {
    if items != [] {
      var n := |items| - 1;
      ConsistentFront(items);
      SameWithoutRepeats(items[..n]);
      var kept := WithoutRepeats(items[..n]);
      if items[n].Opened? || FirstDelivery(items, n) {
        assert (kept + [items[n]])[..|kept|] == kept;
      } else {
        RepeatChangesNothing(items);
        assert kept + [] == kept;
      }
    }
  }

  /** What is kept are the first deliveries. */
  lemma {:induction false} KeptAreFirst(items: seq<Item>, k: nat) returns (i: nat)
    requires k < |WithoutRepeats(items)|
    ensures i < |items| && items[i] == WithoutRepeats(items)[k] && (items[i].Delivered? ==> FirstDelivery(items, i))
  {
    var n := |items| - 1;
    var kept := WithoutRepeats(items[..n]);
    if k < |kept| {
      i := KeptAreFirst(items[..n], k);
      assert items[i].Delivered? ==> FirstDelivery(items[..n], i);
    } else {
      i := n;
    }
  }

  /** An event first delivered with a type nobody handles is not recorded by what is kept. */
  lemma LostWithoutRepeats(items: seq<Item>, i: nat)
    requires FirstDelivery(items, i) && !Handled(items[i])
    ensures items[i].event !in Process(WithoutRepeats(items)).events
  {
    var kept := WithoutRepeats(items);
    RecordedWhenHandled(kept, items[i].event);
    forall k | 0 <= k < |kept| && Handled(kept[k]) ensures kept[k].event != items[i].event {
      var o := KeptAreFirst(items, k);
      if items[o].event == items[i].event {
        assert SameEvent(items[o], items[i]) && SameEvent(items[i], items[o]);
      }
    }
  }

  /** Repetition is harmless exactly for consistent sequences. */
  lemma RepeatsAreHarmless(items: seq<Item>)
    ensures Process(WithoutRepeats(items)) == Process(items) <==> Consistent(items)
  {
    if Consistent(items) {
      SameWithoutRepeats(items);
    } else {
      var i, j :| 0 <= i < j < |items| && FirstDelivery(items, i) && SameEvent(items[i], items[j])
                  && Handled(items[j]) && !Handled(items[i]);
      RecordedWhenHandled(items, items[i].event);
      LostWithoutRepeats(items, i);
    }
  }

  // ---- order

  predicate IsOpen(items: seq<Item>, p: nat, j: nat) {
    exists k :: 0 <= k < j && k < |items| && items[k].Opened? && items[k].p == p
  }

  /** The first delivery of this event with a type that is handled. */
  predicate FirstHandled(items: seq<Item>, j: nat) {
    j < |items| && Handled(items[j]) && forall i :: 0 <= i < j ==> !(Handled(items[i]) && SameEvent(items[i], items[j]))
  }

  /** An event about this payment, handled for the first time, after the row was there. */
  predicate Speaks(items: seq<Item>, p: nat, j: nat) {
    FirstHandled(items, j) && items[j].reference == Some(p) && IsOpen(items, p, j)
  }

  predicate Decides(items: seq<Item>, p: nat, j: nat) {
    Speaks(items, p, j) && forall i :: 0 <= i < j ==> !Speaks(items, p, i)
  }

  /** The status of a payment is what the first event to speak about it says; until then pending. */
  ghost predicate FirstWordKept(items: seq<Item>, p: nat, status: Status) {
    && (status.Pending? <==> forall j :: 0 <= j < |items| ==> !Speaks(items, p, j))
    && (status.Succeeded? <==> exists j :: 0 <= j < |items| && Decides(items, p, j) && Paid(items[j]))
    && (status.Failed? <==> exists j :: 0 <= j < |items| && Decides(items, p, j) && NotPaid(items[j]))
  }

  /** What is known of a payment after these items. */
  ghost predicate WordCounts(items: seq<Item>, p: nat) {
    var payments := Process(items).payments;
    && (p in payments <==> IsOpen(items, p, |items|))
    && (p in payments ==> FirstWordKept(items, p, payments[p].status))
  }

  /** The first event to speak about a payment decides it for good. */
  lemma {:induction false} FirstWordCounts(items: seq<Item>, p: nat)
    ensures p in Process(items).payments <==> IsOpen(items, p, |items|)
    ensures p in Process(items).payments ==> FirstWordKept(items, p, Process(items).payments[p].status)
  {
    if items != [] {
      FirstWordCounts(items[..|items| - 1], p);
      if items[|items| - 1].Delivered? {
        DeliveryCounts(items, p);
      } else {
        OpeningCounts(items, p);
      }
      assert WordCounts(items, p);
    }
  }

  lemma DeliveryCounts(items: seq<Item>, p: nat)
    requires items != [] && items[|items| - 1].Delivered? && WordCounts(items[..|items| - 1], p)
    ensures WordCounts(items, p)
  {
    var n := |items| - 1;
    var t := Process(items[..n]);
    FrontSpeaks(items, p);
    LastSpeaks(items, p);
    HearOne(t, items[n], p);
    if p in t.payments {
      OneMoreWord(items, p, t.payments[p].status, Process(items).payments[p].status);
    }
  }

  lemma OpeningCounts(items: seq<Item>, p: nat)
    requires items != [] && items[|items| - 1].Opened? && WordCounts(items[..|items| - 1], p)
    ensures WordCounts(items, p)
  {
    var n := |items| - 1;
    var t := Process(items[..n]);
    OpenOne(t, items[n], p);
    FrontSpeaks(items, p);
    if p in t.payments {
      NothingSaid(items, p, t.payments[p].status);
    } else if items[n].p == p {
      NobodySpeaksYet(items, p);
    }
  }

  lemma OpenOne(t: Tables, item: Item, p: nat)
    requires item.Opened?
    ensures var t' := Apply(t, item);
      && (p in t'.payments <==> p in t.payments || item.p == p)
      && (p in t'.payments ==> t'.payments[p].status == if p in t.payments then t.payments[p].status else Status.Pending)
  {
  }

  lemma NothingSaid(items: seq<Item>, p: nat, status: Status)
    requires items != [] && items[|items| - 1].Opened? && FirstWordKept(items[..|items| - 1], p, status)
    ensures FirstWordKept(items, p, status)
  {
    OneMoreWord(items, p, status, status);
  }

  lemma OneMoreWord(items: seq<Item>, p: nat, before: Status, after: Status)
    requires items != [] && FirstWordKept(items[..|items| - 1], p, before)
    requires after == if before.Pending? && Speaks(items, p, |items| - 1)
                      then (if Paid(items[|items| - 1]) then Status.Succeeded else Status.Failed) else before
    ensures FirstWordKept(items, p, after)
  {
    var n := |items| - 1;
    FrontSpeaks(items, p);
    if before.Pending? {
      assert forall j :: 0 <= j < n ==> !Speaks(items, p, j);
    } else {
      var j :| 0 <= j < n && Speaks(items[..n], p, j);
      assert Speaks(items, p, j);
    }
  }

  lemma NobodySpeaksYet(items: seq<Item>, p: nat)
    requires items != [] && items[|items| - 1].Opened? && !IsOpen(items[..|items| - 1], p, |items| - 1)
    ensures FirstWordKept(items, p, Status.Pending)
  {
    var n := |items| - 1;
    FrontSpeaks(items, p);
  }

  /** One delivery moves a payment exactly when it is pending and the event speaks about it. */
  lemma HearOne(t: Tables, item: Item, p: nat)
    requires item.Delivered?
    ensures var t' := Apply(t, item);
      && (p in t'.payments <==> p in t.payments)
      && (p in t.payments ==>
            t'.payments[p].status
            == if t.payments[p].status.Pending? && Handled(item) && item.event !in t.events && item.reference == Some(p)
               then (if Paid(item) then Status.Succeeded else Status.Failed) else t.payments[p].status)
  {
  }

  lemma FrontSpeaks(items: seq<Item>, p: nat)
    requires items != []
    ensures var front := items[..|items| - 1];
      && (forall j :: 0 <= j < |front| ==> (Speaks(front, p, j) <==> Speaks(items, p, j)))
      && (forall j :: 0 <= j < |front| ==> (Decides(front, p, j) <==> Decides(items, p, j)))
      && (IsOpen(items, p, |items|) <==> IsOpen(items, p, |front|) || (items[|front|].Opened? && items[|front|].p == p))
      && (IsOpen(items, p, |front|) <==> IsOpen(front, p, |front|))
  {
    var n := |items| - 1;
    var front := items[..n];
    forall j | 0 <= j <= n ensures IsOpen(front, p, j) <==> IsOpen(items, p, j) {
      if k :| 0 <= k < j && items[k].Opened? && items[k].p == p {
        assert front[k] == items[k];
      }
    }
    assert forall j :: 0 <= j < n ==> front[j] == items[j];
    forall j | 0 <= j < n ensures Speaks(front, p, j) <==> Speaks(items, p, j) {
      assert FirstHandled(front, j) <==> FirstHandled(items, j);
    }
  }

  /** The last delivery is let through to the payment exactly when it speaks about it. */
  lemma LastSpeaks(items: seq<Item>, p: nat)
    requires items != [] && items[|items| - 1].Delivered?
    requires p in Process(items[..|items| - 1]).payments <==> IsOpen(items, p, |items| - 1)
    ensures var n := |items| - 1; var t := Process(items[..n]);
      Speaks(items, p, n) <==> Handled(items[n]) && items[n].event !in t.events && items[n].reference == Some(p) && p in t.payments
  {
    var n := |items| - 1;
    RecordedWhenHandled(items[..n], items[n].event);
    assert forall i :: 0 <= i < n ==> items[..n][i] == items[i];
    if Handled(items[n]) && items[n].event in Process(items[..n]).events {
      var i :| 0 <= i < n && Handled(items[..n][i]) && items[..n][i].event == items[n].event;
      assert SameEvent(items[i], items[n]);
    }
  }
}
