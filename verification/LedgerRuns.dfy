/** The ledger in every reachable state: each succeeded payment is in exactly one stage on its
    way to a confirmed booking or to a refund. */
module LedgerRuns {
  import opened Common
  import opened PaymentsService
  import opened Ledger
  import opened LedgerRules
  import BookingDomain
  import BookingService
  import History = BookingHistory
  import Delivery
  import Batches

  // ---- what a pass and booking's answers may be relied on for

  predicate Reserved(pass: Pass, x: nat) {
    pass.Passing? && Rejected(x) in pass.done
  }

  ghost predicate AskedRightly(t: Tables, requests: map<nat, History.Request>, pass: Pass)
    requires pass.Passing?
  {
    pass.asking.Some? ==>
      && |pass.done| < |pass.batch| && pass.batch[|pass.done|] in t.outbox
      && var command := t.outbox[pass.batch[|pass.done|]].command;
         command.Confirm? && (pass.asking.value in requests ==>
           requests[pass.asking.value].booking == command.booking && requests[pass.asking.value].target.Confirmed?)
  }

  ghost predicate PassSound(t: Tables, refunds: map<nat, (RefundRequest, string)>, log: seq<BookingService.Row>,
                            requests: map<nat, History.Request>, pass: Pass) {
    pass.Passing? ==>
      Unsettled(t, pass.batch) && OutcomesFit(t, refunds, log, pass.batch, pass.done) && AskedRightly(t, requests, pass)
  }

  /** No row is held, and no new id taken, by two relays. */
  ghost predicate Apart(passes: map<nat, Pass>) {
    && (forall r1, r2, c | r1 in passes && r2 in passes && passes[r1].Passing? && passes[r2].Passing?
                         && c in passes[r1].batch && c in passes[r2].batch :: r1 == r2)
    && (forall r1, r2, x | r1 in passes && r2 in passes && Reserved(passes[r1], x) && Reserved(passes[r2], x) :: r1 == r2)
  }

  ghost predicate IdsUsed(t: Tables, passes: map<nat, Pass>, used: set<nat>) {
    && t.outbox.Keys <= used && t.payments.Keys <= used
    && forall r, x | r in passes && Reserved(passes[r], x) :: x in used
  }

  /** Booking's answers are true: "confirmed" means it was confirmed, and "conflict" means it is no longer pending. */
  ghost predicate AnswersTrue(db: BookingService.Db, requests: map<nat, History.Request>) {
    forall q | q in requests && requests[q].target.Confirmed? && requests[q].phase.Replied? ::
      && (requests[q].phase.answer.Ok? ==> WasConfirmed(db.outbox, requests[q].booking))
      && (requests[q].phase.answer == Err(BookingService.InvalidTransition) ==>
            requests[q].booking in db.bookings && !db.bookings[requests[q].booking].status.Pending?)
  }

  ghost predicate PassesSound(s: State) {
    forall r :: r in s.passes ==> PassSound(s.t, s.ps.refunds, s.booking.db.outbox, s.booking.requests, s.passes[r])
  }

  ghost predicate Inv(s: State) {
    && TablesSound(s.t, s.ps.refunds, s.booking.db.outbox)
    && History.Inv(s.booking) && AnswersTrue(s.booking.db, s.booking.requests)
    && PassesSound(s) && Apart(s.passes) && IdsUsed(s.t, s.passes, s.used)
  }

  // ---- evidence only grows

  lemma {:induction false} TrailGrows(log: seq<BookingService.Row>, log': seq<BookingService.Row>, b: nat)
    requires log <= log'
    ensures History.Trail(log, b) <= History.Trail(log', b)
  {
    if log != log' {
      TrailGrows(log, log'[..|log'| - 1], b);
    }
  }

  lemma ConfirmedGrows(log: seq<BookingService.Row>, log': seq<BookingService.Row>)
    requires log <= log'
    ensures forall b :: WasConfirmed(log, b) ==> WasConfirmed(log', b)
  {
    forall b | WasConfirmed(log, b) ensures WasConfirmed(log', b) {
      TrailGrows(log, log', b);
    }
  }

  /** What other processes do leaves a pass what it relies on. */
  lemma PassCarries(t: Tables, t': Tables, refunds: map<nat, (RefundRequest, string)>,
                    refunds': map<nat, (RefundRequest, string)>, log: seq<BookingService.Row>,
                    log': seq<BookingService.Row>, requests: map<nat, History.Request>,
                    requests': map<nat, History.Request>, pass: Pass)
    requires PassSound(t, refunds, log, requests, pass)
    requires pass.Passing? ==> forall c :: c in pass.batch && c in t.outbox ==>
               c in t'.outbox && t'.outbox[c].command == t.outbox[c].command && Published(t'.outbox[c]) == Published(t.outbox[c])
    requires forall x :: Reserved(pass, x) ==> x !in t'.outbox
    requires forall p :: p in refunds ==> p in refunds' && refunds'[p] == refunds[p]
    requires log <= log'
    requires pass.Passing? && pass.asking.Some? && pass.asking.value in requests' ==>
               var q := pass.asking.value;
               q in requests && requests'[q].booking == requests[q].booking && requests'[q].target == requests[q].target
    ensures PassSound(t', refunds', log', requests', pass)
  {
    if pass.Passing? {
      ConfirmedGrows(log, log');
      assert forall i :: 0 <= i < |pass.batch| ==> pass.batch[i] in pass.batch;
      forall i | 0 <= i < |pass.done| && pass.done[i].Rejected? ensures pass.done[i].refund !in t'.outbox {
        assert pass.done[i] in pass.done && Reserved(pass, pass.done[i].refund);
      }
      forall i | 0 <= i < |pass.done|
        ensures OutcomeFits(t'.outbox[pass.batch[i]].command, pass.done[i], refunds', log')
      {
        assert OutcomeFits(t.outbox[pass.batch[i]].command, pass.done[i], refunds, log);
      }
    }
  }

  lemma TablesCarry(t: Tables, refunds: map<nat, (RefundRequest, string)>, refunds': map<nat, (RefundRequest, string)>,
                    log: seq<BookingService.Row>, log': seq<BookingService.Row>)
    requires TablesSound(t, refunds, log) && log <= log'
    requires forall p :: p in refunds ==> p in refunds' && refunds'[p] == refunds[p]
    ensures TablesSound(t, refunds', log')
  {
    ConfirmedGrows(log, log');
    forall p | p in t.payments ensures PaymentSound(t, refunds', p) {
      assert PaymentSound(t, refunds, p);
    }
  }

  // ---- steps of booking

  lemma ServeKeeps(s: State, inner: History.Step)
    requires Inv(s) && Enabled(s, Serve(inner))
    ensures Inv(Next(s, Serve(inner)))
  {
    var b' := History.Next(s.booking, inner);
    History.StepKeeps(s.booking, inner);
    Delivery.ServeAppends(s.booking, inner);
    var log, log' := s.booking.db.outbox, b'.db.outbox;
    TablesCarry(s.t, s.ps.refunds, s.ps.refunds, log, log');
    AnswersStayTrue(s.booking, inner);
    forall r | r in s.passes ensures PassSound(s.t, s.ps.refunds, log', b'.requests, s.passes[r]) {
      RequestsKeepTerms(s.booking, inner);
      if s.passes[r].Passing? {
        assert forall i :: 0 <= i < |s.passes[r].batch| ==> s.passes[r].batch[i] in s.t.outbox;
        ReservedNotIn(s.t, s.ps.refunds, log, s.booking.requests, s.passes[r]);
      }
      PassCarries(s.t, s.t, s.ps.refunds, s.ps.refunds, log, log', s.booking.requests, b'.requests, s.passes[r]);
    }
  }

  lemma ReservedNotIn(t: Tables, refunds: map<nat, (RefundRequest, string)>, log: seq<BookingService.Row>,
                      requests: map<nat, History.Request>, pass: Pass)
    requires PassSound(t, refunds, log, requests, pass)
    ensures forall x :: Reserved(pass, x) ==> x !in t.outbox
  {
    forall x | Reserved(pass, x) ensures x !in t.outbox {
      var i :| 0 <= i < |pass.done| && pass.done[i] == Rejected(x);
    }
  }

  /** A request keeps its booking and target for as long as it is known. */
  lemma RequestsKeepTerms(b: History.State, step: History.Step)
    requires History.Enabled(b, step)
    ensures var requests' := History.Next(b, step).requests;
      forall q :: q in requests' && !(step.Ask? && step.q == q) ==>
        q in b.requests && requests'[q].booking == b.requests[q].booking && requests'[q].target == b.requests[q].target
  {
  }

  /** No booking returns to pending, and none disappears. */
  lemma NeverPendingAgain(b: History.State, step: History.Step, x: nat)
    requires History.RequestsSound(b.db.bookings, b.requests) && History.Enabled(b, step) && x in b.db.bookings
    ensures var bookings' := History.Next(b, step).db.bookings;
      x in bookings' && (!b.db.bookings[x].status.Pending? ==> !bookings'[x].status.Pending?)
  {
    match step {
      case Update(q, _, _) => assert BookingDomain.Allowed(b.requests[q].phase.status, b.requests[q].target);
      case DoBook(_, _, _, _, _, _, _) =>
      case DoCreate(_, _, _, _) =>
      case Ask(_, _, _) =>
      case Read(_) =>
      case Forget(_) =>
    }
  }

  lemma ConfirmedIsTold(db: BookingService.Db, b: nat)
    requires History.Sound(db) && b in db.bookings && db.bookings[b].status.Confirmed?
    ensures WasConfirmed(db.outbox, b)
  {
    var trail := History.Trail(db.outbox, b);
    assert BookingDomain.Walk(trail) == Some(BookingDomain.Confirmed);
    BookingDomain.WalkNeverRepeats(trail);
  }

  lemma AnswersStayTrue(b: History.State, step: History.Step)
    requires History.Inv(b) && History.Enabled(b, step) && AnswersTrue(b.db, b.requests)
    ensures var b' := History.Next(b, step); AnswersTrue(b'.db, b'.requests)
  {
    var b' := History.Next(b, step);
    Delivery.ServeAppends(b, step);
    ConfirmedGrows(b.db.outbox, b'.db.outbox);
    History.StepKeeps(b, step);
    forall q | q in b'.requests && b'.requests[q].target.Confirmed? && b'.requests[q].phase.Replied?
      ensures b'.requests[q].phase.answer.Ok? ==> WasConfirmed(b'.db.outbox, b'.requests[q].booking)
      ensures b'.requests[q].phase.answer == Err(BookingService.InvalidTransition) ==>
        b'.requests[q].booking in b'.db.bookings && !b'.db.bookings[b'.requests[q].booking].status.Pending?
    {
      if q in b.requests && b'.requests[q] == b.requests[q] {
        if b.requests[q].booking in b.db.bookings {
          NeverPendingAgain(b, step, b.requests[q].booking);
        }
      } else {
        NewAnswerTrue(b, step, q);
      }
    }
  }

  /** The answer given by this very step is true. */
  lemma NewAnswerTrue(b: History.State, step: History.Step, q: nat)
    requires History.Inv(b) && History.Enabled(b, step) && History.Inv(History.Next(b, step))
    requires var requests' := History.Next(b, step).requests;
      q in requests' && requests'[q].target.Confirmed? && requests'[q].phase.Replied?
      && (q in b.requests ==> requests'[q] != b.requests[q])
    ensures var b' := History.Next(b, step);
      && (b'.requests[q].phase.answer.Ok? ==> WasConfirmed(b'.db.outbox, b'.requests[q].booking))
      && (b'.requests[q].phase.answer == Err(BookingService.InvalidTransition) ==>
            b'.requests[q].booking in b'.db.bookings && !b'.db.bookings[b'.requests[q].booking].status.Pending?)
  {
    var b' := History.Next(b, step);
    var x := b'.requests[q].booking;
    match step {
      case Read(o) =>
        if x in b.db.bookings && b.db.bookings[x].status.Confirmed? {
          ConfirmedIsTold(b.db, x);
        }
      case Update(o, now, id) =>
        assert BookingDomain.Allowed(b.requests[o].phase.status, BookingDomain.Confirmed);
        if b'.requests[q].phase.answer.Ok? {
          ConfirmedIsTold(b'.db, x);
        }
      case DoCreate(_, _, _, _) =>
      case DoBook(_, _, _, _, _, _, _) =>
      case Ask(_, _, _) =>
      case Forget(_) =>
    }
  }

  // ---- steps of a call

  lemma InsertKeeps(s: State, c: nat, id: nat)
    requires Inv(s) && Enabled(s, Insert(c, id))
    ensures Inv(Next(s, Insert(c, id)))
  {
    var t' := AfterInsert(s.t, s.callers[c], id).0;
    forall d | d in t'.outbox ensures CommandSound(t', t'.outbox[d]) {
      assert CommandSound(s.t, s.t.outbox[d]);
    }
    forall p | p in t'.payments ensures PaymentSound(t', s.ps.refunds, p) {
      if p in s.t.payments {
        assert PaymentSound(s.t, s.ps.refunds, p);
      } else {
        NoCommandsYet(s.t, p);
      }
    }
  }

  lemma NoCommandsYet(t: Tables, p: nat)
    requires p !in t.payments && forall c :: c in t.outbox ==> CommandSound(t, t.outbox[c])
    ensures !HasConfirm(t.outbox, p) && !HasRefund(t.outbox, p)
  {
    forall c | c in t.outbox ensures !t.outbox[c].command.Unknown? && t.outbox[c].command.payment != p {
      assert CommandSound(t, t.outbox[c]);
    }
  }

  lemma KeepChargeKeeps(s: State, c: nat)
    requires Inv(s) && Enabled(s, KeepCharge(c))
    ensures Inv(Next(s, KeepCharge(c)))
  {
    var t' := Next(s, KeepCharge(c)).t;
    forall d | d in t'.outbox ensures CommandSound(t', t'.outbox[d]) {
      assert CommandSound(s.t, s.t.outbox[d]);
    }
    forall p | p in t'.payments ensures PaymentSound(t', s.ps.refunds, p) {
      assert PaymentSound(s.t, s.ps.refunds, p);
    }
  }

  // ---- provider events

  lemma WebhookKeeps(s: State, event: string, eventType: string, reference: Option<nat>, id: nat)
    requires Inv(s) && Enabled(s, Webhook(event, eventType, reference, id))
    ensures Inv(Next(s, Webhook(event, eventType, reference, id)))
  {
    EventKeeps(s.t, s.ps.refunds, s.booking.db.outbox, event, eventType, reference, id);
    EventKeepsPasses(s, event, eventType, reference, id);
  }

  lemma EventKeepsPasses(s: State, event: string, eventType: string, reference: Option<nat>, id: nat)
    requires PassesSound(s) && IdsUsed(s.t, s.passes, s.used) && Enabled(s, Webhook(event, eventType, reference, id))
    ensures PassesSound(Next(s, Webhook(event, eventType, reference, id)))
  {
    var t' := HandleWebhook(s.t, event, eventType, reference, id).0;
    forall r | r in s.passes
      ensures PassSound(t', s.ps.refunds, s.booking.db.outbox, s.booking.requests, s.passes[r])
    {
      assert PassSound(s.t, s.ps.refunds, s.booking.db.outbox, s.booking.requests, s.passes[r]);
      NewIdCarries(s.t, t', s.ps.refunds, s.booking.db.outbox, s.booking.requests, s.passes[r], id);
    }
  }

  /** A command under an id that no pass has taken disturbs no pass. */
  lemma NewIdCarries(t: Tables, t': Tables, refunds: map<nat, (RefundRequest, string)>, log: seq<BookingService.Row>,
                     requests: map<nat, History.Request>, pass: Pass, id: nat)
    requires PassSound(t, refunds, log, requests, pass) && !Reserved(pass, id) && id !in t.outbox
    requires t'.outbox == t.outbox || (id in t'.outbox && t'.outbox == t.outbox[id := t'.outbox[id]])
    ensures PassSound(t', refunds, log, requests, pass)
  {
    ReservedNotIn(t, refunds, log, requests, pass);
    PassCarries(t, t', refunds, refunds, log, log, requests, requests, pass);
  }

  lemma EventKeeps(t: Tables, refunds: map<nat, (RefundRequest, string)>, log: seq<BookingService.Row>,
                   event: string, eventType: string, reference: Option<nat>, id: nat)
    requires TablesSound(t, refunds, log) && id !in t.outbox
    ensures TablesSound(HandleWebhook(t, event, eventType, reference, id).0, refunds, log)
  {
    var t' := HandleWebhook(t, event, eventType, reference, id).0;
    if t'.outbox == t.outbox {
      if t'.payments != t.payments {
        FailedKeeps(t, t', refunds, reference.value);
      } else {
        CommandsStaySound(t, t', refunds);
      }
    } else {
      SucceededKeeps(t, t', refunds, log, reference.value, id);
    }
  }

  lemma FailedKeeps(t: Tables, t': Tables, refunds: map<nat, (RefundRequest, string)>, p: nat)
    requires UniqueCommands(t.outbox) && (forall c :: c in t.outbox ==> CommandSound(t, t.outbox[c]))
    requires forall x :: x in t.payments ==> PaymentSound(t, refunds, x)
    requires p in t.payments && t.payments[p].status.Pending? && t'.outbox == t.outbox
    requires t'.payments == t.payments[p := t.payments[p].(status := Status.Failed)]
    ensures forall c :: c in t'.outbox ==> CommandSound(t', t'.outbox[c])
    ensures forall x :: x in t'.payments ==> PaymentSound(t', refunds, x)
  {
    assert PaymentSound(t, refunds, p);
    forall c | c in t'.outbox ensures CommandSound(t', t'.outbox[c]) {
      assert CommandSound(t, t.outbox[c]);
    }
    forall x | x in t'.payments ensures PaymentSound(t', refunds, x) {
      assert PaymentSound(t, refunds, x);
    }
  }

  lemma SucceededKeeps(t: Tables, t': Tables, refunds: map<nat, (RefundRequest, string)>,
                       log: seq<BookingService.Row>, p: nat, id: nat)
    requires TablesSound(t, refunds, log) && id !in t.outbox
    requires p in t.payments && t.payments[p].status.Pending?
    requires t'.payments == t.payments[p := t.payments[p].(status := Succeeded)]
    requires t'.outbox == t.outbox[id := Row(Confirm(p, t.payments[p].booking), None, 0)]
    ensures TablesSound(t', refunds, log)
  {
    assert PaymentSound(t, refunds, p);
    PendingHasNoCommands(t, p);
    AddCommand(t.outbox, id, Row(Confirm(p, t.payments[p].booking), None, 0));
    forall c | c in t'.outbox ensures CommandSound(t', t'.outbox[c]) {
      if c != id {
        assert CommandSound(t, t.outbox[c]);
      }
    }
    forall x | x in t'.payments ensures PaymentSound(t', refunds, x) {
      assert PaymentSound(t, refunds, x);
    }
  }

  lemma PendingHasNoCommands(t: Tables, p: nat)
    requires forall c :: c in t.outbox ==> CommandSound(t, t.outbox[c])
    requires p in t.payments && !t.payments[p].status.Succeeded?
    ensures !HasConfirm(t.outbox, p) && !HasRefund(t.outbox, p)
  {
    forall c | c in t.outbox && !t.outbox[c].command.Unknown? ensures t.outbox[c].command.payment != p {
      assert CommandSound(t, t.outbox[c]);
    }
  }

  // ---- steps of a relay

  lemma BeginKeeps(s: State, r: nat, limit: nat)
    requires Inv(s) && Enabled(s, Begin(r, limit))
    ensures Inv(Next(s, Begin(r, limit)))
  {
    var s' := Next(s, Begin(r, limit));
    BatchIsFree(s.t, s.passes, limit);
    StaysApart(s.passes, r, s'.passes[r]);
    assert forall o, x | o in s'.passes && Reserved(s'.passes[o], x) :: o in s.passes && Reserved(s.passes[o], x);
  }

  /** A pass takes rows nobody has published and nobody else holds. */
  lemma BatchIsFree(t: Tables, passes: map<nat, Pass>, limit: nat)
    ensures var batch := Batches.FirstN(Eligible(t, Batches.Locked(passes, RowsOf)), limit);
      && Unsettled(t, batch)
      && (forall o, c | o in passes && passes[o].Passing? && c in passes[o].batch :: c !in batch)
  {
    var free := Eligible(t, Batches.Locked(passes, RowsOf));
    Batches.FirstNIsPrefix(free, limit);
    var batch := Batches.FirstN(free, limit);
    forall i | 0 <= i < |batch| ensures batch[i] in t.outbox && !Published(t.outbox[batch[i]]) {
      assert batch[i] in batch;
    }
    forall o, c | o in passes && passes[o].Passing? && c in passes[o].batch ensures c !in batch {
      var i :| 0 <= i < |passes[o].batch| && passes[o].batch[i] == c;
      assert RowsOf(passes[o])[i] == c && c in Batches.Locked(passes, RowsOf);
    }
  }

  lemma StaysApart(passes: map<nat, Pass>, r: nat, pass: Pass)
    requires Apart(passes) && r !in passes && pass.Passing? && pass.done == []
    requires forall o, c | o in passes && passes[o].Passing? && c in passes[o].batch :: c !in pass.batch
    ensures Apart(passes[r := pass])
  {
  }

  lemma SendConfirmKeeps(s: State, r: nat, q: nat)
    requires Inv(s) && Enabled(s, SendConfirm(r, q))
    ensures Inv(Next(s, SendConfirm(r, q)))
  {
    var s' := Next(s, SendConfirm(r, q));
    assert s.passes[r].batch[|s.passes[r].done|] in s.passes[r].batch;
    forall o | o in s'.passes
      ensures PassSound(s.t, s.ps.refunds, s.booking.db.outbox, s'.booking.requests, s'.passes[o])
    {
      assert PassSound(s.t, s.ps.refunds, s.booking.db.outbox, s.booking.requests, s.passes[o]);
      if o != r && s.passes[o].Passing? {
        assert s.passes[o].asking != Some(q);
      }
    }
    assert forall o, x :: o in s'.passes && Reserved(s'.passes[o], x) <==> o in s.passes && Reserved(s.passes[o], x);
    assert Apart(s'.passes);
    assert History.RequestsSound(s'.booking.db.bookings, s'.booking.requests);
  }

  /** A pass that ends, or whose next command is done with an outcome that fits, leaves all well. */
  lemma FurtherKeeps(s: State, s': State, r: nat, outcome: Option<Outcome>)
    requires Inv(s) && HasCommand(s.t, s.passes, r)
    requires s'.t == s.t && s'.booking == s.booking && s.used <= s'.used
    requires s'.passes == s.passes[r := Further(s.passes[r], outcome)]
    requires forall p :: p in s.ps.refunds ==> p in s'.ps.refunds && s'.ps.refunds[p] == s.ps.refunds[p]
    requires outcome.Some? ==> OutcomeFits(CommandOf(s.t, s.passes, r), outcome.value, s'.ps.refunds, s.booking.db.outbox)
    requires outcome.Some? && outcome.value.Rejected? ==> outcome.value.refund !in s.used && outcome.value.refund in s'.used
    ensures Inv(s')
  {
    var log, requests := s.booking.db.outbox, s.booking.requests;
    TablesCarry(s.t, s.ps.refunds, s'.ps.refunds, log, log);
    forall o | o in s'.passes ensures PassSound(s'.t, s'.ps.refunds, log, requests, s'.passes[o]) {
      ReservedNotIn(s.t, s.ps.refunds, log, requests, s.passes[o]);
      PassCarries(s.t, s.t, s.ps.refunds, s'.ps.refunds, log, log, requests, requests, s.passes[o]);
      if o == r && outcome.Some? {
        OutcomeAdded(s, s', r, outcome.value);
      }
    }
    FurtherStaysApart(s, s', r, outcome);
  }

  lemma OutcomeAdded(s: State, s': State, r: nat, outcome: Outcome)
    requires HasCommand(s.t, s.passes, r) && IdsUsed(s.t, s.passes, s.used)
    requires PassSound(s.t, s'.ps.refunds, s.booking.db.outbox, s.booking.requests, s.passes[r])
    requires OutcomeFits(CommandOf(s.t, s.passes, r), outcome, s'.ps.refunds, s.booking.db.outbox)
    requires outcome.Rejected? ==> outcome.refund !in s.used
    ensures PassSound(s.t, s'.ps.refunds, s.booking.db.outbox, s.booking.requests, Further(s.passes[r], Some(outcome)))
  {
    var pass := s.passes[r];
    var n := |pass.done|;
    assert pass.batch[n] in pass.batch;
    var done := pass.done + [outcome];
    forall i | 0 <= i < n && done[i].Rejected? ensures done[i].refund in s.used {
      assert pass.done[i] in pass.done && Reserved(pass, done[i].refund);
    }
    forall i | 0 <= i < |done| ensures OutcomeFits(s.t.outbox[pass.batch[i]].command, done[i], s'.ps.refunds, s.booking.db.outbox) {
      if i < n {
        assert OutcomeFits(s.t.outbox[pass.batch[i]].command, pass.done[i], s'.ps.refunds, s.booking.db.outbox);
      }
    }
  }

  lemma FurtherStaysApart(s: State, s': State, r: nat, outcome: Option<Outcome>)
    requires HasCommand(s.t, s.passes, r) && Apart(s.passes) && IdsUsed(s.t, s.passes, s.used)
    requires s'.t == s.t && s.used <= s'.used && s'.passes == s.passes[r := Further(s.passes[r], outcome)]
    requires outcome.Some? && outcome.value.Rejected? ==> outcome.value.refund !in s.used && outcome.value.refund in s'.used
    ensures Apart(s'.passes) && IdsUsed(s'.t, s'.passes, s'.used)
  {
    forall o, x | o in s'.passes && Reserved(s'.passes[o], x)
      ensures Reserved(s.passes[o], x) || (o == r && outcome == Some(Rejected(x)))
    {
    }
  }

  lemma HearConfirmKeeps(s: State, r: nat, refund: nat)
    requires Inv(s) && Enabled(s, HearConfirm(r, refund))
    ensures Inv(Next(s, HearConfirm(r, refund)))
  {
    var pass := s.passes[r];
    var q := pass.asking.value;
    assert PassSound(s.t, s.ps.refunds, s.booking.db.outbox, s.booking.requests, pass);
    FurtherKeeps(s, Next(s, HearConfirm(r, refund)), r, OutcomeOf(s.booking.requests[q].phase.answer, refund));
  }

  lemma TryRefundKeeps(s: State, r: nat, id: string, answer: Answer)
    requires Inv(s) && Enabled(s, TryRefund(r, id, answer))
    ensures Inv(Next(s, TryRefund(r, id, answer)))
  {
    var pass := s.passes[r];
    var view := SettleAll(s.t, pass.batch, pass.done, 0);
    var p := CommandOf(s.t, s.passes, r).payment;
    ViewOfPass(s, r);
    PayBackFits(view, s.ps, p, id, answer);
    FurtherKeeps(s, Next(s, TryRefund(r, id, answer)), r, PayBack(view, s.ps, p, id, answer).1);
  }

  /** An outcome of a refund is the provider's own record of it. */
  lemma PayBackFits(view: Tables, ps: PayStub, p: nat, id: string, answer: Answer)
    requires p in view.payments && view.payments[p].refundedAt.None?
    ensures var (ps', outcome) := PayBack(view, ps, p, id, answer);
      && (forall x :: x in ps.refunds ==> x in ps'.refunds && ps'.refunds[x] == ps.refunds[x])
      && (outcome.Some? ==> p in ps'.refunds && outcome.value == Refunded(ps'.refunds[p].1))
  {
  }

  /** What the transaction of a pass sees of the payment it is about to refund. */
  lemma ViewOfPass(s: State, r: nat)
    requires Inv(s) && HasCommand(s.t, s.passes, r) && CommandOf(s.t, s.passes, r).Refund?
    ensures var view := SettleAll(s.t, s.passes[r].batch, s.passes[r].done, 0); var p := CommandOf(s.t, s.passes, r).payment;
      && p in s.t.payments && p in view.payments && view.payments[p].refundedAt.None?
      && SameTerms(s.t.payments[p], view.payments[p])
  {
    var pass := s.passes[r];
    assert PassSound(s.t, s.ps.refunds, s.booking.db.outbox, s.booking.requests, pass);
    SettleAllKeeps(s.t, s.ps.refunds, s.booking.db.outbox, pass.batch, pass.done, 0);
    var view := SettleAll(s.t, pass.batch, pass.done, 0);
    var c := pass.batch[|pass.done|];
    assert c in pass.batch && c !in pass.batch[..|pass.done|];
    assert view.outbox[c] == s.t.outbox[c];
    assert CommandSound(view, view.outbox[c]) && CommandSound(s.t, s.t.outbox[c]);
  }

  lemma CommitKeeps(s: State, r: nat, now: int)
    requires Inv(s) && Enabled(s, Commit(r, now))
    ensures Inv(Next(s, Commit(r, now)))
  {
    var pass := s.passes[r];
    var log, requests := s.booking.db.outbox, s.booking.requests;
    assert PassSound(s.t, s.ps.refunds, log, requests, pass);
    SettleAllKeeps(s.t, s.ps.refunds, log, pass.batch, pass.done, now);
    var t' := SettleAll(s.t, pass.batch, pass.done, now);
    assert pass.batch[..|pass.done|] == pass.batch;
    forall o | o in s.passes && o != r ensures PassSound(t', s.ps.refunds, log, requests, s.passes[o]) {
      ReservedNotIn(s.t, s.ps.refunds, log, requests, s.passes[o]);
      forall x | Reserved(s.passes[o], x) ensures x !in t'.outbox {
        assert !Reserved(pass, x);
      }
      PassCarries(s.t, t', s.ps.refunds, s.ps.refunds, log, log, requests, requests, s.passes[o]);
    }
    forall x | x in t'.outbox ensures x in s.used {
      if x !in s.t.outbox {
        assert Reserved(pass, x);
      }
    }
  }

  lemma NoteFailureKeeps(s: State, r: nat)
    requires Inv(s) && Enabled(s, NoteFailure(r))
    ensures Inv(Next(s, NoteFailure(r)))
  {
    var t' := CountFailure(s.t, s.passes[r].id);
    var log, requests := s.booking.db.outbox, s.booking.requests;
    SameCommands(s.t.outbox, t'.outbox);
    CommandsStaySound(s.t, t', s.ps.refunds);
    forall o | o in s.passes && o != r ensures PassSound(t', s.ps.refunds, log, requests, s.passes[o]) {
      ReservedNotIn(s.t, s.ps.refunds, log, requests, s.passes[o]);
      PassCarries(s.t, t', s.ps.refunds, s.ps.refunds, log, log, requests, requests, s.passes[o]);
    }
  }

  // ---- every step, every run

  lemma StepKeeps(s: State, step: Step)
    requires Inv(s) && Enabled(s, step)
    ensures Inv(Next(s, step))
  {
    match step {
      case Serve(inner) => ServeKeeps(s, inner);
      case Call(_, _, _, _) =>
      case Insert(c, id) => InsertKeeps(s, c, id);
      case ReadPayment(_) =>
      case AskCharge(_, _, _) =>
      case KeepCharge(c) => KeepChargeKeeps(s, c);
      case Abandon(_) =>
      case Webhook(event, eventType, reference, id) => WebhookKeeps(s, event, eventType, reference, id);
      case Begin(r, limit) => BeginKeeps(s, r, limit);
      case SendConfirm(r, q) => SendConfirmKeeps(s, r, q);
      case HearConfirm(r, refund) => HearConfirmKeeps(s, r, refund);
      case TryRefund(r, id, answer) => TryRefundKeeps(s, r, id, answer);
      case GiveUp(r) => FurtherKeeps(s, Next(s, step), r, None);
      case Commit(r, now) => CommitKeeps(s, r, now);
      case NoteFailure(r) => NoteFailureKeeps(s, r);
      case CrashRelay(_) =>
    }
  }

  lemma {:induction false} EveryRunKeeps(serial: bool, states: seq<State>, steps: seq<Step>, i: nat)
    requires Run(serial, states, steps) && i < |states|
    ensures Inv(states[i])
  {
    if i > 0 {
      EveryRunKeeps(serial, states, steps, i - 1);
      StepKeeps(states[i - 1], steps[i - 1]);
    }
  }
}
