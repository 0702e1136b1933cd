/** A pass of the payments relay as its methods carry it out, with booking answering for itself, is
    a run of the interleaved machine: what holds in every run holds for it. */
module LedgerPass {
  import opened Common
  import opened Paths
  import opened PaymentsService
  import opened Ledger
  import BookingDomain
  import BookingService
  import History = BookingHistory
  import PaymentsDesk
  import Batches

  // ---- what booking says when nobody else confirms the booking at the same time

  function Says(db: BookingService.Db, b: nat): BookingAnswer {
    if b !in db.bookings then Unavailable
    else if BookingDomain.Terminal(db.bookings[b].status) then Declines
    else Agrees
  }

  /** The answer booking gives, or none that the relay hears of. */
  predicate Plausible(t: Tables, db: BookingService.Db, batch: seq<nat>, replies: nat -> Reply) {
    forall i :: 0 <= i < |batch| && batch[i] in t.outbox && t.outbox[batch[i]].command.Confirm? ==>
      replies(i).booking == Unavailable || replies(i).booking == Says(db, t.outbox[batch[i]].command.booking)
  }

  /** Booking would answer every confirm as before. */
  ghost predicate AnswersAlike(db: BookingService.Db, db': BookingService.Db) {
    forall b :: Says(db', b) == Says(db, b)
  }

  lemma Unused(s: set<nat>) returns (x: nat)
    ensures x !in s
  {
    x := Above(s);
  }

  lemma {:induction false} Above(s: set<nat>) returns (x: nat)
    ensures forall y :: y in s ==> y < x
  {
    if s == {} {
      x := 0;
    } else {
      var y :| y in s;
      var rest := Above(s - {y});
      x := if rest > y then rest else y + 1;
      assert forall z :: z in s ==> z == y || z in s - {y};
    }
  }

  lemma FreshEvent(outbox: seq<BookingService.Row>) returns (id: nat)
    ensures BookingService.Fresh(outbox, id)
  {
    var ids := set i | 0 <= i < |outbox| :: outbox[i].event.id;
    id := Unused(ids);
    assert forall i :: 0 <= i < |outbox| ==> outbox[i].event.id in ids;
  }

  // ---- one confirm

  function Waiting(s: State, r: nat, batch: seq<nat>, done: seq<Outcome>, q: nat, b: History.State): State {
    s.(passes := s.passes[r := Passing(batch, done, Some(q))], booking := b)
  }

  /** Booking serves one confirm request from arrival to answer. */
  lemma ConfirmServed(s: State, r: nat, batch: seq<nat>, done: seq<Outcome>, q: nat, b: nat)
    returns (steps: seq<Step>, after: History.State)
    requires b in s.booking.db.bookings
    ensures var asked := s.booking.(requests := s.booking.requests[q := History.Request(b, BookingDomain.Confirmed, History.New)]);
      Leads(Moves(), Waiting(s, r, batch, done, q, asked), steps, Waiting(s, r, batch, done, q, after))
    ensures q in after.requests && after.requests[q].phase.Replied? && AnswersAlike(s.booking.db, after.db)
    ensures forall refund :: OutcomeOf(after.requests[q].phase.answer, refund)
              == if Says(s.booking.db, b).Agrees? then Some(Accepted) else Some(Rejected(refund))
  {
    var request := History.Request(b, BookingDomain.Confirmed, History.New);
    var asked := s.booking.(requests := s.booking.requests[q := request]);
    var read := asked.(requests := asked.requests[q := History.AfterRead(asked.db.bookings, request)]);
    assert Moves()(Waiting(s, r, batch, done, q, asked), Serve(History.Read(q)), Waiting(s, r, batch, done, q, read));
    if read.requests[q].phase.Saw? {
      var id := FreshEvent(read.db.outbox);
      after := History.Next(read, History.Update(q, 0, id));
      assert BookingDomain.Allowed(read.requests[q].phase.status, BookingDomain.Confirmed);
      assert Moves()(Waiting(s, r, batch, done, q, read), Serve(History.Update(q, 0, id)), Waiting(s, r, batch, done, q, after));
      First(Moves(), Waiting(s, r, batch, done, q, read), Serve(History.Update(q, 0, id)), Waiting(s, r, batch, done, q, after), [],
            Waiting(s, r, batch, done, q, after));
      steps := [Serve(History.Update(q, 0, id))] + [];
    } else {
      after := read;
      steps := [];
    }
    First(Moves(), Waiting(s, r, batch, done, q, asked), Serve(History.Read(q)), Waiting(s, r, batch, done, q, read), steps,
          Waiting(s, r, batch, done, q, after));
    steps := [Serve(History.Read(q))] + steps;
  }

  // ---- one command

  /** The pass after a command: what the provider, booking and the used ids have become. */
  function Onward(s: State, r: nat, pass: Pass, ps: PayStub, b: History.State, used: set<nat>): State {
    s.(ps := ps, passes := s.passes[r := pass], booking := b, used := used)
  }

  /** The pass stands before a command. */
  predicate At(s: State, r: nat, batch: seq<nat>, done: seq<Outcome>) {
    && r in s.passes && s.passes[r] == Passing(batch, done, None) && |done| < |batch|
    && forall c :: c in batch ==> c in s.t.outbox
  }

  lemma GivesUp(s: State, r: nat, batch: seq<nat>, done: seq<Outcome>) returns (steps: seq<Step>)
    requires At(s, r, batch, done)
    ensures Leads(Moves(), s, steps, Onward(s, r, Failing(batch[|done|]), s.ps, s.booking, s.used))
  {
    var t := Onward(s, r, Failing(batch[|done|]), s.ps, s.booking, s.used);
    assert Moves()(s, GiveUp(r), t);
    First(Moves(), s, GiveUp(r), t, [], t);
    steps := [GiveUp(r)] + [];
  }

  /** The request goes out, booking serves it, and the relay hears the answer. */
  lemma Confirms(s: State, r: nat, batch: seq<nat>, done: seq<Outcome>, refund: nat)
    returns (steps: seq<Step>, b: History.State)
    requires At(s, r, batch, done) && CommandOf(s.t, s.passes, r).Confirm? && refund !in s.used
    requires CommandOf(s.t, s.passes, r).booking in s.booking.db.bookings
    ensures var outcome := if Says(s.booking.db, CommandOf(s.t, s.passes, r).booking).Agrees? then Accepted else Rejected(refund);
      Leads(Moves(), s, steps, Onward(s, r, Passing(batch, done + [outcome], None), s.ps, b, s.used + {refund}))
    ensures AnswersAlike(s.booking.db, b.db)
  {
    var booking := CommandOf(s.t, s.passes, r).booking;
    var outcome := if Says(s.booking.db, booking).Agrees? then Accepted else Rejected(refund);
    var q := FreshRequest(s.booking.requests, s.passes);
    var served;
    served, b := ConfirmServed(s, r, batch, done, q, booking);
    var waiting := Waiting(s, r, batch, done, q, b);
    var t := Onward(s, r, Passing(batch, done + [outcome], None), s.ps, b, s.used + {refund});
    Hears(s, r, batch, done, q, b, refund, t);
    var asked := s.booking.(requests := s.booking.requests[q := History.Request(booking, BookingDomain.Confirmed, History.New)]);
    assert Moves()(s, SendConfirm(r, q), Waiting(s, r, batch, done, q, asked));
    Last(Moves(), Waiting(s, r, batch, done, q, asked), served, waiting, HearConfirm(r, refund), t);
    First(Moves(), s, SendConfirm(r, q), Waiting(s, r, batch, done, q, asked), served + [HearConfirm(r, refund)], t);
    steps := [SendConfirm(r, q)] + (served + [HearConfirm(r, refund)]);
  }

  lemma Hears(s: State, r: nat, batch: seq<nat>, done: seq<Outcome>, q: nat, b: History.State, refund: nat, t: State)
    requires At(s, r, batch, done) && CommandOf(s.t, s.passes, r).Confirm? && refund !in s.used
    requires q in b.requests && b.requests[q].phase.Replied?
    requires var outcome := OutcomeOf(b.requests[q].phase.answer, refund);
      outcome.Some? && t == Onward(s, r, Passing(batch, done + [outcome.value], None), s.ps, b, s.used + {refund})
    ensures Moves()(Waiting(s, r, batch, done, q, b), HearConfirm(r, refund), t)
  {
    var waiting := Waiting(s, r, batch, done, q, b);
    assert waiting.passes[r := Passing(batch, done + [OutcomeOf(b.requests[q].phase.answer, refund).value], None)] == t.passes;
  }

  lemma FreshRequest(requests: map<nat, History.Request>, passes: map<nat, Pass>) returns (q: nat)
    ensures q !in requests && !Awaited(passes, q)
  {
    var asked := set r | r in passes && passes[r].Passing? && passes[r].asking.Some? :: passes[r].asking.value;
    q := Unused(requests.Keys + asked);
  }

  /** The same commands, and payments that differ in the times of their refunds only. */
  ghost predicate SameButForTimes(left: Tables, right: Tables) {
    && left.payments.Keys == right.payments.Keys && left.outbox.Keys == right.outbox.Keys
    && (forall c :: c in left.outbox ==> left.outbox[c].command == right.outbox[c].command)
    && forall p :: p in left.payments ==> SamePayment(left.payments[p], right.payments[p])
  }

  predicate SamePayment(a: Payment, b: Payment) {
    a.charge == b.charge && a.amount == b.amount && a.refundedAt.Some? == b.refundedAt.Some?
  }

  lemma SettlesAlike(left: Tables, right: Tables, c: nat, outcome: Outcome, a: int, b: int)
    requires SameButForTimes(left, right) && c in left.outbox
    ensures SameButForTimes(Settle(left, c, outcome, a), Settle(right, c, outcome, b))
  {
  }

  lemma {:induction false} TimesShowInMarksOnly(t: Tables, batch: seq<nat>, done: seq<Outcome>, a: int, b: int)
    requires |done| <= |batch| && forall c :: c in batch ==> c in t.outbox
    ensures SameButForTimes(SettleAll(t, batch, done, a), SettleAll(t, batch, done, b))
    decreases |done|
  {
    if done != [] {
      var n := |done| - 1;
      TimesShowInMarksOnly(t, batch, done[..n], a, b);
      assert batch[n] in batch;
      SettlesAlike(SettleAll(t, batch, done[..n], a), SettleAll(t, batch, done[..n], b), batch[n], done[n], a, b);
    }
  }

  lemma Refunds(s: State, r: nat, batch: seq<nat>, done: seq<Outcome>, offer: string, answer: Answer, now: int)
    returns (steps: seq<Step>)
    requires At(s, r, batch, done) && CommandOf(s.t, s.passes, r).Refund?
    ensures var (ps, outcome) := PayBack(SettleAll(s.t, batch, done, now), s.ps, CommandOf(s.t, s.passes, r).payment, offer, answer);
      Leads(Moves(), s, steps, Onward(s, r, Further(s.passes[r], outcome), ps, s.booking, s.used))
  {
    var p := CommandOf(s.t, s.passes, r).payment;
    TimesShowInMarksOnly(s.t, batch, done, 0, now);
    var (ps, outcome) := PayBack(SettleAll(s.t, batch, done, now), s.ps, p, offer, answer);
    assert (ps, outcome) == PayBack(SettleAll(s.t, batch, done, 0), s.ps, p, offer, answer);
    var t := Onward(s, r, Further(s.passes[r], outcome), ps, s.booking, s.used);
    assert Moves()(s, TryRefund(r, offer, answer), t);
    First(Moves(), s, TryRefund(r, offer, answer), t, [], t);
    steps := [TryRefund(r, offer, answer)] + [];
  }

  /** Any command, delivered or not. */
  lemma Delivers(s: State, r: nat, batch: seq<nat>, done: seq<Outcome>, reply: Reply, refund: nat, now: int)
    returns (steps: seq<Step>, b: History.State, used: set<nat>)
    requires At(s, r, batch, done) && refund !in s.used
    requires CommandOf(s.t, s.passes, r).Confirm? ==>
               reply.booking == Unavailable || reply.booking == Says(s.booking.db, CommandOf(s.t, s.passes, r).booking)
    ensures var (ps, outcome) := Deliver(SettleAll(s.t, batch, done, now), s.ps, CommandOf(s.t, s.passes, r), reply, refund);
      Leads(Moves(), s, steps, Onward(s, r, Further(s.passes[r], outcome), ps, b, used))
    ensures AnswersAlike(s.booking.db, b.db) && s.used <= used <= s.used + {refund}
  {
    b, used := s.booking, s.used;
    match CommandOf(s.t, s.passes, r) {
      case Confirm(_, _) =>
        if reply.booking.Unavailable? {
          steps := GivesUp(s, r, batch, done);
        } else {
          steps, b := Confirms(s, r, batch, done, refund);
          used := s.used + {refund};
        }
      case Refund(_) => steps := Refunds(s, r, batch, done, reply.offer, reply.provider, now);
      case Unknown(_) => steps := GivesUp(s, r, batch, done);
    }
  }

  // ---- the whole pass

  /** The pass after its first commands, none of which failed. */
  function Midway(s: State, r: nat, batch: seq<nat>, done: seq<Outcome>, ps: PayStub, b: History.State, used: set<nat>): State {
    Onward(s, r, Passing(batch, done, None), ps, b, used)
  }

  lemma DeliversOne(s: State, r: nat, batch: seq<nat>, done: seq<Outcome>, ps: PayStub, b0: History.State, used0: set<nat>,
                    reply: Reply, refund: nat, now: int, ps': PayStub, outcome: Outcome)
    returns (steps: seq<Step>, b: History.State, used: set<nat>)
    requires |done| < |batch| && (forall c :: c in batch ==> c in s.t.outbox) && batch[|done|] in s.t.outbox
    requires AnswersAlike(s.booking.db, b0.db) && refund !in used0
    requires s.t.outbox[batch[|done|]].command.Confirm? ==>
               reply.booking == Unavailable || reply.booking == Says(s.booking.db, s.t.outbox[batch[|done|]].command.booking)
    requires Deliver(SettleAll(s.t, batch, done, now), ps, s.t.outbox[batch[|done|]].command, reply, refund) == (ps', Some(outcome))
    ensures Leads(Moves(), Midway(s, r, batch, done, ps, b0, used0), steps, Midway(s, r, batch, done + [outcome], ps', b, used))
    ensures AnswersAlike(s.booking.db, b.db) && used0 <= used <= used0 + {refund}
  {
    var mid := Midway(s, r, batch, done, ps, b0, used0);
    steps, b, used := DeliversNext(s, mid, r, batch, done, reply, refund, now);
    assert mid.passes[r := Passing(batch, done + [outcome], None)] == s.passes[r := Passing(batch, done + [outcome], None)];
  }

  /** One more command from the middle of a pass. */
  lemma DeliversNext(s: State, mid: State, r: nat, batch: seq<nat>, done: seq<Outcome>, reply: Reply, refund: nat, now: int)
    returns (steps: seq<Step>, b: History.State, used: set<nat>)
    requires At(mid, r, batch, done) && mid.t == s.t && AnswersAlike(s.booking.db, mid.booking.db) && refund !in mid.used
    requires batch[|done|] in s.t.outbox
    requires s.t.outbox[batch[|done|]].command.Confirm? ==>
               reply.booking == Unavailable || reply.booking == Says(s.booking.db, s.t.outbox[batch[|done|]].command.booking)
    ensures var (ps, outcome) := Deliver(SettleAll(s.t, batch, done, now), mid.ps, s.t.outbox[batch[|done|]].command, reply, refund);
      Leads(Moves(), mid, steps, Onward(mid, r, Further(mid.passes[r], outcome), ps, b, used))
    ensures AnswersAlike(s.booking.db, b.db) && mid.used <= used <= mid.used + {refund}
  {
    steps, b, used := Delivers(mid, r, batch, done, reply, refund, now);
  }

  /** What the relay leaves when it is through: no pass of its own, everybody else's as before. */
  ghost predicate ThroughWith(s: State, t: State) {
    t.passes == s.passes && t.callers == s.callers && AnswersAlike(s.booking.db, t.booking.db)
  }

  lemma CommitsAll(s: State, r: nat, batch: seq<nat>, done: seq<Outcome>, ps: PayStub, b: History.State, used: set<nat>, now: int)
    returns (steps: seq<Step>, t: State)
    requires r !in s.passes && |done| == |batch| && forall c :: c in batch ==> c in s.t.outbox
    ensures Leads(Moves(), Midway(s, r, batch, done, ps, b, used), steps, t)
    ensures t == s.(t := SettleAll(s.t, batch, done, now), ps := ps, booking := b, used := used)
  {
    var mid := Midway(s, r, batch, done, ps, b, used);
    t := s.(t := SettleAll(s.t, batch, done, now), ps := ps, booking := b, used := used);
    assert mid.passes - {r} == s.passes;
    assert Moves()(mid, Commit(r, now), t);
    First(Moves(), mid, Commit(r, now), t, [], t);
    steps := [Commit(r, now)] + [];
  }

  lemma NotesFailure(s: State, r: nat, c: nat, ps: PayStub, b: History.State, used: set<nat>)
    returns (steps: seq<Step>, t: State)
    requires r !in s.passes
    ensures Leads(Moves(), Onward(s, r, Failing(c), ps, b, used), steps, t)
    ensures t == s.(t := CountFailure(s.t, c), ps := ps, booking := b, used := used)
  {
    var failing := Onward(s, r, Failing(c), ps, b, used);
    t := s.(t := CountFailure(s.t, c), ps := ps, booking := b, used := used);
    assert failing.passes - {r} == s.passes;
    assert Moves()(failing, NoteFailure(r), t);
    First(Moves(), failing, NoteFailure(r), t, [], t);
    steps := [NoteFailure(r)] + [];
  }

  /** A command that fails, the rollback, and the counter. */
  lemma FailsAt(s: State, r: nat, batch: seq<nat>, done: seq<Outcome>, ps: PayStub, b: History.State, used: set<nat>,
                reply: Reply, refund: nat, now: int, ps': PayStub) returns (steps: seq<Step>, t: State)
    requires r !in s.passes && |done| < |batch| && (forall c :: c in batch ==> c in s.t.outbox)
    requires AnswersAlike(s.booking.db, b.db) && refund !in used
    requires batch[|done|] in s.t.outbox && (s.t.outbox[batch[|done|]].command.Confirm? ==>
               reply.booking == Unavailable || reply.booking == Says(s.booking.db, s.t.outbox[batch[|done|]].command.booking))
    requires Deliver(SettleAll(s.t, batch, done, now), ps, s.t.outbox[batch[|done|]].command, reply, refund) == (ps', None)
    ensures Leads(Moves(), Midway(s, r, batch, done, ps, b, used), steps, t) && ThroughWith(s, t)
    ensures t.t == CountFailure(s.t, batch[|done|]) && t.ps == ps'
  {
    var mid := Midway(s, r, batch, done, ps, b, used);
    var next, b', used' := DeliversNext(s, mid, r, batch, done, reply, refund, now);
    var failing := Onward(s, r, Failing(batch[|done|]), ps', b', used');
    assert mid.passes[r := Failing(batch[|done|])] == failing.passes;
    var rest;
    rest, t := NotesFailure(s, r, batch[|done|], ps', b', used');
    Join(Moves(), mid, next, failing, rest, t);
    steps := next + rest;
  }

  /** What the next command leads to: one more outcome, or the end of the pass. */
  lemma NextOfPass(t: Tables, ps0: PayStub, batch: seq<nat>, replies: nat -> Reply, now: int, base: nat,
                   n: nat, ps: PayStub, done: seq<Outcome>) returns (ps': PayStub, outcome: Option<Outcome>)
    requires n < |batch| && forall c :: c in batch ==> c in t.outbox
    requires (ps, done) == PaymentsDesk.Pass(t, ps0, batch, replies, now, base, n) && |done| == n
    ensures batch[n] in t.outbox
    ensures Deliver(SettleAll(t, batch, done, now), ps, t.outbox[batch[n]].command, replies(n), base + n) == (ps', outcome)
    ensures outcome.Some? ==> (ps', done + [outcome.value]) == PaymentsDesk.Pass(t, ps0, batch, replies, now, base, n + 1)
    ensures outcome.None? ==> PaymentsDesk.Passed(t, ps0, batch, replies, now, base, n, CountFailure(t, batch[n]), ps')
  {
    PaymentsDesk.StepOfPass(t, ps0, batch, replies, now, base, n);
    var result := Deliver(SettleAll(t, batch, done, now), ps, t.outbox[batch[n]].command, replies(n), base + n);
    ps', outcome := result.0, result.1;
  }

  /** How a command leaves the pass. */
  datatype Turn = Ended(t: State) | Went(ps: PayStub, done: seq<Outcome>, b: History.State, used: set<nat>)

  /** The pass has delivered its first `n` commands. */
  ghost predicate Stands(s: State, batch: seq<nat>, replies: nat -> Reply, now: int, base: nat, n: nat, turn: Turn) {
    && turn.Went? && n <= |batch| && |turn.done| == n && (forall c :: c in batch ==> c in s.t.outbox)
    && (turn.ps, turn.done) == PaymentsDesk.Pass(s.t, s.ps, batch, replies, now, base, n)
    && AnswersAlike(s.booking.db, turn.b.db) && forall x :: x in turn.used ==> x < base + n
  }

  function StateAt(s: State, r: nat, batch: seq<nat>, turn: Turn): State {
    match turn
    case Ended(t) => t
    case Went(ps, done, b, used) => Midway(s, r, batch, done, ps, b, used)
  }

  lemma OneTurn(s: State, r: nat, batch: seq<nat>, replies: nat -> Reply, now: int, base: nat, n: nat, turn: Turn)
    returns (steps: seq<Step>, next: Turn)
    requires r !in s.passes && Plausible(s.t, s.booking.db, batch, replies)
    requires Stands(s, batch, replies, now, base, n, turn) && n < |batch|
    ensures Leads(Moves(), StateAt(s, r, batch, turn), steps, StateAt(s, r, batch, next))
    ensures next.Went? ==> Stands(s, batch, replies, now, base, n + 1, next)
    ensures next.Ended? ==>
              ThroughWith(s, next.t) && PaymentsDesk.Passed(s.t, s.ps, batch, replies, now, base, n, next.t.t, next.t.ps)
  {
    var Went(ps, done, b, used) := turn;
    var ps', outcome := NextOfPass(s.t, s.ps, batch, replies, now, base, n, ps, done);
    if outcome.None? {
      var t;
      steps, t := FailsAt(s, r, batch, done, ps, b, used, replies(n), base + n, now, ps');
      next := Ended(t);
    } else {
      var b', used';
      steps, b', used' := DeliversOne(s, r, batch, done, ps, b, used, replies(n), base + n, now, ps', outcome.value);
      next := Went(ps', done + [outcome.value], b', used');
    }
  }

  /** From any command of a pass on which none has failed yet, to its end. */
  lemma {:induction false} DeliversFrom(s: State, r: nat, batch: seq<nat>, replies: nat -> Reply, now: int, base: nat, n: nat, turn: Turn)
    returns (steps: seq<Step>, t: State, count: nat)
    requires r !in s.passes && Plausible(s.t, s.booking.db, batch, replies)
    requires Stands(s, batch, replies, now, base, n, turn)
    ensures Leads(Moves(), StateAt(s, r, batch, turn), steps, t) && ThroughWith(s, t)
    ensures PaymentsDesk.Passed(s.t, s.ps, batch, replies, now, base, count, t.t, t.ps)
    decreases |batch| - n
  {
    if n == |batch| {
      steps, t := CommitsAll(s, r, batch, turn.done, turn.ps, turn.b, turn.used, now);
      count := n;
    } else {
      var first, next := OneTurn(s, r, batch, replies, now, base, n, turn);
      if next.Ended? {
        steps, t, count := first, next.t, n;
      } else {
        var rest;
        rest, t, count := DeliversFrom(s, r, batch, replies, now, base, n + 1, next);
        Join(Moves(), StateAt(s, r, batch, turn), first, StateAt(s, r, batch, next), rest, t);
        steps := first + rest;
      }
    }
  }

  /** Undisturbed, with booking answering for itself, a pass of the relay is a run of the machine,
      and what it leaves is what the relay's methods leave. */
  lemma PassIsARun(s: State, r: nat, limit: nat, replies: nat -> Reply, now: int, base: nat)
    returns (steps: seq<Step>, t: State, done: nat)
    requires r !in s.passes && forall x :: x in s.used ==> x < base
    requires Plausible(s.t, s.booking.db, Batches.FirstN(Eligible(s.t, Batches.Locked(s.passes, RowsOf)), limit), replies)
    ensures var batch := Batches.FirstN(Eligible(s.t, Batches.Locked(s.passes, RowsOf)), limit);
      && Leads(Moves(), s, steps, t) && ThroughWith(s, t)
      && PaymentsDesk.Passed(s.t, s.ps, batch, replies, now, base, done, t.t, t.ps)
  {
    var batch := Batches.FirstN(Eligible(s.t, Batches.Locked(s.passes, RowsOf)), limit);
    Batches.FirstNIsPrefix(Eligible(s.t, Batches.Locked(s.passes, RowsOf)), limit);
    var begun := Midway(s, r, batch, [], s.ps, s.booking, s.used);
    var rest;
    rest, t, done := DeliversFrom(s, r, batch, replies, now, base, 0, Went(s.ps, [], s.booking, s.used));
    assert Moves()(s, Begin(r, limit), begun);
    First(Moves(), s, Begin(r, limit), begun, rest, t);
    steps := [Begin(r, limit)] + rest;
  }
}
