/** Confirm requests for one booking that never overlap: the assumption under which booking's
    refusals never mislead, so that no confirmed booking is refunded. */
module LedgerSerial {
  import opened Ledger
  import opened LedgerRules
  import opened LedgerRefunds
  import LedgerRuns
  import BookingService
  import History = BookingHistory

  /** One confirm request for a booking at a time, and none that saw the booking pending finds it confirmed. */
  ghost predicate OneAtATime(db: BookingService.Db, requests: map<nat, History.Request>) {
    && (forall q, o, b | InFlight(requests, q, b) && InFlight(requests, o, b) :: q == o)
    && (forall q | q in requests && requests[q].target.Confirmed? && requests[q].phase.Saw? ::
          requests[q].booking in db.bookings && !db.bookings[requests[q].booking].status.Confirmed?)
  }

  /** Booking's own steps start no confirm request. */
  lemma NothingNewInFlight(b: History.State, step: History.Step, q: nat, x: nat)
    requires History.Enabled(b, step) && (step.Ask? ==> !step.target.Confirmed?)
    requires InFlight(History.Next(b, step).requests, q, x)
    ensures InFlight(b.requests, q, x)
  {
  }

  /** A confirm request that saw the booking pending: alone in flight, so nobody else confirms it. */
  lemma SawStaysUnconfirmed(b: History.State, step: History.Step, q: nat)
    requires History.RequestsSound(b.db.bookings, b.requests) && History.Enabled(b, step) && OneAtATime(b.db, b.requests)
    requires step.Ask? ==> !step.target.Confirmed?
    requires var after := History.Next(b, step).requests;
      q in after && after[q].target.Confirmed? && after[q].phase.Saw?
    ensures q in b.requests && b.requests[q].booking == History.Next(b, step).requests[q].booking
    ensures b.requests[q].booking in b.db.bookings && !b.db.bookings[b.requests[q].booking].status.Confirmed?
    ensures step.Update? ==> !(step.q in b.requests && b.requests[step.q].target.Confirmed?
                               && b.requests[step.q].booking == b.requests[q].booking)
  {
    var x := History.Next(b, step).requests[q].booking;
    NothingNewInFlight(b, step, q, x);
    if step.Update? {
      assert q != step.q;
      assert !InFlight(b.requests, step.q, x);
    }
  }

  lemma NobodyElseConfirms(b: History.State, step: History.Step, x: nat)
    requires History.Enabled(b, step)
    requires x in b.db.bookings && !b.db.bookings[x].status.Confirmed?
    requires step.Update? ==> !(b.requests[step.q].target.Confirmed? && b.requests[step.q].booking == x)
    ensures x in History.Next(b, step).db.bookings && !History.Next(b, step).db.bookings[x].status.Confirmed?
  {
  }

  lemma StaysOneAtATime(b: History.State, step: History.Step)
    requires History.RequestsSound(b.db.bookings, b.requests) && History.Enabled(b, step) && OneAtATime(b.db, b.requests)
    requires step.Ask? ==> !step.target.Confirmed?
    ensures OneAtATime(History.Next(b, step).db, History.Next(b, step).requests)
  {
    var b' := History.Next(b, step);
    forall q, o, x | InFlight(b'.requests, q, x) && InFlight(b'.requests, o, x) ensures q == o {
      NothingNewInFlight(b, step, q, x);
      NothingNewInFlight(b, step, o, x);
    }
    forall q | q in b'.requests && b'.requests[q].target.Confirmed? && b'.requests[q].phase.Saw?
      ensures b'.requests[q].booking in b'.db.bookings && !b'.db.bookings[b'.requests[q].booking].status.Confirmed?
    {
      SawStaysUnconfirmed(b, step, q);
      NobodyElseConfirms(b, step, b'.requests[q].booking);
    }
  }

  lemma SendStaysOneAtATime(s: State, r: nat, q: nat)
    requires OneAtATime(s.booking.db, s.booking.requests) && Enabled(s, SendConfirm(r, q)) && NoOverlap(s, SendConfirm(r, q))
    ensures OneAtATime(Next(s, SendConfirm(r, q)).booking.db, Next(s, SendConfirm(r, q)).booking.requests)
  {
    var s' := Next(s, SendConfirm(r, q));
    forall o, b | InFlight(s'.booking.requests, o, b)
      ensures InFlight(s.booking.requests, o, b) || (o == q && b == CommandOf(s.t, s.passes, r).booking) {}
  }

  lemma {:induction false} SerialKeepsOneAtATime(states: seq<State>, steps: seq<Step>, i: nat)
    requires Run(true, states, steps) && i < |states|
    ensures OneAtATime(states[i].booking.db, states[i].booking.requests)
  {
    if i > 0 {
      SerialKeepsOneAtATime(states, steps, i - 1);
      LedgerRuns.EveryRunKeeps(true, states, steps, i - 1);
      if steps[i - 1].Serve? {
        StaysOneAtATime(states[i - 1].booking, steps[i - 1].service);
      } else if steps[i - 1].SendConfirm? {
        SendStaysOneAtATime(states[i - 1], steps[i - 1].r, steps[i - 1].q);
      }
    }
  }

  /** No step of a serial run misleads. */
  lemma SerialNeverMisleads(states: seq<State>, steps: seq<Step>, i: nat, b: nat)
    requires Run(true, states, steps) && i < |states|
    ensures !MisledBefore(states, steps, i, b)
  {
    forall m: nat | m < i ensures !Misleads(states[m], steps[m], b) {
      SerialKeepsOneAtATime(states, steps, m);
    }
  }

  /** If confirm requests for one booking never overlap, a refund is ordered only for a booking that
      is cancelled or expired, and it stays so in every later state. */
  lemma SerialRefundOnlyWhenOver(states: seq<State>, steps: seq<Step>, i: nat, j: nat, p: nat)
    requires Run(true, states, steps) && i <= j < |states|
    requires p in states[i].t.payments && HasRefund(states[i].t.outbox, p)
    ensures var b := states[i].t.payments[p].booking;
      && Over(states[i], b) && Over(states[j], b)
      && states[j].booking.db.bookings[b].status == states[i].booking.db.bookings[b].status
  {
    SerialNeverMisleads(states, steps, i, states[i].t.payments[p].booking);
    RefundOnlyWhenOver(states, steps, i, j, p);
  }
}
