/** Booking rules that need no database: statuses, the transition table, who owns a booking. */
module BookingDomain {
  import opened Common

  datatype Status = Pending | Confirmed | Cancelled | Expired

  /** At most one booking of a slot may be in one of these statuses. */
  predicate Active(s: Status) {
    s.Pending? || s.Confirmed?
  }

  function AllowedTargets(current: Status): set<Status> {
    match current
    case Pending => {Confirmed, Cancelled, Expired}
    case Confirmed => {Cancelled}
    case Cancelled => {}
    case Expired => {}
  }

  predicate Allowed(current: Status, target: Status) {
    target in AllowedTargets(current)
  }

  /** No transition leaves a terminal status. */
  predicate Terminal(s: Status) {
    AllowedTargets(s) == {}
  }

  /** The status reached by following a list of recorded changes from `Pending`,
      or nothing when some change in the list is not allowed. */
  function Walk(trail: seq<Status>): Option<Status> {
    if trail == [] then Some(Pending)
    else
      var before := Walk(trail[..|trail| - 1]);
      var last := trail[|trail| - 1];
      if before.Some? && Allowed(before.value, last) then Some(last) else None
  }

  /** The transition table has no way back, so a booking makes each change at most once. */
  lemma {:induction false} WalkNeverRepeats(trail: seq<Status>)
    requires Walk(trail).Some?
    ensures forall i, j :: 0 <= i < j < |trail| ==> trail[i] != trail[j]
    ensures Pending !in trail
    ensures trail != [] ==> Walk(trail) == Some(trail[|trail| - 1])
    ensures |trail| <= 2
    ensures |trail| == 2 ==> trail == [Confirmed, Cancelled]
  {
    if |trail| > 0 {
      WalkNeverRepeats(trail[..|trail| - 1]);
      var front := trail[..|trail| - 1];
      assert trail == front + [trail[|trail| - 1]];
    }
  }

  /** The paths there are: nothing yet, confirmed, confirmed and then cancelled, cancelled, expired. */
  lemma WalksExactly(trail: seq<Status>)
    ensures Walk(trail).Some?
            <==> trail in {[], [Confirmed], [Confirmed, Cancelled], [Cancelled], [Expired]}
  {
    if Walk(trail).Some? {
      WalkNeverRepeats(trail);
      assert |trail| == 1 ==> trail == [trail[0]];
    }
    forall s | s in {Confirmed, Cancelled, Expired} ensures Walk([s]) == Some(s) {
      assert Walk([s][..0]) == Some(Pending);
    }
    assert [Confirmed, Cancelled][..1] == [Confirmed];
  }

  lemma WalkAppend(trail: seq<Status>, target: Status)
    requires Walk(trail).Some? && Allowed(Walk(trail).value, target)
    ensures Walk(trail + [target]) == Some(target)
  {
    assert (trail + [target])[..|trail|] == trail;
  }

  datatype Role = Client | Master

  /** Who the caller is: a name in a role, read from a verified token. */
  datatype Identity = Identity(subject: string, role: Role)

  /** A client owns the bookings made in their name, a master those on their slots. */
  predicate Owns(who: Identity, client: string, master: string) {
    who.subject == (if who.role.Client? then client else master)
  }
}
