/** Sequences of steps of any machine. `moves(s, a, t)` says that the step `a` leads from `s` to `t`. */
module Paths {

  ghost predicate Leads<S(!new), T>(moves: (S, T, S) -> bool, s: S, steps: seq<T>, t: S)
    decreases |steps|
  {
    if steps == [] then s == t
    else exists mid :: moves(s, steps[0], mid) && Leads(moves, mid, steps[1..], t)
  }

  lemma First<S(!new), T(!new)>(moves: (S, T, S) -> bool, s: S, step: T, mid: S, rest: seq<T>, t: S)
    requires moves(s, step, mid) && Leads(moves, mid, rest, t)
    ensures Leads(moves, s, [step] + rest, t)
  {
    assert ([step] + rest)[1..] == rest;
  }

  lemma {:induction false} Join<S(!new), T(!new)>(moves: (S, T, S) -> bool, s: S, a: seq<T>, mid: S, b: seq<T>, t: S)
    requires Leads(moves, s, a, mid) && Leads(moves, mid, b, t)
    ensures Leads(moves, s, a + b, t)
    decreases |a|
  {
    if a == [] {
      assert a + b == b;
    } else {
      assert (a + b)[1..] == a[1..] + b;
      var next :| moves(s, a[0], next) && Leads(moves, next, a[1..], mid);
      Join(moves, next, a[1..], mid, b, t);
    }
  }

  lemma Last<S(!new), T(!new)>(moves: (S, T, S) -> bool, s: S, steps: seq<T>, mid: S, step: T, t: S)
    requires Leads(moves, s, steps, mid) && moves(mid, step, t)
    ensures Leads(moves, s, steps + [step], t)
  {
    First(moves, mid, step, t, [], t);
    assert [step] + [] == [step];
    Join(moves, s, steps, mid, [step], t);
  }

  /** Reachable from `start`. */
  ghost predicate Reached<S(!new), T(!new)>(moves: (S, T, S) -> bool, start: S, s: S) {
    exists steps: seq<T> :: Leads(moves, start, steps, s)
  }

  lemma Start<S(!new), T(!new)>(moves: (S, T, S) -> bool, start: S)
    ensures Reached(moves, start, start)
  {
    assert Leads(moves, start, [], start);
  }

  lemma Reach<S(!new), T(!new)>(moves: (S, T, S) -> bool, start: S, s: S, step: T, t: S)
    requires Reached(moves, start, s) && moves(s, step, t)
    ensures Reached(moves, start, t)
  {
    var steps :| Leads(moves, start, steps, s);
    Last(moves, start, steps, s, step, t);
  }

  /** The states on the way. */
  lemma {:induction false} OnTheWay<S(!new), T(!new)>(moves: (S, T, S) -> bool, s: S, steps: seq<T>, t: S)
    returns (states: seq<S>)
    requires Leads(moves, s, steps, t)
    ensures |states| == |steps| + 1 && states[0] == s && states[|steps|] == t
    ensures forall i :: 0 <= i < |steps| ==> moves(states[i], steps[i], states[i + 1])
    decreases |steps|
  {
    if steps == [] {
      states := [s];
    } else {
      var mid :| moves(s, steps[0], mid) && Leads(moves, mid, steps[1..], t);
      var rest := OnTheWay(moves, mid, steps[1..], t);
      states := [s] + rest;
      forall i | 0 <= i < |steps| ensures moves(states[i], steps[i], states[i + 1]) {
        if i > 0 {
          assert moves(rest[i - 1], steps[1..][i - 1], rest[i]);
        }
      }
    }
  }

  /** Something that begins false and becomes true exactly when one of some steps is taken. */
  ghost predicate Switched(now: seq<bool>, acts: seq<bool>) {
    && |now| == |acts| + 1 && !now[0] && forall k :: 0 <= k < |acts| ==> StepSwitches(now, acts, k)
  }

  predicate StepSwitches(now: seq<bool>, acts: seq<bool>, k: nat)
    requires k < |acts| < |now|
  {
    now[k + 1] <==> now[k] || acts[k]
  }

  lemma {:induction false} SwitchedExactly(now: seq<bool>, acts: seq<bool>, i: nat)
    requires Switched(now, acts) && i < |now|
    ensures now[i] <==> exists m :: 0 <= m < i && acts[m]
  {
    if i > 0 {
      SwitchedExactly(now, acts, i - 1);
      assert StepSwitches(now, acts, i - 1);
    }
  }
}
