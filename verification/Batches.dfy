/** What `ORDER BY id LIMIT n FOR UPDATE SKIP LOCKED` hands to a relay. */
module Batches {

  function Least(s: set<nat>): (m: nat)
    requires s != {}
    ensures m in s && forall x :: x in s ==> m <= x
  {
    assert exists m :: m in s && forall x :: x in s ==> m <= x by {
      var least := LeastOf(s);
    }
    var m :| m in s && forall x :: x in s ==> m <= x;
    m
  }

  lemma {:induction false} LeastOf(s: set<nat>) returns (m: nat)
    requires s != {}
    ensures m in s && forall x :: x in s ==> m <= x
  {
    var a :| a in s;
    var rest := s - {a};
    if rest == {} {
      m := a;
    } else {
      var least := LeastOf(rest);
      m := if least < a then least else a;
    }
    forall x | x in s ensures m <= x {
      assert x == a || x in rest;
    }
  }

  /** The ids of all rows that some pass holds; `rowsOf` says which those of one pass are. */
  function Locked<P>(passes: map<nat, P>, rowsOf: P -> seq<nat>): set<nat> {
    set r, i | r in passes && 0 <= i < |rowsOf(passes[r])| :: rowsOf(passes[r])[i]
  }

  /** The first `limit` elements of `s` in ascending order. */
  function FirstN(s: set<nat>, limit: nat): seq<nat> {
    if limit == 0 || s == {} then [] else [Least(s)] + FirstN(s - {Least(s)}, limit - 1)
  }

  /** A batch is an initial segment of the eligible ids, in order, as long as the limit allows. */
  lemma {:induction false} FirstNIsPrefix(s: set<nat>, limit: nat)
    ensures forall i, j :: 0 <= i < j < |FirstN(s, limit)| ==> FirstN(s, limit)[i] < FirstN(s, limit)[j]
    ensures forall x :: x in FirstN(s, limit) ==> x in s
    ensures forall x, y :: x in FirstN(s, limit) && y in s && y < x ==> y in FirstN(s, limit)
    ensures |FirstN(s, limit)| == if limit < |s| then limit else |s|
  {
    if limit > 0 && s != {} {
      FirstNIsPrefix(s - {Least(s)}, limit - 1);
      var rest := FirstN(s - {Least(s)}, limit - 1);
      assert FirstN(s, limit) == [Least(s)] + rest;
      forall j | 0 <= j < |rest| ensures Least(s) < rest[j] {
        assert rest[j] in rest;
      }
      forall x, y | x in FirstN(s, limit) && y in s && y < x ensures y in FirstN(s, limit) {
        if y != Least(s) {
          assert x in rest && y in s - {Least(s)};
        }
      }
    }
  }

  function Smaller(s: set<nat>, x: nat): set<nat> {
    set y | y in s && y < x
  }

  /** In ascending order, those of `open` with fewer than `limit` others before them. */
  ghost predicate FirstOf(batch: seq<nat>, open: set<nat>, limit: nat) {
    && (forall i, j :: 0 <= i < j < |batch| ==> batch[i] < batch[j])
    && forall x :: x in batch <==> x in open && |Smaller(open, x)| < limit
  }

  lemma {:induction false} FirstNExactly(s: set<nat>, limit: nat)
    ensures forall x :: x in FirstN(s, limit) <==> x in s && |Smaller(s, x)| < limit
  {
    if limit > 0 && s != {} {
      var m := Least(s);
      FirstNExactly(s - {m}, limit - 1);
      assert Smaller(s, m) == {};
      forall x | x in s && x != m ensures |Smaller(s, x)| == |Smaller(s - {m}, x)| + 1 {
        OneLess(s, m, x);
      }
    }
  }

  lemma OneLess(s: set<nat>, m: nat, x: nat)
    requires m in s && m < x
    ensures |Smaller(s, x)| == |Smaller(s - {m}, x)| + 1
  {
    assert Smaller(s, x) == Smaller(s - {m}, x) + {m};
  }

  /** A batch is exactly that. */
  lemma FirstNIsFirst(s: set<nat>, limit: nat)
    ensures FirstOf(FirstN(s, limit), s, limit)
  {
    FirstNIsPrefix(s, limit);
    FirstNExactly(s, limit);
  }
}
