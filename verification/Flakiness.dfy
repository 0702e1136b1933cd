/** Is a test flaky, and when may it leave quarantine. Runs are listed oldest first. */
module Flakiness {
  import opened Common

  datatype CaseStatus = Passed | Failed | Error | Skipped

  datatype Run = Run(commit: string, status: CaseStatus)

  datatype Verdict = NotEnoughData | Stable | Broken | Flaky

  datatype Policy = Policy(window: int, minRuns: int, threshold: real, ttl: int, stableRuns: int)

  const DEFAULT := Policy(20, 5, 0.15, 14 * DAY, 20)

  // ---- what is counted

  /** A skipped test ran no assertions. */
  function Conclusive(runs: seq<Run>): (r: seq<Run>)
    ensures |r| <= |runs| && forall i :: 0 <= i < |r| ==> !r[i].status.Skipped?
  {
    if runs == [] then []
    else
      var n := |runs| - 1;
      Conclusive(runs[..n]) + (if runs[n].status.Skipped? then [] else [runs[n]])
  }

  predicate DidFail(run: Run) {
    !run.status.Passed?
  }

  /** The slice `s[-n:]` of Python: the last `n`, everything for zero, and all but the first `-n`
      for a negative number. */
  function From<T>(s: seq<T>, n: int): seq<T> {
    if n == 0 || n >= |s| then s
    else if n > 0 then s[|s| - n..]
    else if -n >= |s| then []
    else s[-n..]
  }

  function WindowOf(runs: seq<Run>, policy: Policy): seq<Run> {
    From(Conclusive(runs), policy.window)
  }

  /** Some commit both passed and did not. */
  predicate Contradicts(runs: seq<Run>) {
    exists i, j :: 0 <= i < |runs| && 0 <= j < |runs| && !runs[i].status.Skipped? && !runs[j].status.Skipped?
                   && runs[i].commit == runs[j].commit && DidFail(runs[i]) && !DidFail(runs[j])
  }

  /** Collects the outcomes of every commit. */
  method FlippedOnSameCommit(runs: seq<Run>) returns (flipped: bool)
    ensures flipped <==> Contradicts(runs)
  {
    var outcomes: map<string, set<bool>> := map[];
    var counted := Conclusive(runs);
    var i := 0;
    while i < |counted|
      invariant 0 <= i <= |counted|
      invariant forall commit, outcome :: Seen(outcomes, commit, outcome) <==> Observed(counted[..i], commit, outcome)
    {
      var run := counted[i];
      assert counted[..i + 1] == counted[..i] + [run];
      ObservedMore(counted[..i], run);
      var before := if run.commit in outcomes then outcomes[run.commit] else {};
      outcomes := outcomes[run.commit := before + {DidFail(run)}];
      i := i + 1;
    }
    assert counted[..i] == counted;
    flipped := exists commit :: commit in outcomes && TwoFaced(outcomes[commit]);
    OutcomesTell(outcomes, counted);
    ContradictsWhenObserved(runs, counted);
  }

  predicate TwoFaced(seen: set<bool>) {
    |seen| > 1
  }

  predicate Seen(outcomes: map<string, set<bool>>, commit: string, outcome: bool) {
    commit in outcomes && outcome in outcomes[commit]
  }

  predicate Observed(runs: seq<Run>, commit: string, outcome: bool) {
    exists i :: 0 <= i < |runs| && runs[i].commit == commit && DidFail(runs[i]) == outcome
  }

  ghost predicate Both(runs: seq<Run>, commit: string) {
    Observed(runs, commit, true) && Observed(runs, commit, false)
  }

  lemma OutcomesTell(outcomes: map<string, set<bool>>, runs: seq<Run>)
    requires forall commit, outcome :: Seen(outcomes, commit, outcome) <==> Observed(runs, commit, outcome)
    ensures (exists commit :: commit in outcomes && TwoFaced(outcomes[commit]))
            <==> exists commit :: Both(runs, commit)
  {
    if commit :| commit in outcomes && TwoFaced(outcomes[commit]) {
      TwoOutcomes(outcomes[commit]);
      assert Seen(outcomes, commit, true) && Seen(outcomes, commit, false) && Both(runs, commit);
    }
    if commit :| Both(runs, commit) {
      assert Seen(outcomes, commit, true) && Seen(outcomes, commit, false);
      TwoOutcomes(outcomes[commit]);
    }
  }

  lemma ObservedMore(runs: seq<Run>, run: Run)
    ensures forall commit, outcome ::
      Observed(runs + [run], commit, outcome) <==>
      Observed(runs, commit, outcome) || (commit == run.commit && outcome == DidFail(run))
  {
    forall commit, outcome
      ensures Observed(runs + [run], commit, outcome) <==>
              Observed(runs, commit, outcome) || (commit == run.commit && outcome == DidFail(run))
    {
      var more := runs + [run];
      if i :| 0 <= i < |runs| && runs[i].commit == commit && DidFail(runs[i]) == outcome {
        assert more[i] == runs[i];
      }
      assert more[|runs|] == run;
    }
  }

  lemma TwoOutcomes(s: set<bool>)
    ensures TwoFaced(s) <==> true in s && false in s
  {
    forall x | x in s ensures x in {true, false} {
      assert x == true || x == false;
    }
    if true in s && false in s {
      assert s == {true, false};
    } else if true in s {
      assert s == {true};
    } else if false in s {
      assert s == {false};
    } else {
      assert s == {};
    }
  }

  /** Dropping skipped runs loses no evidence and adds none. */
  lemma {:induction false} ConclusiveKeeps(runs: seq<Run>, commit: string, outcome: bool)
    ensures Observed(Conclusive(runs), commit, outcome)
            <==> exists i :: 0 <= i < |runs| && !runs[i].status.Skipped? && runs[i].commit == commit && DidFail(runs[i]) == outcome
  {
    if runs != [] {
      var n := |runs| - 1;
      ConclusiveKeeps(runs[..n], commit, outcome);
      if !runs[n].status.Skipped? {
        ObservedMore(Conclusive(runs[..n]), runs[n]);
      } else {
        assert Conclusive(runs) == Conclusive(runs[..n]);
      }
    }
  }

  lemma ContradictsWhenObserved(runs: seq<Run>, counted: seq<Run>)
    requires counted == Conclusive(runs)
    ensures Contradicts(runs)
            <==> exists commit :: Both(counted, commit)
  {
    if i, j :| 0 <= i < |runs| && 0 <= j < |runs| && !runs[i].status.Skipped? && !runs[j].status.Skipped?
               && runs[i].commit == runs[j].commit && DidFail(runs[i]) && !DidFail(runs[j]) {
      ConclusiveKeeps(runs, runs[i].commit, true);
      ConclusiveKeeps(runs, runs[i].commit, false);
      assert Both(counted, runs[i].commit);
    }
    if commit :| Both(counted, commit) {
      ConclusiveKeeps(runs, commit, true);
      ConclusiveKeeps(runs, commit, false);
    }
  }

  function Flips(runs: seq<Run>): (k: nat)
    ensures |runs| >= 1 ==> k <= |runs| - 1
  {
    if |runs| < 2 then 0
    else
      var n := |runs| - 1;
      Flips(runs[..n]) + (if DidFail(runs[n - 1]) != DidFail(runs[n]) then 1 else 0)
  }

  function FlipRate(runs: seq<Run>, policy: Policy): real {
    var recent := WindowOf(runs, policy);
    if |recent| < 2 then 0.0 else Flips(recent) as real / (|recent| - 1) as real
  }

  predicate AllFail(runs: seq<Run>) {
    forall i :: 0 <= i < |runs| ==> DidFail(runs[i])
  }

  predicate AllPass(runs: seq<Run>) {
    forall i :: 0 <= i < |runs| ==> !DidFail(runs[i])
  }

  function Classify(runs: seq<Run>, policy: Policy): Verdict {
    var recent := WindowOf(runs, policy);
    if Contradicts(recent) then Flaky
    else if |recent| < policy.minRuns then NotEnoughData
    else if AllFail(recent) then Broken
    else if FlipRate(recent, policy) >= policy.threshold then Flaky
    else Stable
  }

  // ---- quarantine

  predicate EarnedRelease(since: seq<Run>, policy: Policy) {
    var recent := Conclusive(since);
    |recent| >= policy.stableRuns && AllPass(From(recent, policy.stableRuns))
  }

  datatype QuarantineState = Active | Released | Expired

  /** Release comes before expiry, and the deadline itself is already past. */
  function StateOf(openedAt: int, since: seq<Run>, now: int, policy: Policy): QuarantineState {
    if EarnedRelease(since, policy) then Released
    else if now >= openedAt + policy.ttl then Expired
    else Active
  }

  // ---- exactly which verdict

  predicate Conclusively(run: Run) {
    run.status in {Passed, Failed, Error}
  }

  /** Runs of one commit in the window that passed and that did not. */
  ghost predicate BothWays(recent: seq<Run>) {
    exists i, j :: 0 <= i < |recent| && 0 <= j < |recent|
      && recent[i].commit == recent[j].commit && recent[i].status == Passed && recent[j].status in {Failed, Error}
  }

  ghost predicate NonePassed(recent: seq<Run>) {
    forall i :: 0 <= i < |recent| ==> recent[i].status in {Failed, Error}
  }

  /** The proof by a retry comes first, whatever the number of runs; then too few runs; then a test that
      failed every time is broken and nothing else is; the share of flips decides the rest. */
  lemma VerdictsExactly(runs: seq<Run>, policy: Policy)
    ensures var recent, verdict := WindowOf(runs, policy), Classify(runs, policy);
      && (forall i :: 0 <= i < |recent| ==> Conclusively(recent[i]))
      && (verdict == Broken <==> |recent| >= policy.minRuns && NonePassed(recent))
      && (verdict == NotEnoughData <==> |recent| < policy.minRuns && !BothWays(recent))
      && (BothWays(recent) ==> verdict == Flaky)
      && (verdict in {Flaky, Stable} && !BothWays(recent) ==>
            (verdict == Flaky <==> FlipRate(recent, policy) >= policy.threshold))
  {
    var recent := WindowOf(runs, policy);
    assert forall i :: 0 <= i < |recent| ==> Conclusively(recent[i]);
    assert Contradicts(recent) <==> BothWays(recent);
    assert AllFail(recent) <==> NonePassed(recent);
  }

  /** The pairs of neighbours with different outcomes. */
  predicate ChangesAt(runs: seq<Run>, i: int) {
    0 < i < |runs| && (runs[i - 1].status == Passed) != (runs[i].status == Passed)
  }

  ghost function Changes(runs: seq<Run>): set<int> {
    set i | 0 < i < |runs| && ChangesAt(runs, i)
  }

  /** The rate is the share of such pairs among all pairs, and zero where there is no pair. */
  lemma RateExactly(runs: seq<Run>, policy: Policy)
    ensures var recent := WindowOf(runs, policy);
      FlipRate(runs, policy) == if |recent| < 2 then 0.0 else |Changes(recent)| as real / (|recent| - 1) as real
  {
    FlipsAreChanges(WindowOf(runs, policy));
  }

  lemma {:induction false} FlipsAreChanges(runs: seq<Run>)
    ensures Flips(runs) == |Changes(runs)|
  {
    if |runs| < 2 {
      assert Changes(runs) == {};
    } else {
      var n := |runs| - 1;
      var front := runs[..n];
      FlipsAreChanges(front);
      OneMorePair(runs);
    }
  }

  lemma OneMorePair(runs: seq<Run>)
    requires |runs| >= 2
    ensures var n := |runs| - 1;
      |Changes(runs)| == |Changes(runs[..n])| + (if (runs[n - 1].status == Passed) != (runs[n].status == Passed) then 1 else 0)
  {
    var n := |runs| - 1;
    var front := runs[..n];
    forall i | 0 < i < n ensures ChangesAt(front, i) <==> ChangesAt(runs, i) {}
    if ChangesAt(runs, n) {
      assert Changes(runs) == Changes(front) + {n};
    } else {
      assert Changes(runs) == Changes(front);
    }
  }

  /** An entry is released exactly if the last `stableRuns` conclusive runs since its quarantine are there
      and all passed, on its last day too; otherwise it is expired exactly from its deadline on. */
  lemma StateExactly(openedAt: int, since: seq<Run>, now: int, policy: Policy)
    requires policy.stableRuns >= 1
    ensures var recent, state := Conclusive(since), StateOf(openedAt, since, now, policy);
      && (state == Released <==>
            |recent| >= policy.stableRuns
            && forall i :: |recent| - policy.stableRuns <= i < |recent| ==> recent[i].status == Passed)
      && (state == QuarantineState.Expired <==> state != Released && openedAt + policy.ttl <= now)
  {
    var recent := Conclusive(since);
    if |recent| >= policy.stableRuns {
      var last := From(recent, policy.stableRuns);
      assert last == recent[|recent| - policy.stableRuns..];
      assert forall i :: |recent| - policy.stableRuns <= i < |recent| ==> recent[i] == last[i - (|recent| - policy.stableRuns)];
      assert forall k :: 0 <= k < |last| ==> last[k] == recent[k + (|recent| - policy.stableRuns)];
    }
  }

  /** The default thresholds: two weeks of quarantine, and twenty passes in a row to leave it. */
  lemma DefaultByNumbers(openedAt: int, since: seq<Run>, now: int)
    ensures var recent, state := Conclusive(since), StateOf(openedAt, since, now, DEFAULT);
      && (state == Released <==>
            |recent| >= 20 && forall i :: |recent| - 20 <= i < |recent| ==> recent[i].status == Passed)
      && (state == QuarantineState.Expired <==> state != Released && openedAt + 14 * 24 * 3600 * 1_000_000 <= now)
    ensures |WindowOf(since, DEFAULT)| == if |Conclusive(since)| < 20 then |Conclusive(since)| else 20
    ensures |Conclusive(since)| < 5 ==> Classify(since, DEFAULT) in {Flaky, NotEnoughData}
  {
    StateExactly(openedAt, since, now, DEFAULT);
    VerdictsExactly(since, DEFAULT);
  }

  // ---- what does not matter

  lemma {:induction false} ConclusiveConcat(a: seq<Run>, b: seq<Run>)
    ensures Conclusive(a + b) == Conclusive(a) + Conclusive(b)
  {
    if b == [] {
      assert a + b == a;
    } else {
      var n := |b| - 1;
      ConclusiveConcat(a, b[..n]);
      assert (a + b)[..|a + b| - 1] == a + b[..n];
    }
  }

  lemma {:induction false} ConclusiveTwice(runs: seq<Run>)
    requires forall i :: 0 <= i < |runs| ==> !runs[i].status.Skipped?
    ensures Conclusive(runs) == runs
  {
    if runs != [] {
      ConclusiveTwice(runs[..|runs| - 1]);
    }
  }

  /** Skipped runs, wherever they are, change neither the verdict nor the state of a quarantine. */
  lemma SkippedRunsDoNotMatter(before: seq<Run>, skipped: seq<Run>, after: seq<Run>, policy: Policy, openedAt: int, now: int)
    requires forall i :: 0 <= i < |skipped| ==> skipped[i].status.Skipped?
    ensures Classify(before + skipped + after, policy) == Classify(before + after, policy)
    ensures StateOf(openedAt, before + skipped + after, now, policy) == StateOf(openedAt, before + after, now, policy)
  {
    NothingConclusive(skipped);
    ConclusiveConcat(before + skipped, after);
    ConclusiveConcat(before, skipped);
    ConclusiveConcat(before, after);
    assert Conclusive(before) + [] == Conclusive(before);
  }

  lemma {:induction false} NothingConclusive(runs: seq<Run>)
    requires forall i :: 0 <= i < |runs| ==> runs[i].status.Skipped?
    ensures Conclusive(runs) == []
  {
    if runs != [] {
      NothingConclusive(runs[..|runs| - 1]);
    }
  }

  /** Nothing older than the last `window` conclusive runs matters. */
  lemma OldRunsDoNotMatter(older: seq<Run>, runs: seq<Run>, policy: Policy)
    requires policy.window >= 1 && |Conclusive(runs)| >= policy.window
    ensures WindowOf(older + runs, policy) == WindowOf(runs, policy)
    ensures Classify(older + runs, policy) == Classify(runs, policy)
  {
    ConclusiveConcat(older, runs);
    FromTheEnd(Conclusive(older), Conclusive(runs), policy.window);
    SameWindowSameVerdict(older + runs, runs, policy);
  }

  lemma FromTheEnd<T>(a: seq<T>, b: seq<T>, n: int)
    requires 1 <= n <= |b|
    ensures From(a + b, n) == From(b, n)
  {
    assert (a + b)[|a + b| - n..] == b[|b| - n..];
  }

  lemma SameWindowSameVerdict(a: seq<Run>, b: seq<Run>, policy: Policy)
    requires WindowOf(a, policy) == WindowOf(b, policy)
    ensures Classify(a, policy) == Classify(b, policy)
  {
  }

  /** The rate inside the verdict is that of the window: taking the window twice changes nothing. */
  lemma WindowTwice(runs: seq<Run>, policy: Policy)
    requires policy.window >= 0
    ensures WindowOf(WindowOf(runs, policy), policy) == WindowOf(runs, policy)
  {
    ConclusiveTwice(WindowOf(runs, policy));
  }

  // ---- the default thresholds

  predicate DistinctCommits(runs: seq<Run>) {
    forall i, j :: 0 <= i < j < |runs| ==> runs[i].commit != runs[j].commit
  }

  /** At the default thresholds, over runs on different commits: flaky means at least 15 flips in
      a hundred pairs. */
  lemma FlakyByNumbers(runs: seq<Run>, n: nat, k: nat)
    requires var recent := WindowOf(runs, DEFAULT);
      n == |recent| >= 5 && k == Flips(recent) && DistinctCommits(recent) && !AllFail(recent)
    ensures Classify(runs, DEFAULT) == if 100 * k >= 15 * (n - 1) then Flaky else Stable
  {
    var recent := WindowOf(runs, DEFAULT);
    WindowTwice(runs, DEFAULT);
    assert !Contradicts(recent);
    ShareAtLeast(k, n - 1);
  }

  lemma ShareAtLeast(k: nat, pairs: nat)
    requires pairs > 0
    ensures k as real / pairs as real >= 0.15 <==> 100 * k >= 15 * pairs
  {
    var share := k as real / pairs as real;
    assert share * pairs as real == k as real;
    if share >= 0.15 {
      assert share * pairs as real >= 0.15 * pairs as real;
    } else {
      assert share * pairs as real < 0.15 * pairs as real;
    }
  }

  /** A single regression is not flakiness from eight runs on, and is taken for it below. */
  lemma SingleRegression(runs: seq<Run>, n: nat)
    requires var recent := WindowOf(runs, DEFAULT); n == |recent| >= 5 && Flips(recent) == 1 && DistinctCommits(recent)
    ensures Classify(runs, DEFAULT) == Stable <==> n >= 8
  {
    var recent := WindowOf(runs, DEFAULT);
    if AllFail(recent) {
      NoFlips(recent, true);
    }
    FlakyByNumbers(runs, n, 1);
  }

  lemma {:induction false} NoFlips(runs: seq<Run>, outcome: bool)
    requires forall i :: 0 <= i < |runs| ==> DidFail(runs[i]) == outcome
    ensures Flips(runs) == 0
  {
    if |runs| >= 2 {
      NoFlips(runs[..|runs| - 1], outcome);
    }
  }

  // ---- release

  /** Whatever came before: the runs that earned the release are called stable. */
  ghost predicate ReleaseIsSafe(policy: Policy) {
    forall history, since :: EarnedRelease(since, policy) ==> Classify(history + since, policy) == Stable
  }

  lemma ReleasedIsStable(history: seq<Run>, since: seq<Run>, policy: Policy)
    requires 1 <= policy.window <= policy.stableRuns && policy.minRuns <= policy.window && policy.threshold > 0.0
    requires EarnedRelease(since, policy)
    ensures Classify(history + since, policy) == Stable
  {
    OldRunsDoNotMatter(history, since, policy);
    var recent, proof := WindowOf(since, policy), From(Conclusive(since), policy.stableRuns);
    assert recent == proof[|proof| - policy.window..];
    PassingWindowIsStable(since, policy);
  }

  lemma PassingWindowIsStable(runs: seq<Run>, policy: Policy)
    requires policy.window >= 1 && policy.threshold > 0.0
    requires AllPass(WindowOf(runs, policy)) && WindowOf(runs, policy) != [] && policy.minRuns <= |WindowOf(runs, policy)|
    ensures Classify(runs, policy) == Stable
  {
    var recent := WindowOf(runs, policy);
    WindowTwice(runs, policy);
    NoFlips(recent, false);
    assert !DidFail(recent[0]);
  }

  function Repeat(run: Run, n: nat): (r: seq<Run>)
    ensures |r| == n && forall i :: 0 <= i < n ==> r[i] == run
  {
    seq(n, _ => run)
  }

  const PASS := Run("c", Passed)

  lemma PassesEarnRelease(policy: Policy)
    requires policy.stableRuns >= 1
    ensures EarnedRelease(Repeat(PASS, policy.stableRuns), policy)
    ensures Conclusive(Repeat(PASS, policy.stableRuns)) == Repeat(PASS, policy.stableRuns)
  {
    ConclusiveTwice(Repeat(PASS, policy.stableRuns));
  }

  const FAIL := Run("c", Failed)

  /** A window that shows a failure before the passes of the same commit is flaky. */
  lemma FailureInTheWindow(runs: seq<Run>, policy: Policy, n: nat)
    requires n >= 1 && WindowOf(runs, policy) == [FAIL] + Repeat(PASS, n)
    ensures Classify(runs, policy) == Flaky
  {
    var recent := WindowOf(runs, policy);
    assert DidFail(recent[0]) && !DidFail(recent[1]) && recent[0].commit == recent[1].commit;
  }

  /** If the window reaches back behind the runs that earned the release, a failure there counts.
      A window of zero shows everything, a negative one everything but the first runs. */
  lemma LongWindowRemembers(policy: Policy) returns (history: seq<Run>)
    requires policy.stableRuns >= 1 && (policy.window > policy.stableRuns || policy.window <= 0)
    ensures Classify(history + Repeat(PASS, policy.stableRuns), policy) == Flaky
  {
    var n := policy.stableRuns;
    var hidden := Repeat(PASS, if policy.window < 0 then -policy.window else 0);
    history := hidden + [FAIL];
    var runs := history + Repeat(PASS, n);
    ConclusiveTwice(runs);
    assert runs == hidden + ([FAIL] + Repeat(PASS, n));
    assert WindowOf(runs, policy) == [FAIL] + Repeat(PASS, n);
    FailureInTheWindow(runs, policy, n);
  }

  /** Without a single run there is nothing stable. */
  lemma NoRunsAreNotStable(policy: Policy)
    ensures Classify([] + [], policy) != Stable
    ensures policy.stableRuns <= 0 ==> EarnedRelease([], policy)
  {
    var none: seq<Run> := [];
    assert none + none == none;
    assert Conclusive(none) == none && WindowOf(none, policy) == none;
  }

  /** Exactly which policies never quarantine a released test again at once. */
  lemma WhenReleaseIsSafe(policy: Policy)
    ensures ReleaseIsSafe(policy)
            <==> 1 <= policy.window <= policy.stableRuns && policy.minRuns <= policy.window && policy.threshold > 0.0
  {
    if policy.stableRuns <= 0 {
      NoRunsAreNotStable(policy);
    } else {
      var passes := Repeat(PASS, policy.stableRuns);
      PassesEarnRelease(policy);
      if policy.window > policy.stableRuns || policy.window <= 0 {
        var history := LongWindowRemembers(policy);
        assert EarnedRelease(passes, policy) && Classify(history + passes, policy) != Stable;
      } else if policy.minRuns <= policy.window && policy.threshold > 0.0 {
        forall history, since | EarnedRelease(since, policy) ensures Classify(history + since, policy) == Stable {
          ReleasedIsStable(history, since, policy);
        }
      } else {
        StrictPolicyNeverStable([] + passes, policy);
        assert EarnedRelease(passes, policy) && Classify([] + passes, policy) != Stable;
      }
    }
  }

  lemma DefaultReleaseIsSafe()
    ensures ReleaseIsSafe(DEFAULT)
  {
    WhenReleaseIsSafe(DEFAULT);
  }

  lemma StrictPolicyNeverStable(runs: seq<Run>, policy: Policy)
    requires policy.window >= 1 && (policy.minRuns > policy.window || policy.threshold <= 0.0)
    ensures Classify(runs, policy) != Stable
  {
    WindowTwice(runs, policy);
    var recent := WindowOf(runs, policy);
    if |recent| >= 2 {
      assert Flips(recent) as real / (|recent| - 1) as real >= 0.0;
    }
  }
}
