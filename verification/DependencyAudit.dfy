/** The dependency gate: which reported vulnerabilities become findings, and when a change may pass. */
module DependencyAudit {
  import opened Common
  import opened AcceptedRisks

  const GRACE_DAYS := 30

  const BLOCKING := {"CRITICAL", "HIGH", "UNKNOWN"}

  /** One vulnerability record as the scanner reports it; `published` is a number of days. */
  datatype Record = Record(package: string, version: string, advisory: string, aliases: seq<string>,
                           fixVersions: seq<string>, published: int)

  datatype Finding = Finding(project: string, record: Record)

  function Identifiers(r: Record): set<string> {
    {r.advisory} + set alias | alias in r.aliases
  }

  // ---- one vulnerability, many records

  /** Texts are ordered by their first differing character. */
  predicate AtMost(a: string, b: string) {
    if a == "" then true
    else if b == "" then false
    else a[0] < b[0] || (a[0] == b[0] && AtMost(a[1..], b[1..]))
  }

  lemma {:induction false} AtMostIsTotal(a: string, b: string)
    ensures AtMost(a, b) || AtMost(b, a)
    ensures AtMost(a, b) && AtMost(b, a) ==> a == b
  {
    if a != "" && b != "" {
      AtMostIsTotal(a[1..], b[1..]);
      assert a == [a[0]] + a[1..] && b == [b[0]] + b[1..];
    }
  }

  lemma {:induction false} AtMostIsTransitive(a: string, b: string, c: string)
    requires AtMost(a, b) && AtMost(b, c)
    ensures AtMost(a, c)
  {
    if a != "" && b != "" && c != "" {
      if a[0] == b[0] && b[0] == c[0] {
        AtMostIsTransitive(a[1..], b[1..], c[1..]);
      }
    }
  }

  const CVE := "CVE-"
  const GHSA := "GHSA-"

  function CveNames(names: seq<string>): seq<string> {
    if names == [] then []
    else
      var n := |names| - 1;
      CveNames(names[..n]) + (if CVE <= names[n] then [names[n]] else [])
  }

  function LeastName(names: seq<string>): (r: string)
    requires names != []
    ensures r in names
  {
    if |names| == 1 then names[0]
    else
      var rest := LeastName(names[..|names| - 1]);
      if AtMost(rest, names[|names| - 1]) then rest else names[|names| - 1]
  }

  function CanonicalKey(advisory: string, aliases: seq<string>): string {
    var cves := CveNames([advisory] + aliases);
    if cves != [] then LeastName(cves) else advisory
  }

  lemma {:induction false} FirstIsLeast(names: seq<string>)
    requires names != []
    ensures forall x :: x in names ==> AtMost(LeastName(names), x)
  {
    var n := |names| - 1;
    AtMostIsTotal(names[n], names[n]);
    if n > 0 {
      var rest := LeastName(names[..n]);
      FirstIsLeast(names[..n]);
      AtMostIsTotal(rest, names[n]);
      forall x | x in names ensures AtMost(LeastName(names), x) {
        if x != names[n] {
          assert x in names[..n];
          if !AtMost(rest, names[n]) {
            AtMostIsTransitive(names[n], rest, x);
          }
        }
      }
    }
  }

  lemma {:induction false} CveNamesAre(names: seq<string>)
    ensures forall x :: x in CveNames(names) <==> x in names && CVE <= x
  {
    if names != [] {
      var n := |names| - 1;
      CveNamesAre(names[..n]);
      assert names == names[..n] + [names[n]];
    }
  }

  /** Records that carry the same identifiers have the same key: it does not matter under which of
      them the vulnerability is reported, as long as one is a CVE number. */
  lemma KeyIsShared(a: Record, b: Record)
    requires Identifiers(a) == Identifiers(b) && exists x :: x in Identifiers(a) && CVE <= x
    ensures CanonicalKey(a.advisory, a.aliases) == CanonicalKey(b.advisory, b.aliases)
    ensures CanonicalKey(a.advisory, a.aliases) in Identifiers(a)
  {
    var left, right := CveNames([a.advisory] + a.aliases), CveNames([b.advisory] + b.aliases);
    CveNamesAre([a.advisory] + a.aliases);
    CveNamesAre([b.advisory] + b.aliases);
    var x :| x in Identifiers(a) && CVE <= x;
    assert x in left;
    forall y ensures y in left <==> y in right {
      assert y in left <==> y in Identifiers(a) && CVE <= y;
      assert y in right <==> y in Identifiers(b) && CVE <= y;
    }
    FirstIsLeast(left);
    FirstIsLeast(right);
    AtMostIsTotal(LeastName(left), LeastName(right));
  }

  /** The order is that of the first character that differs; a text comes before its continuations. */
  lemma {:induction false} AtMostExactly(a: string, b: string)
    ensures AtMost(a, b) <==> exists k :: 0 <= k <= |a| && ComesFirst(a, b, k)
  {
    if a == "" {
      assert ComesFirst(a, b, 0);
    } else if b != "" {
      AtMostExactly(a[1..], b[1..]);
      if a[0] < b[0] {
        assert ComesFirst(a, b, 0);
      } else if k :| 0 <= k <= |a[1..]| && ComesFirst(a[1..], b[1..], k) && a[0] == b[0] {
        assert a[..k + 1] == [a[0]] + a[1..][..k] && b[..k + 1] == [b[0]] + b[1..][..k];
        assert ComesFirst(a, b, k + 1);
      }
      if k :| 0 <= k <= |a| && ComesFirst(a, b, k) && k > 0 {
        assert a[..k][0] == b[..k][0];
        assert a[1..][..k - 1] == a[..k][1..] && b[1..][..k - 1] == b[..k][1..];
        assert ComesFirst(a[1..], b[1..], k - 1);
      }
    }
  }

  predicate ComesFirst(a: string, b: string, k: nat) {
    && k <= |a| && k <= |b| && a[..k] == b[..k] && (k == |a| || (k < |b| && a[k] < b[k]))
  }

  /** One of the identifiers of the record, and a CVE number. */
  predicate HasCve(r: Record, x: string) {
    (x == r.advisory || x in r.aliases) && "CVE-" <= x
  }

  /** The key of a record: its first CVE number in that order, or its own name if it has none. */
  lemma KeyExactly(r: Record)
    ensures var key := CanonicalKey(r.advisory, r.aliases);
      if exists x :: HasCve(r, x) then HasCve(r, key) && forall x :: HasCve(r, x) ==> AtMost(key, x)
      else key == r.advisory
  {
    var cves := CveNames([r.advisory] + r.aliases);
    CveNamesAre([r.advisory] + r.aliases);
    forall x ensures x in cves <==> HasCve(r, x) {
      assert x in [r.advisory] + r.aliases <==> x == r.advisory || x in r.aliases;
    }
    if cves != [] {
      FirstIsLeast(cves);
      assert cves[0] in cves;
    }
  }

  type Key = (string, string, string)

  function KeyOf(r: Record): Key {
    (r.package, r.version, CanonicalKey(r.advisory, r.aliases))
  }

  predicate FromGitHub(r: Record) {
    GHSA <= r.advisory
  }

  function Preferred(left: Record, right: Record): Record {
    if FromGitHub(right) then right else left
  }

  /** The record a finding is made of: of those with its key the last one from GitHub, or the first
      one when none is. */
  predicate Chosen(records: seq<Record>, j: nat) {
    && j < |records|
    && if FromGitHub(records[j])
       then forall i :: j < i < |records| && KeyOf(records[i]) == KeyOf(records[j]) ==> !FromGitHub(records[i])
       else forall i :: 0 <= i < |records| && KeyOf(records[i]) == KeyOf(records[j]) ==> !FromGitHub(records[i]) && j <= i
  }

  lemma OneChosenPerKey(records: seq<Record>, i: nat, j: nat)
    requires Chosen(records, i) && Chosen(records, j) && KeyOf(records[i]) == KeyOf(records[j])
    ensures i == j
  {
  }

  /** The scanner's output. A record that lacks a field, or whose date cannot be read, is nothing. */
  datatype Report = Report(vulnerabilities: Option<seq<Option<Record>>>, hasSummary: bool)

  predicate Usable(report: Report) {
    && report.vulnerabilities.Some? && report.hasSummary
    && forall i :: 0 <= i < |report.vulnerabilities.value| ==> report.vulnerabilities.value[i].Some?
  }

  function Records(report: Report): seq<Record>
    requires Usable(report)
  {
    var raw := report.vulnerabilities.value;
    seq(|raw|, i requires 0 <= i < |raw| => raw[i].value)
  }

  /** Every key has its chosen record, and nothing else is there. */
  ghost predicate Deduplicated(records: seq<Record>, best: map<Key, Record>) {
    && (forall j: nat :: j < |records| ==> KeyOf(records[j]) in best)
    && (forall key :: key in best ==>
          exists j: nat :: j < |records| && Chosen(records, j) && KeyOf(records[j]) == key && best[key] == records[j])
  }

  method Deduplicate(records: seq<Record>) returns (best: map<Key, Record>)
    ensures Deduplicated(records, best)
  {
    best := map[];
    for i := 0 to |records|
      invariant Deduplicated(records[..i], best)
    {
      ghost var before := best;
      var record := records[i];
      var key := KeyOf(record);
      best := best[key := if key in best then Preferred(best[key], record) else record];
      assert records[..i + 1] == records[..i] + [record];
      OneMoreRecord(records[..i], record, before);
    }
    assert records[..|records|] == records;
  }

  lemma OneMoreRecord(records: seq<Record>, record: Record, best: map<Key, Record>)
    requires Deduplicated(records, best)
    ensures var key := KeyOf(record);
      Deduplicated(records + [record], best[key := if key in best then Preferred(best[key], record) else record])
  {
    var more, n := records + [record], |records|;
    var key := KeyOf(record);
    var best' := best[key := if key in best then Preferred(best[key], record) else record];
    forall k | k in best'
      ensures exists j: nat :: j < |more| && Chosen(more, j) && KeyOf(more[j]) == k && best'[k] == more[j]
    {
      if k in best {
        var j: nat :| j < n && Chosen(records, j) && KeyOf(records[j]) == k && best[k] == records[j];
        StillChosen(records, record, j);
        if k == key && FromGitHub(record) {
          assert Chosen(more, n) && more[n] == record;
        } else {
          assert Chosen(more, j) && more[j] == records[j];
        }
      } else {
        assert Chosen(more, n) && more[n] == record by {
          assert forall i :: 0 <= i < n ==> KeyOf(more[i]) == KeyOf(records[i]) && KeyOf(records[i]) in best;
        }
      }
    }
  }

  lemma StillChosen(records: seq<Record>, record: Record, j: nat)
    requires Chosen(records, j)
    ensures KeyOf(record) == KeyOf(records[j]) && FromGitHub(record) ==> Chosen(records + [record], |records|)
    ensures !(KeyOf(record) == KeyOf(records[j]) && FromGitHub(record)) ==> Chosen(records + [record], j)
  {
  }

  /** The findings of one project, one for each vulnerability. */
  method FindingsOf(project: string, report: Report) returns (r: Option<seq<Finding>>)
    ensures r.Some? <==> Usable(report)
    ensures r.Some? <==> report.vulnerabilities.Some? && report.hasSummary && None !in report.vulnerabilities.value
    ensures r.Some? ==> ListsFindings(project, Records(report), r.value)
  {
    if report.vulnerabilities.None? || !report.hasSummary {
      return None;
    }
    var raw := report.vulnerabilities.value;
    var records: seq<Record> := [];
    for i := 0 to |raw|
      invariant |records| == i && forall k :: 0 <= k < i ==> raw[k] == Some(records[k])
    {
      if raw[i].None? {
        return None;
      }
      records := records + [raw[i].value];
    }
    assert records == Records(report);
    var best := Deduplicate(records);
    var findings := ListValues(project, best);
    DeduplicatedIsChosen(project, records, best, findings);
    r := Some(findings);
  }

  /** The records kept, as findings, in no particular order. */
  method ListValues(project: string, best: map<Key, Record>) returns (findings: seq<Finding>)
    requires forall key :: key in best ==> KeyOf(best[key]) == key
    ensures forall f :: f in findings <==> KeyOf(f.record) in best && f == Finding(project, best[KeyOf(f.record)])
    ensures forall i, j :: 0 <= i < j < |findings| ==> KeyOf(findings[i].record) != KeyOf(findings[j].record)
  {
    findings := [];
    var todo := best.Keys;
    while todo != {}
      invariant todo <= best.Keys
      invariant forall f :: f in findings <==>
        KeyOf(f.record) in best && KeyOf(f.record) !in todo && f == Finding(project, best[KeyOf(f.record)])
      invariant forall i, j :: 0 <= i < j < |findings| ==> KeyOf(findings[i].record) != KeyOf(findings[j].record)
    {
      var key :| key in todo;
      assert forall i :: 0 <= i < |findings| ==> findings[i] in findings;
      findings := findings + [Finding(project, best[key])];
      todo := todo - {key};
    }
  }

  /** Exactly one finding for every vulnerability of the report: its chosen record. */
  ghost predicate ListsFindings(project: string, records: seq<Record>, findings: seq<Finding>) {
    && (forall f :: f in findings <==> exists j: nat :: Chosen(records, j) && f == Finding(project, records[j]))
    && (forall i, j :: 0 <= i < j < |findings| ==> KeyOf(findings[i].record) != KeyOf(findings[j].record))
  }

  lemma DeduplicatedIsChosen(project: string, records: seq<Record>, best: map<Key, Record>, findings: seq<Finding>)
    requires Deduplicated(records, best)
    requires forall f :: f in findings <==> KeyOf(f.record) in best && f == Finding(project, best[KeyOf(f.record)])
    ensures forall f :: f in findings <==> exists j: nat :: Chosen(records, j) && f == Finding(project, records[j])
  {
    forall f ensures f in findings <==> exists j: nat :: Chosen(records, j) && f == Finding(project, records[j]) {
      if f in findings {
        assert KeyOf(f.record) in best;
      }
      if j: nat :| Chosen(records, j) && f == Finding(project, records[j]) {
        var key := KeyOf(records[j]);
        var i: nat :| i < |records| && Chosen(records, i) && KeyOf(records[i]) == key && best[key] == records[i];
        OneChosenPerKey(records, i, j);
      }
    }
  }

  /** No vulnerability is lost: every record of a report is represented by a finding with its key. */
  lemma {:induction false} EveryRecordIsRepresented(records: seq<Record>, i: nat) returns (j: nat)
    requires i < |records|
    ensures Chosen(records, j) && KeyOf(records[j]) == KeyOf(records[i])
    ensures records[j].package == records[i].package && records[j].version == records[i].version
    ensures "GHSA-" <= records[i].advisory ==> "GHSA-" <= records[j].advisory
    decreases |records|
  {
    var n := |records| - 1;
    var front := records[..n];
    assert records == front + [records[n]];
    if k: nat :| k < n && KeyOf(records[k]) == KeyOf(records[i]) {
      j := EveryRecordIsRepresented(front, k);
      StillChosen(front, records[n], j);
      if KeyOf(records[n]) == KeyOf(records[i]) && FromGitHub(records[n]) {
        j := n;
      }
    } else {
      j := i;
      assert i == n;
    }
  }

  // ---- judging a finding

  datatype Status = Blocks | Reported | Accepted(risk: Risk)

  function CoveredBy(risk: Risk, f: Finding): bool {
    Covers(risk, f.record.package, Identifiers(f.record))
  }

  /** The first risk that covers the finding. */
  function FirstCover(risks: seq<Risk>, f: Finding): (r: Option<Risk>)
    ensures r.Some? ==> r.value in risks && CoveredBy(r.value, f)
    ensures r.None? ==> forall risk :: risk in risks ==> !CoveredBy(risk, f)
  {
    if risks == [] then None
    else if CoveredBy(risks[0], f) then Some(risks[0])
    else FirstCover(risks[1..], f)
  }

  function Judge(f: Finding, severity: string, risks: seq<Risk>, today: int): Status {
    var cover := FirstCover(risks, f);
    if cover.Some? then Accepted(cover.value)
    else if severity in BLOCKING then Blocks
    else if today - f.record.published > GRACE_DAYS then Blocks
    else Reported
  }

  function Unused(risks: seq<Risk>, findings: seq<Finding>): (r: seq<Risk>)
    ensures forall risk :: risk in r <==> risk in risks && forall f :: f in findings ==> !CoveredBy(risk, f)
  {
    if risks == [] then []
    else
      var rest := Unused(risks[1..], findings);
      if exists f :: f in findings && CoveredBy(risks[0], f) then rest else [risks[0]] + rest
  }

  // ---- the verdict

  /** A project with the scanner's report; nothing when the scanner itself failed. */
  datatype Project = Project(name: string, report: Option<Report>)

  predicate Scanned(p: Project) {
    p.report.Some? && Usable(p.report.value)
  }

  ghost predicate IsFinding(projects: seq<Project>, f: Finding) {
    exists i: nat, j: nat :: i < |projects| && Scanned(projects[i])
      && Chosen(Records(projects[i].report.value), j)
      && f == Finding(projects[i].name, Records(projects[i].report.value)[j])
  }

  /** The finding need not stop a change: somebody accepted it, or it is mild and young. */
  predicate Settled(f: Finding, severity: string, risks: seq<Risk>, today: int) {
    (exists risk :: risk in risks && CoveredBy(risk, f))
    || (severity !in BLOCKING && today - f.record.published <= GRACE_DAYS)
  }

  lemma JudgeIsRight(f: Finding, severity: string, risks: seq<Risk>, today: int)
    ensures Judge(f, severity, risks, today).Blocks? <==> !Settled(f, severity, risks, today)
    ensures Judge(f, severity, risks, today).Accepted? ==>
      Judge(f, severity, risks, today).risk in risks && CoveredBy(Judge(f, severity, risks, today).risk, f)
  {
  }

  /** What need not stop a change: a finding nobody called critical, high or unknown, published within
      the last thirty days, or one of which an accepted risk names the package and the advisory. */
  lemma SettledExactly(f: Finding, severity: string, risks: seq<Risk>, today: int)
    ensures Settled(f, severity, risks, today)
            <==> (severity !in {"CRITICAL", "HIGH", "UNKNOWN"} && f.record.published + 30 >= today)
                 || exists risk :: risk in risks && Names(risk, f)
    ensures forall risk :: CoveredBy(risk, f) <==> Names(risk, f)
  {
  }

  predicate Names(risk: Risk, f: Finding) {
    risk.package == f.record.package && (risk.id == f.record.advisory || risk.id in f.record.aliases)
  }

  /** The severity of an advisory; nothing when asking for it fails with an exception. */
  type Lookup = string -> Option<string>

  predicate Passes(f: Finding, lookup: Lookup, risks: seq<Risk>, today: int) {
    var severity := lookup(f.record.advisory);
    severity.Some? && Settled(f, severity.value, risks, today)
  }

  /** What a green gate stands for. */
  ghost predicate GateHolds(file: File, projects: seq<Project>, lookup: Lookup, today: int) {
    && projects != [] && file.Listed? && ValidFile(file.entries, today)
    && (forall i :: 0 <= i < |projects| ==> Scanned(projects[i]))
    && (forall f :: IsFinding(projects, f) ==> Passes(f, lookup, DeclaredIn(file), today))
    && (forall risk :: risk in DeclaredIn(file) ==> exists f :: IsFinding(projects, f) && CoveredBy(risk, f))
  }

  method Collect(projects: seq<Project>) returns (r: Option<seq<Finding>>)
    ensures r.Some? <==> forall i :: 0 <= i < |projects| ==> Scanned(projects[i])
    ensures r.Some? ==> forall f :: f in r.value <==> IsFinding(projects, f)
  {
    var findings: seq<Finding> := [];
    for i := 0 to |projects|
      invariant forall k :: 0 <= k < i ==> Scanned(projects[k])
      invariant forall f :: f in findings <==> IsFinding(projects[..i], f)
    {
      if projects[i].report.None? {
        return None;
      }
      var found := FindingsOf(projects[i].name, projects[i].report.value);
      if found.None? {
        return None;
      }
      assert projects[..i + 1] == projects[..i] + [projects[i]];
      OneMoreProject(projects[..i], projects[i], found.value);
      findings := findings + found.value;
    }
    assert projects[..|projects|] == projects;
    r := Some(findings);
  }

  lemma OneMoreProject(projects: seq<Project>, p: Project, found: seq<Finding>)
    requires Scanned(p) && ListsFindings(p.name, Records(p.report.value), found)
    ensures forall f :: IsFinding(projects + [p], f) <==> IsFinding(projects, f) || f in found
  {
    var more := projects + [p];
    forall f ensures IsFinding(more, f) <==> IsFinding(projects, f) || f in found {
      if IsFinding(projects, f) {
        var i: nat, j: nat :| i < |projects| && Scanned(projects[i]) && Chosen(Records(projects[i].report.value), j)
          && f == Finding(projects[i].name, Records(projects[i].report.value)[j]);
        assert more[i] == projects[i];
      }
      if f in found {
        assert more[|projects|] == p;
      }
    }
  }

  /** The exit code of the gate: 2 without projects, 1 for anything that stops the change, and for
      any exception. */
  method RunGate(file: File, projects: seq<Project>, lookup: Lookup, today: int) returns (code: int)
    ensures code == 0 <==> GateHolds(file, projects, lookup, today)
    ensures code in {0, 1, 2} && (code == 2 <==> projects == [])
  {
    if projects == [] {
      return 2;
    }
    var risks, problems := Load(file, today);
    QuietFile(file, today);
    if problems != [] {
      assert problems[0] in problems;
      return 1;
    }
    assert forall p :: p !in problems;
    var findings := Collect(projects);
    if findings.None? {
      return 1;
    }
    var blocking := CountBlocking(findings.value, lookup, risks, today);
    if blocking.None? {
      return 1;
    }
    var stale := Unused(risks, findings.value);
    assert stale != [] ==> stale[0] in stale;
    return if blocking.value > 0 || stale != [] then 1 else 0;
  }

  /** Judges every finding. The severity of each is asked for, accepted or not. */
  method CountBlocking(findings: seq<Finding>, lookup: Lookup, risks: seq<Risk>, today: int) returns (r: Option<nat>)
    ensures r.Some? <==> forall f :: f in findings ==> lookup(f.record.advisory).Some?
    ensures r == Some(0) <==> forall f :: f in findings ==> Passes(f, lookup, risks, today)
  {
    var blocking := 0;
    for i := 0 to |findings|
      invariant forall f :: f in findings[..i] ==> lookup(f.record.advisory).Some?
      invariant blocking == 0 <==> forall f :: f in findings[..i] ==> Passes(f, lookup, risks, today)
    {
      var f := findings[i];
      assert findings[..i + 1] == findings[..i] + [f];
      var severity := lookup(f.record.advisory);
      if severity.None? {
        assert f in findings && !Passes(f, lookup, risks, today);
        return None;
      }
      JudgeIsRight(f, severity.value, risks, today);
      ghost var before := findings[..i];
      assert forall g :: g in findings[..i + 1] <==> g in before || g == f;
      assert Passes(f, lookup, risks, today) <==> !Judge(f, severity.value, risks, today).Blocks?;
      if Judge(f, severity.value, risks, today).Blocks? {
        blocking := blocking + 1;
      }
    }
    assert findings[..|findings|] == findings;
    r := Some(blocking);
  }

  /** What passing means for every single record: it is represented by exactly one finding of its
      project, and that finding is mild and young or covered by an acceptance that has not expired
      and spans at most ninety days, or thirty where it is flagged as without a fix. */
  lemma GateIsSound(file: File, projects: seq<Project>, lookup: Lookup, today: int, i: nat, k: nat)
    returns (j: nat)
    requires GateHolds(file, projects, lookup, today)
    requires i < |projects| && k < |Records(projects[i].report.value)|
    ensures var records := Records(projects[i].report.value);
      && Chosen(records, j) && KeyOf(records[j]) == KeyOf(records[k])
      && (forall o: nat :: Chosen(records, o) && KeyOf(records[o]) == KeyOf(records[k]) ==> o == j)
      && var f := Finding(projects[i].name, records[j]); var severity := lookup(f.record.advisory);
         severity.Some?
         && ((severity.value !in {"CRITICAL", "HIGH", "UNKNOWN"} && f.record.published + 30 >= today)
             || exists risk :: risk in DeclaredIn(file) && Names(risk, f) && today <= risk.until
                               && risk.until - risk.added <= if risk.noFix then 30 else 90)
  {
    var records := Records(projects[i].report.value);
    j := EveryRecordIsRepresented(records, k);
    forall o: nat | Chosen(records, o) && KeyOf(records[o]) == KeyOf(records[k]) ensures o == j {
      OneChosenPerKey(records, o, j);
    }
    var f := Finding(projects[i].name, records[j]);
    assert IsFinding(projects, f);
    if risk :| risk in DeclaredIn(file) && CoveredBy(risk, f) {
      DeclaredIsAcceptable(file.entries, today, risk);
    }
  }

  lemma DeclaredIsAcceptable(entries: seq<Entry>, today: int, risk: Risk)
    requires ValidFile(entries, today) && risk in Declared(entries, |entries|)
    ensures Acceptable(risk, today)
  {
    ValidFileDeclaresAll(entries, today);
    var n :| 0 <= n < |Declared(entries, |entries|)| && Declared(entries, |entries|)[n] == risk;
    assert Fine(entries, n);
  }
}
