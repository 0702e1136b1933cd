/** For how long a vulnerability without a fix may be accepted. The policy says thirty days; the
    gate asks the entry's own flag, and never the fix versions the scanner reports. */
module AuditLimits {
  import opened Common
  import opened Strings
  import opened AcceptedRisks
  import opened DependencyAudit

  function Span(risk: Risk): int {
    risk.until - risk.added
  }

  /** The policy as it is written down: thirty days where no fix exists. */
  predicate AsDocumented(f: Finding, risk: Risk) {
    f.record.fixVersions == [] ==> Span(risk) <= MAX_DAYS_WITHOUT_FIX
  }

  /** Some gate that passes has this finding, accepted by this risk. */
  ghost predicate GateAdmits(f: Finding, risk: Risk) {
    exists file, projects, lookup, today ::
      GateHolds(file, projects, lookup, today) && IsFinding(projects, f) && risk in DeclaredIn(file) && CoveredBy(risk, f)
  }

  /** The finding has a package and a name that an entry can spell out. */
  predicate Coverable(f: Finding) {
    Strip(f.record.package) != "" && exists id :: id in Identifiers(f.record) && Strip(id) != ""
  }

  /** An acceptance that is in order but for its length, which is between the two limits, is
      accepted exactly when its flag is off - whatever is known about fixes. */
  lemma LongAcceptanceNeedsNoFlag(risk: Risk, today: int)
    requires |Strip(risk.reason)| >= MIN_REASON && HTTPS <= risk.link && today <= risk.until
    requires MAX_DAYS_WITHOUT_FIX < Span(risk) <= MAX_DAYS
    ensures Acceptable(risk, today) <==> !risk.noFix
  {
  }

  /** Exactly when the gate keeps to the policy for a finding: what it admits with this flag spans
      at most thirty days if and only if the flag is on, or a fix exists, or nothing can be
      written down that would cover the finding. */
  lemma FlagDecidesTheLimit(f: Finding, flag: bool)
    ensures (forall risk :: GateAdmits(f, risk) && risk.noFix == flag ==> AsDocumented(f, risk))
            <==> flag || f.record.fixVersions != [] || !Coverable(f)
  {
    forall risk | GateAdmits(f, risk)
      ensures Coverable(f) && Span(risk) <= (if risk.noFix then MAX_DAYS_WITHOUT_FIX else MAX_DAYS)
    {
      AdmittedIsInOrder(f, risk);
    }
    if !flag && f.record.fixVersions == [] && Coverable(f) {
      var risk := LongestAcceptance(f);
      assert GateAdmits(f, risk) && risk.noFix == flag && !AsDocumented(f, risk);
    }
  }

  lemma AdmittedIsInOrder(f: Finding, risk: Risk)
    requires GateAdmits(f, risk)
    ensures Coverable(f) && Span(risk) <= (if risk.noFix then MAX_DAYS_WITHOUT_FIX else MAX_DAYS)
  {
    var file, projects, lookup, today :| GateHolds(file, projects, lookup, today) && IsFinding(projects, f)
      && risk in DeclaredIn(file) && CoveredBy(risk, f);
    DeclaredIsAcceptable(file.entries, today, risk);
    DeclaredIsNamed(file.entries, today, risk);
  }

  lemma DeclaredIsNamed(entries: seq<Entry>, today: int, risk: Risk)
    requires ValidFile(entries, today) && risk in Declared(entries, |entries|)
    ensures Strip(risk.id) != "" && Strip(risk.package) != ""
  {
    ValidFileDeclaresAll(entries, today);
    var n: nat :| n < |Declared(entries, |entries|)| && Declared(entries, |entries|)[n] == risk;
    FineIsNamed(entries, n);
  }

  lemma FineIsNamed(entries: seq<Entry>, n: nat)
    requires Fine(entries, n)
    ensures Strip(RiskAt(entries, n).id) != "" && Strip(RiskAt(entries, n).package) != ""
  {
    assert !HasFieldProblem(entries[n].fields, NotText("id")) && !HasFieldProblem(entries[n].fields, NotText("package"));
  }

  // ---- ninety days for a vulnerability without a fix

  function Xs(n: nat): string {
    if n == 0 then "" else Xs(n - 1) + "x"
  }

  /** An argument of the required length, if not of the required quality. */
  function Reason(): string {
    Xs(MIN_REASON)
  }

  function EntryFor(id: string, package: string, reason: string): map<string, Value> {
    map["id" := Text(id), "package" := Text(package), "reason" := Text(reason), "owner" := Text("owner"),
        "link" := Text(HTTPS), "added" := Date(0), "until" := Date(MAX_DAYS)]
  }

  /** Whatever the finding: one entry, without a flag, for ninety days, and the gate passes. */
  lemma LongestAcceptance(f: Finding) returns (risk: Risk)
    requires Coverable(f)
    ensures GateAdmits(f, risk) && !risk.noFix && Span(risk) == MAX_DAYS
  {
    var id :| id in Identifiers(f.record) && Strip(id) != "";
    ReasonIsLong();
    var fields := EntryFor(id, f.record.package, Reason());
    EntryIsFine(id, f.record.package, Reason());
    var entries := [Table(fields)];
    risk := ToRisk(fields);
    assert Fine(entries, 0) && RiskAt(entries, 0) == risk;
    OneEntryDeclared(entries, 0);
    OneFinding(f);
    GateOfOne(Listed(entries), f, risk);
  }

  lemma GateOfOne(file: File, f: Finding, risk: Risk)
    requires file.Listed? && ValidFile(file.entries, 0) && DeclaredIn(file) == [risk] && CoveredBy(risk, f)
    requires var projects := [Project(f.project, Some(Report(Some([Some(f.record)]), true)))];
      Scanned(projects[0]) && forall g :: IsFinding(projects, g) <==> g == f
    ensures GateAdmits(f, risk)
  {
    var projects := [Project(f.project, Some(Report(Some([Some(f.record)]), true)))];
    CoveredPasses(f, [risk], 0);
    assert risk in DeclaredIn(file);
    assert GateHolds(file, projects, EverythingLow(), 0);
  }

  function EverythingLow(): Lookup {
    advisory => Some("LOW")
  }

  lemma CoveredPasses(f: Finding, risks: seq<Risk>, today: int)
    requires |risks| == 1 && CoveredBy(risks[0], f)
    ensures Passes(f, EverythingLow(), risks, today)
  {
    assert risks[0] in risks;
  }

  lemma {:induction false} XsAreXs(n: nat)
    ensures |Xs(n)| == n && forall i :: 0 <= i < n ==> Xs(n)[i] == 'x'
  {
    if n > 0 {
      XsAreXs(n - 1);
    }
  }

  lemma ReasonIsLong()
    ensures Strip(Reason()) == Reason() && |Reason()| >= MIN_REASON
  {
    XsAreXs(MIN_REASON);
    assert !IsSpace('x');
  }

  lemma EntryIsFine(id: string, package: string, reason: string)
    requires Strip(id) != "" && Strip(package) != "" && Strip(reason) != ""
    ensures var fields := EntryFor(id, package, reason);
      && Typed(fields) && FieldsFine(fields)
      && ToRisk(fields) == Risk(id, package, reason, "owner", 0, MAX_DAYS, HTTPS, false)
  {
    var fields := EntryFor(id, package, reason);
    TextsAreThere(id, package, reason);
    KnownKeys(id, package, reason);
    FineFieldsAreTyped(fields);
    SaysWhatItShould(id, package, reason);
  }

  lemma TextsAreThere(id: string, package: string, reason: string)
    requires Strip(id) != "" && Strip(package) != "" && Strip(reason) != ""
    ensures var fields := EntryFor(id, package, reason);
      && (forall name :: name in TEXT_FIELDS ==> IsText(fields, name))
      && (forall name :: name in DATE_FIELDS ==> IsDate(fields, name))
  {
    var fields := EntryFor(id, package, reason);
    NothingToStrip();
    forall name | name in TEXT_FIELDS ensures IsText(fields, name) {
      assert name == "id" || name == "package" || name == "reason" || name == "owner" || name == "link";
    }
    forall name | name in DATE_FIELDS ensures IsDate(fields, name) {
      assert name == "added" || name == "until";
    }
  }

  lemma NothingToStrip()
    ensures Strip("owner") == "owner" && Strip(HTTPS) == HTTPS
  {
  }

  lemma SaysWhatItShould(id: string, package: string, reason: string)
    requires Typed(EntryFor(id, package, reason))
    ensures ToRisk(EntryFor(id, package, reason)) == Risk(id, package, reason, "owner", 0, MAX_DAYS, HTTPS, false)
  {
  }

  lemma KnownKeys(id: string, package: string, reason: string)
    ensures EntryFor(id, package, reason).Keys == KNOWN_FIELDS - {"no_fix"}
  {
  }

  lemma OneEntryDeclared(entries: seq<Entry>, today: int)
    requires |entries| == 1 && Fine(entries, 0) && Acceptable(RiskAt(entries, 0), today)
    ensures ValidFile(entries, today) && Declared(entries, 1) == [RiskAt(entries, 0)]
  {
    assert Declared(entries, 0) == [];
    assert !Repeated(entries, 0);
  }

  lemma OneFinding(f: Finding)
    ensures var projects := [Project(f.project, Some(Report(Some([Some(f.record)]), true)))];
      Scanned(projects[0]) && forall g :: IsFinding(projects, g) <==> g == f
  {
    var projects := [Project(f.project, Some(Report(Some([Some(f.record)]), true)))];
    assert Records(projects[0].report.value) == [f.record];
    assert Chosen([f.record], 0);
    assert IsFinding(projects, f);
  }

  /** A gate that passes although an advisory without any fix is accepted for ninety days. */
  lemma UnfixableAcceptedForNinetyDays()
    ensures exists f, risk :: GateAdmits(f, risk) && f.record.fixVersions == [] && !risk.noFix && Span(risk) == MAX_DAYS
  {
    var f := Finding("booking", Record("jinja2", "3.0", "CVE-2026-1", [], [], 0));
    assert Strip("jinja2") == "jinja2" && Strip("CVE-2026-1") == "CVE-2026-1";
    assert "CVE-2026-1" in Identifiers(f.record);
    var risk := LongestAcceptance(f);
  }
}
