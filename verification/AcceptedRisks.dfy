/** The list of accepted risks: which entries are decisions, and which are holes nobody renewed.
    A date is a number of days. */
module AcceptedRisks {
  import opened Common
  import opened Strings

  const MAX_DAYS := 90
  const MAX_DAYS_WITHOUT_FIX := 30
  const MIN_REASON := 60

  const TEXT_FIELDS := ["id", "package", "reason", "owner", "link"]
  const DATE_FIELDS := ["added", "until"]
  const KNOWN_FIELDS := {"id", "package", "reason", "owner", "link", "added", "until", "no_fix"}

  /** What TOML knows: a date with a time of day is not a plain date. */
  datatype Value = Text(s: string) | Date(day: int) | Timestamp(at: int) | Flag(on: bool) | Other

  datatype Entry = Table(fields: map<string, Value>) | NotTable

  datatype Risk = Risk(id: string, package: string, reason: string, owner: string, added: int, until: int,
                       link: string, noFix: bool)

  predicate Covers(risk: Risk, package: string, identifiers: set<string>) {
    risk.package == package && risk.id in identifiers
  }

  // ---- one entry: its fields

  datatype FieldProblem = Unknown(name: string) | NotText(name: string) | NotDate(name: string) | NotFlag

  predicate IsText(fields: map<string, Value>, name: string) {
    name in fields && fields[name].Text? && Strip(fields[name].s) != ""
  }

  predicate IsDate(fields: map<string, Value>, name: string) {
    name in fields && fields[name].Date?
  }

  predicate HasFieldProblem(fields: map<string, Value>, p: FieldProblem) {
    match p
    case Unknown(name) => name in fields && name !in KNOWN_FIELDS
    case NotText(name) => name in TEXT_FIELDS && !IsText(fields, name)
    case NotDate(name) => name in DATE_FIELDS && !IsDate(fields, name)
    case NotFlag => "no_fix" in fields && !fields["no_fix"].Flag?
  }

  method FieldProblems(fields: map<string, Value>) returns (problems: seq<FieldProblem>)
    ensures forall p :: p in problems <==> HasFieldProblem(fields, p)
  {
    problems := UnknownFields(fields);
    for i := 0 to |TEXT_FIELDS|
      invariant forall p :: p in problems <==>
        HasFieldProblem(fields, p) && (p.Unknown? || (p.NotText? && p.name in TEXT_FIELDS[..i]))
    {
      if !IsText(fields, TEXT_FIELDS[i]) {
        problems := problems + [NotText(TEXT_FIELDS[i])];
      }
      assert TEXT_FIELDS[..i + 1] == TEXT_FIELDS[..i] + [TEXT_FIELDS[i]];
    }
    assert TEXT_FIELDS[..|TEXT_FIELDS|] == TEXT_FIELDS;
    for i := 0 to |DATE_FIELDS|
      invariant forall p :: p in problems <==>
        HasFieldProblem(fields, p) && (p.Unknown? || p.NotText? || (p.NotDate? && p.name in DATE_FIELDS[..i]))
    {
      if !IsDate(fields, DATE_FIELDS[i]) {
        problems := problems + [NotDate(DATE_FIELDS[i])];
      }
      assert DATE_FIELDS[..i + 1] == DATE_FIELDS[..i] + [DATE_FIELDS[i]];
    }
    assert DATE_FIELDS[..|DATE_FIELDS|] == DATE_FIELDS;
    if "no_fix" in fields && !fields["no_fix"].Flag? {
      problems := problems + [NotFlag];
    }
  }

  method UnknownFields(fields: map<string, Value>) returns (problems: seq<FieldProblem>)
    ensures forall p :: p in problems <==> p.Unknown? && HasFieldProblem(fields, p)
  {
    problems := [];
    var todo := fields.Keys - KNOWN_FIELDS;
    while todo != {}
      invariant todo <= fields.Keys - KNOWN_FIELDS
      invariant forall p :: p in problems <==> p.Unknown? && HasFieldProblem(fields, p) && p.name !in todo
    {
      var name :| name in todo;
      problems := problems + [Unknown(name)];
      todo := todo - {name};
    }
  }

  ghost predicate FieldsFine(fields: map<string, Value>) {
    forall p :: !HasFieldProblem(fields, p)
  }

  lemma FineFieldsAreTyped(fields: map<string, Value>)
    requires FieldsFine(fields)
    ensures forall name :: name in TEXT_FIELDS ==> name in fields && fields[name].Text?
    ensures forall name :: name in DATE_FIELDS ==> name in fields && fields[name].Date?
    ensures "no_fix" in fields ==> fields["no_fix"].Flag?
  {
    forall name | name in TEXT_FIELDS ensures IsText(fields, name) {
      assert !HasFieldProblem(fields, NotText(name));
    }
    forall name | name in DATE_FIELDS ensures IsDate(fields, name) {
      assert !HasFieldProblem(fields, NotDate(name));
    }
    assert !HasFieldProblem(fields, NotFlag);
  }

  predicate Typed(fields: map<string, Value>) {
    && (forall name :: name in TEXT_FIELDS ==> name in fields && fields[name].Text?)
    && (forall name :: name in DATE_FIELDS ==> name in fields && fields[name].Date?)
    && ("no_fix" in fields ==> fields["no_fix"].Flag?)
  }

  function ToRisk(fields: map<string, Value>): Risk
    requires Typed(fields)
  {
    Risk(fields["id"].s, fields["package"].s, fields["reason"].s, fields["owner"].s, fields["added"].day,
         fields["until"].day, fields["link"].s, if "no_fix" in fields then fields["no_fix"].on else false)
  }

  // ---- one entry: what it says

  datatype ContentProblem = ShortReason | BadLink | NotAfter | TooLong | Overdue

  function Limit(risk: Risk): int {
    if risk.noFix then MAX_DAYS_WITHOUT_FIX else MAX_DAYS
  }

  const HTTPS := "https://"

  predicate HasContentProblem(risk: Risk, today: int, p: ContentProblem) {
    match p
    case ShortReason => |Strip(risk.reason)| < MIN_REASON
    case BadLink => !(HTTPS <= risk.link)
    case NotAfter => risk.until <= risk.added
    case TooLong => risk.until > risk.added && risk.until - risk.added > Limit(risk)
    case Overdue => risk.until > risk.added && risk.until < today
  }

  method ContentProblems(risk: Risk, today: int) returns (problems: seq<ContentProblem>)
    ensures forall p :: p in problems <==> HasContentProblem(risk, today, p)
  {
    problems := [];
    if |Strip(risk.reason)| < MIN_REASON {
      problems := problems + [ShortReason];
    }
    if !(HTTPS <= risk.link) {
      problems := problems + [BadLink];
    }
    if risk.until <= risk.added {
      problems := problems + [NotAfter];
      return;
    }
    if risk.until - risk.added > Limit(risk) {
      problems := problems + [TooLong];
    }
    if risk.until < today {
      problems := problems + [Overdue];
    }
  }

  /** What an acceptance may say: argued, linked, not expired, and not for longer than the limit. */
  predicate Acceptable(risk: Risk, today: int) {
    && |Strip(risk.reason)| >= MIN_REASON && HTTPS <= risk.link
    && risk.added < risk.until && today <= risk.until && risk.until - risk.added <= Limit(risk)
  }

  lemma NoContentProblems(risk: Risk, today: int)
    ensures (forall p :: !HasContentProblem(risk, today, p)) <==> Acceptable(risk, today)
  {
    assert !HasContentProblem(risk, today, NotAfter) <==> risk.added < risk.until;
    assert HasContentProblem(risk, today, ShortReason) <==> |Strip(risk.reason)| < MIN_REASON;
    assert HasContentProblem(risk, today, BadLink) <==> !(HTTPS <= risk.link);
    assert HasContentProblem(risk, today, TooLong) || HasContentProblem(risk, today, Overdue)
      || HasContentProblem(risk, today, NotAfter)
      || (risk.until - risk.added <= Limit(risk) && today <= risk.until);
  }

  // ---- the whole file

  datatype Complaint =
    | NoTable(at: nat)
    | Field(at: nat, field: FieldProblem)
    | Twice(at: nat)
    | Content(at: nat, content: ContentProblem)

  ghost predicate Fine(entries: seq<Entry>, i: nat) {
    i < |entries| && entries[i].Table? && Typed(entries[i].fields) && FieldsFine(entries[i].fields)
  }

  function RiskAt(entries: seq<Entry>, i: nat): Risk
    requires i < |entries| && entries[i].Table? && Typed(entries[i].fields)
  {
    ToRisk(entries[i].fields)
  }

  predicate SameRisk(a: Risk, b: Risk) {
    a.id == b.id && a.package == b.package
  }

  /** An earlier entry accepts the same advisory in the same package. */
  ghost predicate Repeated(entries: seq<Entry>, i: nat)
    requires Fine(entries, i)
  {
    exists j: nat :: j < i && Fine(entries, j) && SameRisk(RiskAt(entries, j), RiskAt(entries, i))
  }

  ghost predicate Complains(entries: seq<Entry>, today: int, c: Complaint) {
    && c.at < |entries|
    && match c
       case NoTable(i) => entries[i].NotTable?
       case Field(i, p) => entries[i].Table? && HasFieldProblem(entries[i].fields, p)
       case Twice(i) => Fine(entries, i) && Repeated(entries, i)
       case Content(i, p) => Fine(entries, i) && !Repeated(entries, i) && HasContentProblem(RiskAt(entries, i), today, p)
  }

  /** The risks the file declares: every well-formed entry that repeats no earlier one. */
  ghost function Declared(entries: seq<Entry>, n: nat): seq<Risk>
    requires n <= |entries|
  {
    if n == 0 then []
    else Declared(entries, n - 1) + (if Fine(entries, n - 1) && !Repeated(entries, n - 1) then [RiskAt(entries, n - 1)] else [])
  }

  method Parse(entries: seq<Entry>, today: int) returns (risks: seq<Risk>, problems: seq<Complaint>)
    ensures risks == Declared(entries, |entries|)
    ensures forall c :: c in problems <==> Complains(entries, today, c)
  {
    risks, problems := [], [];
    var seen: set<(string, string)> := {};
    for i := 0 to |entries|
      invariant risks == Declared(entries, i)
      invariant forall c :: c in problems <==> c.at < i && Complains(entries, today, c)
      invariant forall key :: key in seen <==> exists j: nat :: j < i && Fine(entries, j) && RiskKey(entries, j) == key
    {
      var found, risk := ReadEntry(entries, i, seen, today);
      ghost var before := problems;
      problems := problems + found;
      if risk.Some? {
        seen := seen + {(risk.value.id, risk.value.package)};
        risks := risks + [risk.value];
      }
      forall c ensures c in problems <==> c.at < i + 1 && Complains(entries, today, c) {
        assert c in problems <==> c in before || c in found;
      }
    }
  }

  ghost function RiskKey(entries: seq<Entry>, j: nat): (string, string)
    requires Fine(entries, j)
  {
    (RiskAt(entries, j).id, RiskAt(entries, j).package)
  }

  /** One turn of the loop: the complaints about an entry, and the risk if it declares one. */
  method ReadEntry(entries: seq<Entry>, i: nat, seen: set<(string, string)>, today: int)
    returns (found: seq<Complaint>, risk: Option<Risk>)
    requires i < |entries|
    requires forall key :: key in seen <==> exists j: nat :: j < i && Fine(entries, j) && RiskKey(entries, j) == key
    ensures forall c :: c in found <==> c.at == i && Complains(entries, today, c)
    ensures risk.Some? <==> Fine(entries, i) && !Repeated(entries, i)
    ensures risk.Some? ==> risk.value == RiskAt(entries, i)
  {
    if entries[i].NotTable? {
      return [NoTable(i)], None;
    }
    var broken := FieldProblems(entries[i].fields);
    if broken != [] {
      found := [];
      for k := 0 to |broken|
        invariant forall c :: c in found <==> c.Field? && c.at == i && c.field in broken[..k]
      {
        found := found + [Field(i, broken[k])];
        assert broken[..k + 1] == broken[..k] + [broken[k]];
      }
      assert broken[..|broken|] == broken;
      assert HasFieldProblem(entries[i].fields, broken[0]) by {
        assert broken[0] in broken;
      }
      return found, None;
    }
    FineFieldsAreTyped(entries[i].fields);
    assert Fine(entries, i);
    var read := RiskAt(entries, i);
    assert (read.id, read.package) in seen <==> Repeated(entries, i);
    if (read.id, read.package) in seen {
      return [Twice(i)], None;
    }
    var problems := ContentProblems(read, today);
    found := [];
    for k := 0 to |problems|
      invariant forall c :: c in found <==> c.Content? && c.at == i && c.content in problems[..k]
    {
      found := found + [Content(i, problems[k])];
      assert problems[..k + 1] == problems[..k] + [problems[k]];
    }
    assert problems[..|problems|] == problems;
    risk := Some(read);
  }

  /** A file nobody complains about: every entry is a well-formed, acceptable risk, and no two are
      about the same advisory in the same package. */
  ghost predicate ValidFile(entries: seq<Entry>, today: int) {
    && (forall i: nat :: i < |entries| ==> Fine(entries, i) && Acceptable(RiskAt(entries, i), today))
    && (forall i: nat, j: nat :: i < j && Fine(entries, i) && Fine(entries, j) ==>
          !SameRisk(RiskAt(entries, i), RiskAt(entries, j)))
  }

  lemma NoComplaints(entries: seq<Entry>, today: int)
    ensures (forall c :: !Complains(entries, today, c)) <==> ValidFile(entries, today)
  {
    if forall c :: !Complains(entries, today, c) {
      forall i: nat | i < |entries| ensures Fine(entries, i) && !Repeated(entries, i) && Acceptable(RiskAt(entries, i), today) {
        QuietEntry(entries, today, i);
      }
    }
    if ValidFile(entries, today) {
      forall c ensures !Complains(entries, today, c) {
        if c.Content? && Fine(entries, c.at) {
          NoContentProblems(RiskAt(entries, c.at), today);
        }
      }
    }
  }

  lemma QuietEntry(entries: seq<Entry>, today: int, i: nat)
    requires i < |entries| && forall c :: !Complains(entries, today, c)
    ensures Fine(entries, i) && !Repeated(entries, i) && Acceptable(RiskAt(entries, i), today)
  {
    assert !Complains(entries, today, NoTable(i));
    forall p ensures !HasFieldProblem(entries[i].fields, p) {
      assert !Complains(entries, today, Field(i, p));
    }
    FineFieldsAreTyped(entries[i].fields);
    assert !Complains(entries, today, Twice(i));
    forall p ensures !HasContentProblem(RiskAt(entries, i), today, p) {
      assert !Complains(entries, today, Content(i, p));
    }
    NoContentProblems(RiskAt(entries, i), today);
  }

  lemma NothingRepeated(entries: seq<Entry>, today: int, i: nat)
    requires ValidFile(entries, today) && i < |entries|
    ensures Fine(entries, i) && !Repeated(entries, i)
  {
  }

  /** In a valid file every entry is declared, in order. */
  lemma ValidFileDeclaresAll(entries: seq<Entry>, today: int)
    requires ValidFile(entries, today)
    ensures |Declared(entries, |entries|)| == |entries|
    ensures forall i: nat :: i < |entries| ==> Fine(entries, i) && Declared(entries, |entries|)[i] == RiskAt(entries, i)
  {
    forall i: nat | i < |entries| ensures Fine(entries, i) && !Repeated(entries, i) {
      NothingRepeated(entries, today, i);
    }
    AllDeclared(entries, |entries|);
  }

  lemma {:induction false} AllDeclared(entries: seq<Entry>, n: nat)
    requires n <= |entries| && forall i: nat :: i < n ==> Fine(entries, i) && !Repeated(entries, i)
    ensures |Declared(entries, n)| == n
    ensures forall i: nat :: i < n ==> Fine(entries, i) && Declared(entries, n)[i] == RiskAt(entries, i)
  {
    if n > 0 {
      AllDeclared(entries, n - 1);
    }
  }

  // ---- the file around the entries

  /** The document as TOML reads it: not there, its `accepted` no list, or a list (empty when absent). */
  datatype File = Missing | NoList | Listed(entries: seq<Entry>)

  datatype FileProblem = IsMissing | IsNoList | Within(complaint: Complaint)

  ghost predicate FileComplains(file: File, today: int, p: FileProblem) {
    match p
    case IsMissing => file.Missing?
    case IsNoList => file.NoList?
    case Within(c) => file.Listed? && Complains(file.entries, today, c)
  }

  ghost function DeclaredIn(file: File): seq<Risk> {
    if file.Listed? then Declared(file.entries, |file.entries|) else []
  }

  method Load(file: File, today: int) returns (risks: seq<Risk>, problems: seq<FileProblem>)
    ensures risks == DeclaredIn(file)
    ensures forall p :: p in problems <==> FileComplains(file, today, p)
  {
    match file {
      case Missing => return [], [IsMissing];
      case NoList => return [], [IsNoList];
      case Listed(entries) =>
        var complaints;
        risks, complaints := Parse(entries, today);
        problems := [];
        for k := 0 to |complaints|
          invariant forall p :: p in problems <==> p.Within? && p.complaint in complaints[..k]
        {
          problems := problems + [Within(complaints[k])];
          assert complaints[..k + 1] == complaints[..k] + [complaints[k]];
        }
        assert complaints[..|complaints|] == complaints;
    }
  }

  /** A file that is accepted: there, a list, and nothing in it to complain about. */
  lemma QuietFile(file: File, today: int)
    ensures (forall p :: !FileComplains(file, today, p)) <==> file.Listed? && ValidFile(file.entries, today)
  {
    assert FileComplains(file, today, IsMissing) <==> file.Missing?;
    assert FileComplains(file, today, IsNoList) <==> file.NoList?;
    if file.Listed? {
      NoComplaints(file.entries, today);
      if forall p :: !FileComplains(file, today, p) {
        forall c ensures !Complains(file.entries, today, c) {
          assert !FileComplains(file, today, Within(c));
        }
      }
    }
  }

  // ---- what an entry has to say

  predicate TextAt(entry: Entry, name: string) {
    entry.Table? && name in entry.fields && entry.fields[name].Text? && Strip(entry.fields[name].s) != ""
  }

  predicate DateAt(entry: Entry, name: string) {
    entry.Table? && name in entry.fields && entry.fields[name].Date?
  }

  predicate Flagged(entry: Entry) {
    entry.Table? && "no_fix" in entry.fields && entry.fields["no_fix"] == Flag(true)
  }

  /** Five texts, two dates and at most a flag, nothing else; a reason of sixty characters, a secure link, and
      an end that is after the beginning, not past, and at most ninety days later, or thirty if flagged. */
  ghost predicate InOrder(entry: Entry, today: int) {
    && TextAt(entry, "id") && TextAt(entry, "package") && TextAt(entry, "reason") && TextAt(entry, "owner")
    && TextAt(entry, "link") && DateAt(entry, "added") && DateAt(entry, "until")
    && ("no_fix" in entry.fields ==> entry.fields["no_fix"].Flag?)
    && (forall name :: name in entry.fields ==>
          name in {"id", "package", "reason", "owner", "link", "added", "until", "no_fix"})
    && |Strip(entry.fields["reason"].s)| >= 60 && "https://" <= entry.fields["link"].s
    && var added, until := entry.fields["added"].day, entry.fields["until"].day;
       added < until && today <= until && until - added <= if Flagged(entry) then 30 else 90
  }

  /** The same advisory in the same package. */
  predicate SameSubject(a: Entry, b: Entry) {
    && TextAt(a, "id") && TextAt(b, "id") && a.fields["id"] == b.fields["id"]
    && TextAt(a, "package") && TextAt(b, "package") && a.fields["package"] == b.fields["package"]
  }

  ghost predicate FileInOrder(file: File, today: int) {
    && file.Listed?
    && (forall i: nat :: i < |file.entries| ==> InOrder(file.entries[i], today))
    && forall i: nat, j: nat :: i < j < |file.entries| ==> !SameSubject(file.entries[i], file.entries[j])
  }

  lemma InOrderMeansAcceptable(entries: seq<Entry>, i: nat, today: int)
    requires i < |entries|
    ensures InOrder(entries[i], today) <==> Fine(entries, i) && Acceptable(RiskAt(entries, i), today)
  {
    if entries[i].Table? {
      FieldsInOrder(entries[i]);
    }
  }

  ghost predicate FieldsSaid(entry: Entry)
    requires entry.Table?
  {
    && TextAt(entry, "id") && TextAt(entry, "package") && TextAt(entry, "reason") && TextAt(entry, "owner")
    && TextAt(entry, "link") && DateAt(entry, "added") && DateAt(entry, "until")
    && ("no_fix" in entry.fields ==> entry.fields["no_fix"].Flag?)
    && forall name :: name in entry.fields ==>
         name in {"id", "package", "reason", "owner", "link", "added", "until", "no_fix"}
  }

  lemma FieldsInOrder(entry: Entry)
    requires entry.Table?
    ensures FieldsSaid(entry) <==> FieldsFine(entry.fields)
    ensures FieldsFine(entry.fields) ==> Typed(entry.fields)
  {
    if FieldsFine(entry.fields) {
      FineFieldsAreTyped(entry.fields);
      FineFieldsAreSaid(entry);
    }
    if FieldsSaid(entry) {
      SaidFieldsAreFine(entry);
    }
  }

  lemma FineFieldsAreSaid(entry: Entry)
    requires entry.Table? && FieldsFine(entry.fields)
    ensures FieldsSaid(entry)
  {
    var fields := entry.fields;
    assert TEXT_FIELDS[0] == "id" && TEXT_FIELDS[1] == "package" && TEXT_FIELDS[2] == "reason";
    assert TEXT_FIELDS[3] == "owner" && TEXT_FIELDS[4] == "link";
    assert DATE_FIELDS[0] == "added" && DATE_FIELDS[1] == "until";
    forall name | name in TEXT_FIELDS ensures TextAt(entry, name) {
      assert !HasFieldProblem(fields, NotText(name));
    }
    forall name | name in DATE_FIELDS ensures DateAt(entry, name) {
      assert !HasFieldProblem(fields, NotDate(name));
    }
    forall name | name in fields ensures name in KNOWN_FIELDS {
      assert !HasFieldProblem(fields, Unknown(name));
    }
    assert !HasFieldProblem(fields, NotFlag);
  }

  lemma SaidFieldsAreFine(entry: Entry)
    requires entry.Table? && FieldsSaid(entry)
    ensures FieldsFine(entry.fields)
  {
    forall p ensures !HasFieldProblem(entry.fields, p) {
      if p.NotText? && p.name in TEXT_FIELDS {
        assert p.name in {"id", "package", "reason", "owner", "link"};
      }
      if p.NotDate? && p.name in DATE_FIELDS {
        assert p.name in {"added", "until"};
      }
    }
  }

  /** Nothing is complained about if and only if the file is there, a list, and every entry is in order
      and about something else than the others. */
  lemma NoProblems(file: File, today: int)
    ensures (forall p :: !FileComplains(file, today, p)) <==> FileInOrder(file, today)
  {
    QuietFile(file, today);
    if file.Listed? {
      forall i: nat | i < |file.entries|
        ensures InOrder(file.entries[i], today) <==> Fine(file.entries, i) && Acceptable(RiskAt(file.entries, i), today)
      {
        InOrderMeansAcceptable(file.entries, i, today);
      }
      forall i: nat, j: nat | i < j < |file.entries| && Fine(file.entries, i) && Fine(file.entries, j)
        ensures SameSubject(file.entries[i], file.entries[j]) <==> SameRisk(RiskAt(file.entries, i), RiskAt(file.entries, j))
      {
        FieldsInOrder(file.entries[i]);
        FieldsInOrder(file.entries[j]);
      }
    }
  }

  /** And then the risks are the entries, field by field and in order. */
  lemma RisksAreTheEntries(file: File, today: int, i: nat)
    requires FileInOrder(file, today) && i < |file.entries|
    ensures |DeclaredIn(file)| == |file.entries|
    ensures var fields := file.entries[i].fields;
      DeclaredIn(file)[i] == Risk(fields["id"].s, fields["package"].s, fields["reason"].s, fields["owner"].s,
                                  fields["added"].day, fields["until"].day, fields["link"].s, Flagged(file.entries[i]))
  {
    NoProblems(file, today);
    QuietFile(file, today);
    ValidFileDeclaresAll(file.entries, today);
  }
}
