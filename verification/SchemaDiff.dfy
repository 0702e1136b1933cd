/** The gate between two versions of an event schema: nothing a consumer reads may disappear. */
module SchemaDiff {
  import opened Common
  import opened Strings

  /** A JSON value as Python compares it: `true` equals one, so flags are numbers here. */
  datatype Node = Null | Number(v: real) | Text(s: string) | List(items: seq<Node>) | Dict(fields: map<string, Node>)

  const SHAPE_KEYS := {"type", "format", "const", "enum", "items"}

  function Get(fields: map<string, Node>, key: string, default: Node): Node {
    if key in fields then fields[key] else default
  }

  // ---- references

  const HASH := "#/"

  predicate IsLocal(reference: Node) {
    reference.Text? && |reference.s| >= 2 && reference.s[..2] == HASH
  }

  /** Follows the parts of a reference. Nothing when the walk enters a value that is no object. */
  function Walk(target: Node, parts: seq<string>): Option<Node>
    decreases |parts|
  {
    if parts == [] then Some(target)
    else if !target.Dict? then None
    else Walk(Get(target.fields, parts[0], Dict(map[])), parts[1..])
  }

  function Resolved(schema: Node, root: Node): Option<map<string, Node>> {
    if !schema.Dict? then None
    else
      var reference := Get(schema.fields, "$ref", Null);
      if !IsLocal(reference) then Some(schema.fields)
      else
        match Walk(root, Split(reference.s[2..], '/'))
        case None => None
        case Some(target) => Some(if target.Dict? then target.fields else map[])
  }

  method Resolve(schema: Node, root: Node) returns (r: Option<map<string, Node>>)
    ensures r == Resolved(schema, root)
  {
    if !schema.Dict? {
      return None;
    }
    var reference := Get(schema.fields, "$ref", Null);
    if !IsLocal(reference) {
      return Some(schema.fields);
    }
    var parts := Split(reference.s[2..], '/');
    var target, i := root, 0;
    while i < |parts|
      invariant 0 <= i <= |parts|
      invariant Walk(root, parts) == Walk(target, parts[i..])
    {
      if !target.Dict? {
        return None;
      }
      target := Get(target.fields, parts[i], Dict(map[]));
      i := i + 1;
    }
    r := Some(if target.Dict? then target.fields else map[]);
  }

  function Shape(schema: Node, root: Node): Option<map<string, Node>> {
    match Resolved(schema, root)
    case None => None
    case Some(fields) => Some(map key | key in fields && key in SHAPE_KEYS :: fields[key])
  }

  // ---- what Python makes of a value

  /** What a loop over the value goes through: the items of a list, the characters of a text, the
      keys of an object. Anything else raises. */
  function Elements(v: Node): Option<set<Node>> {
    match v
    case List(items) => Some(set x | x in items)
    case Text(s) => Some(set c | c in s :: Text([c]))
    case Dict(fields) => Some(set key | key in fields :: Text(key))
    case _ => None
  }

  predicate Hashable(v: Node) {
    !v.List? && !v.Dict?
  }

  predicate OccursAt(part: string, s: string, i: nat) {
    i + |part| <= |s| && s[i..i + |part|] == part
  }

  predicate Occurs(part: string, s: string) {
    exists i :: 0 <= i <= |s| && OccursAt(part, s, i)
  }

  /** The test `x in v`: only a text can be part of a text, and what cannot be hashed is no key. */
  function Contains(v: Node, x: Node): Option<bool> {
    match v
    case List(items) => Some(x in items)
    case Text(s) => if x.Text? then Some(Occurs(x.s, s)) else None
    case Dict(fields) => if Hashable(x) then Some(x.Text? && x.s in fields) else None
    case _ => None
  }

  // ---- what a document says

  function Properties(doc: Node): Node
    requires doc.Dict?
  {
    Get(doc.fields, "properties", Dict(map[]))
  }

  /** The names required, as `set` reads them. */
  function Required(doc: Node): Option<set<string>>
    requires doc.Dict?
  {
    match Elements(Get(doc.fields, "required", List([])))
    case None => None
    case Some(names) => if exists v :: v in names && !Hashable(v) then None else Some(set v | v in names && v.Text? :: v.s)
  }

  predicate Readable(doc: Node) {
    doc.Dict? && Required(doc).Some?
  }

  function Enum(shape: map<string, Node>): Node {
    Get(shape, "enum", List([]))
  }

  // ---- problems

  datatype Problem =
    | Removed(name: string)
    | NotRequired(name: string)
    | Changed(name: string, key: string)
    | ValuesRemoved(name: string)

  const COMPARED := ["type", "format", "const", "items"]

  /** The values of the old list that the new one lacks. */
  function Lost(was: Node, now: Node): Option<set<Node>> {
    match Elements(was)
    case None => None
    case Some(values) =>
      if exists v :: v in values && Contains(now, v).None? then None
      else Some(set v | v in values && Contains(now, v) == Some(false))
  }

  function LostInOrder(items: seq<Node>, now: Node): seq<Node> {
    if items == [] then []
    else
      LostInOrder(items[..|items| - 1], now)
      + (if Contains(now, items[|items| - 1]) == Some(false) then [items[|items| - 1]] else [])
  }

  /** The lost values are printed in order. Texts can be sorted; whether a list of other values can
      be is left to `sorts`. */
  predicate CanPrint(was: Node, now: Node, sorts: seq<Node> -> bool) {
    !was.List? || sorts(LostInOrder(was.items, now))
  }

  /** What is wrong with one property of the old document. Nothing when Python raises. */
  function PropertyProblems(name: string, base: Node, head: Node, sorts: seq<Node> -> bool): Option<set<Problem>>
    requires Readable(base) && Readable(head) && Properties(base).Dict? && name in Properties(base).fields
  {
    match Contains(Properties(head), Text(name))
    case None => None
    case Some(false) => Some({Removed(name)})
    case Some(true) =>
      if !Properties(head).Dict? then None
      else
        var was := Shape(Properties(base).fields[name], base);
        var now := Shape(Properties(head).fields[name], head);
        if was.None? || now.None? then None
        else
          match Lost(Enum(was.value), Enum(now.value))
          case None => None
          case Some(lost) =>
            if lost != {} && !CanPrint(Enum(was.value), Enum(now.value), sorts) then None
            else
              Some((if name in Required(base).value && name !in Required(head).value then {NotRequired(name)} else {})
                   + (set key | key in COMPARED && Get(was.value, key, Null) != Get(now.value, key, Null) :: Changed(name, key))
                   + (if lost != {} then {ValuesRemoved(name)} else {}))
  }

  predicate Comparable(base: Node, head: Node, sorts: seq<Node> -> bool) {
    && Readable(base) && Readable(head) && Properties(base).Dict?
    && forall name :: name in Properties(base).fields ==> PropertyProblems(name, base, head, sorts).Some?
  }

  /** Goes through the properties of the old document and lists every problem. */
  method BreakingChanges(base: Node, head: Node, sorts: seq<Node> -> bool) returns (r: Option<seq<Problem>>)
    ensures r.Some? <==> Comparable(base, head, sorts)
    ensures r.Some? ==> forall p :: p in r.value <==>
              exists name :: name in Properties(base).fields && p in PropertyProblems(name, base, head, sorts).value
  {
    if !Readable(base) || !Readable(head) || !Properties(base).Dict? {
      return None;
    }
    var problems: seq<Problem> := [];
    var properties := Properties(base).fields;
    var todo := properties.Keys;
    while todo != {}
      invariant todo <= properties.Keys
      invariant forall name :: name in properties && name !in todo ==> PropertyProblems(name, base, head, sorts).Some?
      invariant forall p :: p in problems <==>
                  exists name :: name in properties && name !in todo && p in PropertyProblems(name, base, head, sorts).value
    {
      var name :| name in todo;
      var found := CompareProperty(name, base, head, sorts);
      if found.None? {
        return None;
      }
      ghost var before, done := problems, todo;
      problems := problems + found.value;
      todo := todo - {name};
      forall p ensures p in problems <==>
                exists other :: other in properties && other !in todo && p in PropertyProblems(other, base, head, sorts).value
      {
        assert p in problems <==> p in before || p in PropertyProblems(name, base, head, sorts).value;
      }
    }
    r := Some(problems);
  }

  predicate Differs(was: map<string, Node>, now: map<string, Node>, k: nat)
    requires k < |COMPARED|
  {
    Get(was, COMPARED[k], Null) != Get(now, COMPARED[k], Null)
  }

  method CompareProperty(name: string, base: Node, head: Node, sorts: seq<Node> -> bool) returns (r: Option<seq<Problem>>)
    requires Readable(base) && Readable(head) && Properties(base).Dict? && name in Properties(base).fields
    ensures r.Some? <==> PropertyProblems(name, base, head, sorts).Some?
    ensures r.Some? ==> forall p :: p in r.value <==> p in PropertyProblems(name, base, head, sorts).value
  {
    var properties := Properties(head);
    var present := Contains(properties, Text(name));
    if present.None? {
      return None;
    }
    if !present.value {
      return Some([Removed(name)]);
    }
    var problems: seq<Problem> := [];
    if name in Required(base).value && name !in Required(head).value {
      problems := problems + [NotRequired(name)];
    }
    if !properties.Dict? {
      return None;
    }
    var was, now := Shape(Properties(base).fields[name], base), Shape(properties.fields[name], head);
    if was.None? || now.None? {
      return None;
    }
    ghost var start := problems;
    var i := 0;
    while i < |COMPARED|
      invariant 0 <= i <= |COMPARED|
      invariant forall p :: p in problems <==>
                  (p in start
                   || exists k :: 0 <= k < i && Differs(was.value, now.value, k) && p == Changed(name, COMPARED[k]))
    {
      if Differs(was.value, now.value, i) {
        problems := problems + [Changed(name, COMPARED[i])];
      }
      i := i + 1;
    }
    var lost := Lost(Enum(was.value), Enum(now.value));
    if lost.None? {
      return None;
    }
    if lost.value != {} {
      if !CanPrint(Enum(was.value), Enum(now.value), sorts) {
        return None;
      }
      problems := problems + [ValuesRemoved(name)];
    }
    r := Some(problems);
  }

  /** The gate lets the new document through. */
  predicate Passes(base: Node, head: Node, sorts: seq<Node> -> bool) {
    && Comparable(base, head, sorts)
    && forall name :: name in Properties(base).fields ==> PropertyProblems(name, base, head, sorts).value == {}
  }

  // ---- what "no breaking changes" means

  /** The property is in both documents, still required if it was, with the same description. */
  predicate SameField(name: string, base: Node, head: Node)
    requires Readable(base) && Readable(head)
  {
    && Described(base, name) && Described(head, name)
    && (name in Required(base).value ==> name in Required(head).value)
    && forall key :: key in COMPARED ==> Get(ShapeOf(base, name), key, Null) == Get(ShapeOf(head, name), key, Null)
  }

  predicate Described(doc: Node, name: string) {
    && doc.Dict? && Properties(doc).Dict? && name in Properties(doc).fields
    && Shape(Properties(doc).fields[name], doc).Some?
  }

  function ShapeOf(doc: Node, name: string): map<string, Node>
    requires Described(doc, name)
  {
    Shape(Properties(doc).fields[name], doc).value
  }

  /** Every old value is among the new ones. */
  predicate ValuesKept(was: Node, now: Node) {
    Elements(was).Some? && forall v :: v in Elements(was).value ==> Contains(now, v) == Some(true)
  }

  predicate Kept(name: string, base: Node, head: Node)
    requires Readable(base) && Readable(head)
  {
    SameField(name, base, head) && ValuesKept(Enum(ShapeOf(base, name)), Enum(ShapeOf(head, name)))
  }

  predicate AllKept(base: Node, head: Node) {
    && Readable(base) && Readable(head) && Properties(base).Dict?
    && forall name :: name in Properties(base).fields ==> Kept(name, base, head)
  }

  lemma NothingLost(was: Node, now: Node)
    ensures Lost(was, now) == Some({}) <==> ValuesKept(was, now)
  {
    if Elements(was).Some? && Lost(was, now).Some? {
      forall v | v in Elements(was).value ensures v in Lost(was, now).value <==> Contains(now, v) == Some(false) {}
      assert Lost(was, now).value == {} <==> forall v :: v in Elements(was).value ==> v !in Lost(was, now).value;
    }
  }

  lemma NoProblemsMeansKept(name: string, base: Node, head: Node, sorts: seq<Node> -> bool)
    requires Readable(base) && Readable(head) && Properties(base).Dict? && name in Properties(base).fields
    ensures PropertyProblems(name, base, head, sorts) == Some({}) <==> Kept(name, base, head)
  {
    if Described(base, name) && Described(head, name) {
      var was, now := ShapeOf(base, name), ShapeOf(head, name);
      NothingLost(Enum(was), Enum(now));
      if PropertyProblems(name, base, head, sorts).Some? {
        var all := PropertyProblems(name, base, head, sorts).value;
        forall key | key in COMPARED ensures Changed(name, key) in all <==> Get(was, key, Null) != Get(now, key, Null) {}
        assert NotRequired(name) in all <==> name in Required(base).value && name !in Required(head).value;
        assert ValuesRemoved(name) in all <==> Lost(Enum(was), Enum(now)) != Some({});
        if Kept(name, base, head) {
          assert all == {};
        }
      }
    }
  }

  lemma PassesMeansKept(base: Node, head: Node, sorts: seq<Node> -> bool)
    ensures Passes(base, head, sorts) <==> AllKept(base, head)
  {
    if Readable(base) && Readable(head) && Properties(base).Dict? {
      forall name | name in Properties(base).fields
        ensures PropertyProblems(name, base, head, sorts) == Some({}) <==> Kept(name, base, head)
      {
        NoProblemsMeansKept(name, base, head, sorts);
      }
    }
  }

  // ---- the same, in the words of the schema

  /** What the schema of a property says once its reference is followed. */
  function Said(doc: Node, name: string): map<string, Node>
    requires Described(doc, name)
  {
    Resolved(Properties(doc).fields[name], doc).value
  }

  /** The property is there in both documents, still required if it was; type, format, const and items are
      the same, and every value of the old enum is in the new one. */
  predicate SaysTheSame(name: string, base: Node, head: Node)
    requires Readable(base) && Readable(head)
  {
    && Described(base, name) && Described(head, name)
    && (name in Required(base).value ==> name in Required(head).value)
    && var was, now := Said(base, name), Said(head, name);
       && (forall key :: key in {"type", "format", "const", "items"} ==> Get(was, key, Null) == Get(now, key, Null))
       && ValuesKept(Get(was, "enum", List([])), Get(now, "enum", List([])))
  }

  lemma ShapeShows(doc: Node, name: string)
    requires Described(doc, name)
    ensures forall key :: key in {"type", "format", "const", "items"} ==>
              Get(ShapeOf(doc, name), key, Null) == Get(Said(doc, name), key, Null)
    ensures Enum(ShapeOf(doc, name)) == Get(Said(doc, name), "enum", List([]))
  {
  }

  lemma KeptExactly(name: string, base: Node, head: Node)
    requires Readable(base) && Readable(head)
    ensures Kept(name, base, head) <==> SaysTheSame(name, base, head)
  {
    if Described(base, name) && Described(head, name) {
      ShapeShows(base, name);
      ShapeShows(head, name);
      assert COMPARED[0] == "type" && COMPARED[1] == "format" && COMPARED[2] == "const" && COMPARED[3] == "items";
    }
  }

  /** The gate is silent if and only if every property of the old document says the same in the new one. */
  lemma PassesExactly(base: Node, head: Node, sorts: seq<Node> -> bool)
    ensures Passes(base, head, sorts)
            <==> Readable(base) && Readable(head) && Properties(base).Dict?
                 && forall name :: name in Properties(base).fields ==> SaysTheSame(name, base, head)
  {
    PassesMeansKept(base, head, sorts);
    if Readable(base) && Readable(head) && Properties(base).Dict? {
      forall name | name in Properties(base).fields
        ensures Kept(name, base, head) <==> SaysTheSame(name, base, head)
      {
        KeptExactly(name, base, head);
      }
    }
  }

  /** Which complaint is made about a property: it is gone, and then nothing else is said of it; it is
      required no longer; one of four keys changed; or a value was removed. */
  lemma ComplaintsExactly(name: string, base: Node, head: Node, sorts: seq<Node> -> bool)
    requires Readable(base) && Readable(head) && Properties(base).Dict? && name in Properties(base).fields
    requires PropertyProblems(name, base, head, sorts).Some?
    ensures var problems := PropertyProblems(name, base, head, sorts).value;
      if Contains(Properties(head), Text(name)) == Some(false) then problems == {Removed(name)}
      else
        && Described(base, name) && Described(head, name)
        && var was, now := Said(base, name), Said(head, name);
           && Removed(name) !in problems
           && (NotRequired(name) in problems <==> name in Required(base).value && name !in Required(head).value)
           && (forall key :: Changed(name, key) in problems
                 <==> key in {"type", "format", "const", "items"} && Get(was, key, Null) != Get(now, key, Null))
           && (ValuesRemoved(name) in problems <==> !ValuesKept(Get(was, "enum", List([])), Get(now, "enum", List([]))))
  {
    if Contains(Properties(head), Text(name)) == Some(true) {
      ShapeShows(base, name);
      ShapeShows(head, name);
      NothingLost(Enum(ShapeOf(base, name)), Enum(ShapeOf(head, name)));
      assert COMPARED[0] == "type" && COMPARED[1] == "format" && COMPARED[2] == "const" && COMPARED[3] == "items";
      var was, now := ShapeOf(base, name), ShapeOf(head, name);
      var all := PropertyProblems(name, base, head, sorts).value;
      forall key ensures Changed(name, key) in all <==> key in COMPARED && Get(was, key, Null) != Get(now, key, Null) {}
    }
  }

  /** What Python cannot loop over or look into. */
  predicate NoContainer(v: Node) {
    v.Null? || v.Number?
  }

  /** The test `x in v` raises. */
  predicate TestRaises(v: Node, x: Node) {
    NoContainer(v) || (v.Text? && !x.Text?) || (v.Dict? && (x.List? || x.Dict?))
  }

  lemma TestsExactly(v: Node, x: Node)
    ensures Contains(v, x).None? <==> TestRaises(v, x)
    ensures Elements(v).None? <==> NoContainer(v)
  {
  }

  /** A comparison that raises at this property: the new properties cannot be searched for its name or
      accessed by it, one of the two schemas cannot be read, the values cannot be compared, or some
      were removed from a list and cannot be sorted. */
  lemma RaisesExactly(name: string, base: Node, head: Node, sorts: seq<Node> -> bool)
    requires Readable(base) && Readable(head) && Properties(base).Dict? && name in Properties(base).fields
    ensures PropertyProblems(name, base, head, sorts).None? <==>
              || TestRaises(Properties(head), Text(name))
              || (Contains(Properties(head), Text(name)) == Some(true)
                  && (!Described(base, name) || !Described(head, name)
                      || ValuesRaise(Get(Said(base, name), "enum", List([])), Get(Said(head, name), "enum", List([])), sorts)))
  {
    TestsExactly(Properties(head), Text(name));
    if Described(base, name) && Described(head, name) {
      ShapeShows(base, name);
      ShapeShows(head, name);
      ValuesRaiseExactly(Enum(ShapeOf(base, name)), Enum(ShapeOf(head, name)), sorts);
    }
  }

  ghost predicate ValuesRaise(was: Node, now: Node, sorts: seq<Node> -> bool) {
    || NoContainer(was)
    || (exists v :: v in Elements(was).value && TestRaises(now, v))
    || (was.List? && (exists v :: v in was.items && Contains(now, v) == Some(false)) && !sorts(LostInOrder(was.items, now)))
  }

  lemma ValuesRaiseExactly(was: Node, now: Node, sorts: seq<Node> -> bool)
    ensures ValuesRaise(was, now, sorts) <==> Lost(was, now).None? || (Lost(was, now) != Some({}) && !CanPrint(was, now, sorts))
    ensures was.List? ==> forall v :: v in LostInOrder(was.items, now) <==> v in was.items && Contains(now, v) == Some(false)
  {
    if was.List? {
      LostAreListed(was.items, now);
    }
    TestsExactly(was, Null);
    if Elements(was).Some? {
      forall v ensures Contains(now, v).None? <==> TestRaises(now, v) {
        TestsExactly(now, v);
      }
      if Lost(was, now).Some? {
        forall v | v in Elements(was).value ensures v in Lost(was, now).value <==> Contains(now, v) == Some(false) {}
        assert Lost(was, now).value != {} ==> exists v :: v in Lost(was, now).value;
      }
    }
  }

  /** Those values are listed in the order of the old list. */
  lemma {:induction false} LostAreListed(items: seq<Node>, now: Node)
    ensures forall v :: v in LostInOrder(items, now) <==> v in items && Contains(now, v) == Some(false)
  {
    if items != [] {
      var n := |items| - 1;
      LostAreListed(items[..n], now);
      assert items == items[..n] + [items[n]];
    }
  }

  /** A document without properties promises nothing, so nothing can break it. */
  lemma NothingToBreak(base: Node, head: Node, sorts: seq<Node> -> bool)
    requires Readable(base) && "properties" !in base.fields
    ensures Passes(base, head, sorts) <==> Readable(head)
  {
    PassesExactly(base, head, sorts);
  }

  // ---- references

  function Reference(path: string): Node {
    Dict(map["$ref" := Text(path)])
  }

  /** A reference into the definitions of the same document stands for the definition, or for nothing at
      all if there is none by that name; any other reference is left as it is. */
  lemma ReferencesAreFollowed(root: Node, name: string, path: string)
    requires root.Dict? && (if "$defs" in root.fields then root.fields["$defs"].Dict? else true) && '/' !in name
    ensures var defs := if "$defs" in root.fields then root.fields["$defs"].fields else map[];
      Resolved(Reference("#/$defs/" + name), root)
      == Some(if name in defs && defs[name].Dict? then defs[name].fields else map[])
    ensures !("#/" <= path) ==> Resolved(Reference(path), root) == Some(Reference(path).fields)
  {
    var whole := "#/$defs/" + name;
    PartsOfAReference(name);
    assert whole[..2] == "#/";
    assert Reference(whole).fields["$ref"] == Text(whole);
    var defs := Get(root.fields, "$defs", Dict(map[]));
    assert ["$defs", name][1..] == [name] && [name][1..] == [];
    assert Walk(root, ["$defs", name]) == Walk(defs, [name]);
    assert Walk(defs, [name]) == Some(Get(defs.fields, name, Dict(map[])));
    OtherReferencesStay(root, path);
  }

  lemma PartsOfAReference(name: string)
    requires '/' !in name
    ensures Split(("#/$defs/" + name)[2..], '/') == ["$defs", name]
  {
    assert ("#/$defs/" + name)[2..] == "$defs" + ['/'] + name;
    SplitsOne("$defs", '/', name);
    SplitsOne(name, '/', "");
  }

  lemma OtherReferencesStay(root: Node, path: string)
    ensures !("#/" <= path) ==> Resolved(Reference(path), root) == Some(Reference(path).fields)
  {
    assert Reference(path).fields["$ref"] == Text(path);
  }

  /** A document that can be compared with itself has nothing against itself. */
  lemma PassesIsReflexive(doc: Node, sorts: seq<Node> -> bool)
    ensures Passes(doc, doc, sorts) <==> Comparable(doc, doc, sorts)
  {
    PassesMeansKept(doc, doc, sorts);
    if Comparable(doc, doc, sorts) {
      forall name | name in Properties(doc).fields ensures Kept(name, doc, doc) {
        assert PropertyProblems(name, doc, doc, sorts).Some?;
        KeepsItself(Enum(ShapeOf(doc, name)));
      }
    }
  }

  lemma KeepsItself(values: Node)
    ensures ValuesKept(values, values) <==> Elements(values).Some?
  {
    if values.Text? {
      forall c | c in values.s ensures Occurs([c], values.s) {
        CharOccurs(c, values.s);
      }
    }
  }

  lemma CharOccurs(c: char, s: string)
    ensures Occurs([c], s) <==> c in s
  {
    if c in s {
      var i :| 0 <= i < |s| && s[i] == c;
      assert OccursAt([c], s, i);
    }
    if i :| 0 <= i <= |s| && OccursAt([c], s, i) {
      assert s[i] == s[i..i + 1][0];
    }
  }

  // ---- two releases one after the other

  /** A text in place of a list of values: it contains more than its characters, so an old value may
      be part of it that is not one of them. */
  predicate Cut(was: Node, mid: Node) {
    mid.Text? && Elements(was).Some? && exists v :: v in Elements(was).value && (!v.Text? || |v.s| != 1)
  }

  lemma ValuesKeptOnward(was: Node, mid: Node, now: Node)
    requires ValuesKept(was, mid) && ValuesKept(mid, now) && !Cut(was, mid)
    ensures ValuesKept(was, now)
  {
    forall v | v in Elements(was).value ensures Contains(now, v) == Some(true) {
      assert Contains(mid, v) == Some(true);
      if mid.Text? {
        assert v == Text([v.s[0]]);
        CharOccurs(v.s[0], mid.s);
      }
      assert v in Elements(mid).value;
    }
  }

  predicate CutsAt(a: Node, b: Node, name: string) {
    Described(a, name) && Described(b, name) && Cut(Enum(ShapeOf(a, name)), Enum(ShapeOf(b, name)))
  }

  lemma KeptOnward(name: string, a: Node, b: Node, c: Node)
    requires Readable(a) && Readable(b) && Readable(c) && SameField(name, a, b) && SameField(name, b, c)
    ensures SameField(name, a, c)
    ensures Kept(name, a, b) && Kept(name, b, c) && !CutsAt(a, b, name) ==> Kept(name, a, c)
  {
    if Kept(name, a, b) && Kept(name, b, c) && !CutsAt(a, b, name) {
      ValuesKeptOnward(Enum(ShapeOf(a, name)), Enum(ShapeOf(b, name)), Enum(ShapeOf(c, name)));
    }
  }

  lemma AllKeptOnward(a: Node, b: Node, c: Node)
    requires AllKept(a, b) && AllKept(b, c) && forall name :: !CutsAt(a, b, name)
    ensures AllKept(a, c)
  {
    forall name | name in Properties(a).fields ensures Kept(name, a, c) {
      assert Kept(name, a, b) && Kept(name, b, c);
      KeptOnward(name, a, b, c);
    }
  }

  /** The list of its characters instead of a text. */
  function SpelledOut(values: Node): Node {
    if values.Text? then List(seq(|values.s|, i requires 0 <= i < |values.s| => Text([values.s[i]]))) else values
  }

  function SpelledShape(shape: map<string, Node>): map<string, Node> {
    if "enum" in shape then shape["enum" := SpelledOut(shape["enum"])] else shape
  }

  /** The same document with every reference resolved and every such text spelled out. */
  function Spelled(doc: Node): Node
    requires Readable(doc) && Properties(doc).Dict? && forall name :: name in Properties(doc).fields ==> Described(doc, name)
  {
    Dict(map["required" := Get(doc.fields, "required", List([])),
             "properties" := Dict(map name | name in Properties(doc).fields :: Dict(SpelledShape(ShapeOf(doc, name))))])
  }

  lemma SpelledReads(doc: Node)
    requires AllKept(doc, doc)
    ensures Readable(Spelled(doc)) && Required(Spelled(doc)) == Required(doc)
    ensures forall name :: name in Properties(doc).fields ==>
              Described(Spelled(doc), name) && ShapeOf(Spelled(doc), name) == SpelledShape(ShapeOf(doc, name))
  {
    var c := Spelled(doc);
    assert c.fields["required"] == Get(doc.fields, "required", List([]));
    forall name | name in Properties(doc).fields
      ensures Described(c, name) && ShapeOf(c, name) == SpelledShape(ShapeOf(doc, name))
    {
      var shape := SpelledShape(ShapeOf(doc, name));
      assert c.fields["properties"].fields[name] == Dict(shape) && "$ref" !in shape;
      assert (map key | key in shape && key in SHAPE_KEYS :: shape[key]) == shape;
    }
  }

  lemma SpellingKeeps(values: Node)
    requires Elements(values).Some?
    ensures ValuesKept(values, SpelledOut(values))
  {
    if values.Text? {
      forall v | v in Elements(values).value ensures v in SpelledOut(values).items {
        var c :| c in values.s && v == Text([c]);
        var i :| 0 <= i < |values.s| && values.s[i] == c;
        assert SpelledOut(values).items[i] == v;
      }
    } else {
      KeepsItself(values);
    }
  }

  lemma SpelledIsKept(doc: Node)
    requires AllKept(doc, doc)
    ensures AllKept(doc, Spelled(doc))
  {
    SpelledReads(doc);
    forall name | name in Properties(doc).fields ensures Kept(name, doc, Spelled(doc)) {
      assert Kept(name, doc, doc);
      SpellingKeeps(Enum(ShapeOf(doc, name)));
    }
  }

  /** The gate composes if and only if no list of values that holds more than single characters
      becomes a text. (A document that cannot be compared with itself has no successors at all.) */
  lemma PassingComposesExactly(a: Node, b: Node, sorts: seq<Node> -> bool)
    requires Passes(a, b, sorts)
    ensures (forall c :: Passes(b, c, sorts) ==> Passes(a, c, sorts))
            <==> !Comparable(b, b, sorts) || forall name :: !CutsAt(a, b, name)
  {
    PassesMeansKept(a, b, sorts);
    PassesIsReflexive(b, sorts);
    PassesMeansKept(b, b, sorts);
    if AllKept(b, b) && exists name :: CutsAt(a, b, name) {
      var name :| CutsAt(a, b, name);
      SpelledIsKept(b);
      PassesMeansKept(b, Spelled(b), sorts);
      PassesMeansKept(a, Spelled(b), sorts);
      CutIsNotKept(a, b, name);
    } else {
      forall c | Passes(b, c, sorts) ensures Passes(a, c, sorts) {
        PassesMeansKept(b, c, sorts);
        PassesMeansKept(a, c, sorts);
        KeptHasSelf(b, c);
        AllKeptOnward(a, b, c);
      }
    }
  }

  lemma CutIsNotKept(a: Node, b: Node, name: string)
    requires AllKept(a, b) && AllKept(b, b) && CutsAt(a, b, name)
    ensures !AllKept(a, Spelled(b))
  {
    SpelledReads(b);
    var was := Enum(ShapeOf(a, name));
    var v :| v in Elements(was).value && (!v.Text? || |v.s| != 1);
    assert Contains(Enum(ShapeOf(Spelled(b), name)), v) == Some(false);
  }

  lemma KeptHasSelf(b: Node, c: Node)
    requires AllKept(b, c)
    ensures AllKept(b, b)
  {
    forall name | name in Properties(b).fields ensures Kept(name, b, b) {
      assert Kept(name, b, c);
      KeepsItself(Enum(ShapeOf(b, name)));
    }
  }

  // ---- chains of releases

  predicate Released(docs: seq<Node>, sorts: seq<Node> -> bool) {
    |docs| > 0 && Comparable(docs[0], docs[0], sorts) && forall i :: 0 < i < |docs| ==> Passes(docs[i - 1], docs[i], sorts)
  }

  /** No list of values became a text. */
  ghost predicate NoTextForValues(docs: seq<Node>) {
    forall i, name :: 0 <= i < |docs| && Described(docs[i], name) ==> !Enum(ShapeOf(docs[i], name)).Text?
  }

  lemma {:induction false} FieldsStay(docs: seq<Node>, sorts: seq<Node> -> bool)
    requires Released(docs, sorts)
    ensures Readable(docs[0]) && Readable(docs[|docs| - 1]) && Properties(docs[0]).Dict?
    ensures forall name :: name in Properties(docs[0]).fields ==> SameField(name, docs[0], docs[|docs| - 1])
    ensures NoTextForValues(docs) ==> AllKept(docs[0], docs[|docs| - 1])
  {
    var n := |docs| - 1;
    if n == 0 {
      PassesIsReflexive(docs[0], sorts);
      PassesMeansKept(docs[0], docs[0], sorts);
    } else {
      FieldsStay(docs[..n], sorts);
      PassesMeansKept(docs[n - 1], docs[n], sorts);
      forall name | name in Properties(docs[0]).fields
        ensures SameField(name, docs[0], docs[n]) && (NoTextForValues(docs) ==> Kept(name, docs[0], docs[n]))
      {
        assert Kept(name, docs[n - 1], docs[n]);
        KeptOnward(name, docs[0], docs[n - 1], docs[n]);
      }
    }
  }

  predicate HasRequired(message: map<string, Node>, doc: Node) {
    Readable(doc) && forall name :: name in Required(doc).value ==> name in message
  }

  /** However many gated releases: every property is kept with its description, and with its values
      as long as they are no text, and a message with the fields the last document requires has every
      field that a consumer of the first relies on. */
  lemma ConsumersKeepTheirFields(docs: seq<Node>, sorts: seq<Node> -> bool, fields: set<string>, message: map<string, Node>)
    requires Released(docs, sorts) && Readable(docs[0]) && Properties(docs[0]).Dict?
    requires fields <= Properties(docs[0]).fields.Keys && fields <= Required(docs[0]).value
    requires HasRequired(message, docs[|docs| - 1])
    ensures forall name :: name in Properties(docs[0]).fields ==> SameField(name, docs[0], docs[|docs| - 1])
    ensures NoTextForValues(docs) ==> AllKept(docs[0], docs[|docs| - 1])
    ensures forall name :: name in fields ==> name in message
  {
    FieldsStay(docs, sorts);
  }

  // ---- what the gate does not see

  /** The description lets this value through: no list of values, or the value is on it. */
  predicate Lists(shape: map<string, Node>, v: Node) {
    "enum" !in shape || (shape["enum"].List? && v in shape["enum"].items)
  }

  /** A list of values where there was none, or something else where there was a list. */
  predicate Narrows(was: map<string, Node>, now: map<string, Node>) {
    && "enum" in now
    && if "enum" in was then was["enum"].List? && was["enum"].items != [] && !now["enum"].List? else true
  }

  /** A value that was let through still is, exactly as long as the description does not narrow. */
  lemma OldValuesStayListed(was: map<string, Node>, now: map<string, Node>)
    requires ValuesKept(Enum(was), Enum(now))
    ensures (forall v :: Lists(was, v) ==> Lists(now, v)) <==> !Narrows(was, now)
  {
    if Narrows(was, now) {
      if "enum" in was {
        assert Lists(was, was["enum"].items[0]) && !Lists(now, was["enum"].items[0]);
      } else if now["enum"].List? {
        var v := Absent(now["enum"].items);
        assert Lists(was, v) && !Lists(now, v);
      } else {
        assert Lists(was, Null) && !Lists(now, Null);
      }
    } else {
      forall v | Lists(was, v) ensures Lists(now, v) {
        assert "enum" in was && "enum" in now ==> v in Elements(was["enum"]).value;
      }
    }
  }

  /** A message may carry this value in this property, as far as lists of values go. */
  predicate Accepts(doc: Node, name: string, v: Node) {
    Described(doc, name) && Lists(ShapeOf(doc, name), v)
  }

  predicate NarrowsAt(base: Node, head: Node, name: string) {
    Described(base, name) && Described(head, name) && Narrows(ShapeOf(base, name), ShapeOf(head, name))
  }

  /** Between two releases the gate lets through: messages already in the stream stay acceptable if
      and only if no property gets a list of values that had none, or loses the one it had to
      something that is no list. */
  lemma OldMessagesStayAccepted(base: Node, head: Node, sorts: seq<Node> -> bool)
    requires Passes(base, head, sorts)
    ensures (forall name, v :: Accepts(base, name, v) ==> Accepts(head, name, v)) <==> forall name :: !NarrowsAt(base, head, name)
  {
    PassesMeansKept(base, head, sorts);
    forall name | name in Properties(base).fields
      ensures (forall v :: Accepts(base, name, v) ==> Accepts(head, name, v)) <==> !NarrowsAt(base, head, name)
    {
      assert Kept(name, base, head);
      OldValuesOf(base, head, name);
    }
    assert forall name, v :: Accepts(base, name, v) ==> name in Properties(base).fields;
    assert forall name :: NarrowsAt(base, head, name) ==> name in Properties(base).fields;
  }

  lemma OldValuesOf(base: Node, head: Node, name: string)
    requires Readable(base) && Readable(head) && Kept(name, base, head)
    ensures (forall v :: Accepts(base, name, v) ==> Accepts(head, name, v)) <==> !NarrowsAt(base, head, name)
  {
    var was, now := ShapeOf(base, name), ShapeOf(head, name);
    OldValuesStayListed(was, now);
    assert forall v :: Accepts(base, name, v) <==> Lists(was, v);
    assert forall v :: Accepts(head, name, v) <==> Lists(now, v);
  }

  /** A document whose one property has this description. */
  function OneProperty(name: string, description: map<string, Node>): Node {
    Dict(map["properties" := Dict(map[name := Dict(description)])])
  }

  /** Two releases the gate lets through: a value sent before is rejected after. */
  lemma NewListRejectsOldValue(sorts: seq<Node> -> bool)
    ensures var base := OneProperty("status", map["type" := Text("string")]);
      var head := OneProperty("status", map["type" := Text("string"), "enum" := List([Text("confirmed")])]);
      Passes(base, head, sorts) && Accepts(base, "status", Text("moved")) && !Accepts(head, "status", Text("moved"))
  {
    var before, after := map["type" := Text("string")], map["type" := Text("string"), "enum" := List([Text("confirmed")])];
    var base, head := OneProperty("status", before), OneProperty("status", after);
    OnePropertyReads("status", before);
    OnePropertyReads("status", after);
    var was, now := ShapeOf(base, "status"), ShapeOf(head, "status");
    assert was["type"] == now["type"];
    assert Kept("status", base, head);
    PassesMeansKept(base, head, sorts);
    assert Text("moved") !in now["enum"].items;
  }

  lemma OnePropertyReads(name: string, description: map<string, Node>)
    requires "$ref" !in description
    ensures var doc := OneProperty(name, description);
      && Readable(doc) && Properties(doc) == Dict(map[name := Dict(description)]) && Required(doc).value == {}
      && Described(doc, name) && ShapeOf(doc, name) == (map key | key in description && key in SHAPE_KEYS :: description[key])
  {
    var doc := OneProperty(name, description);
    assert doc.fields["properties"] == Dict(map[name := Dict(description)]);
    assert "required" !in doc.fields;
  }

  function OneEnum(values: Node): Node {
    OneProperty("status", map["enum" := values])
  }

  /** The input: a list, then a text that contains its value, then the characters of the text. */
  lemma TwoPassesDoNotMakeOne(sorts: seq<Node> -> bool)
    ensures var a, b, c := OneEnum(List([Text("ab")])), OneEnum(Text("ab")), OneEnum(List([Text("a"), Text("b")]));
      Passes(a, b, sorts) && Passes(b, c, sorts) && !Passes(a, c, sorts)
  {
    var first, mid, final := List([Text("ab")]), Text("ab"), List([Text("a"), Text("b")]);
    OneEnumPasses(first, mid, sorts);
    OneEnumPasses(mid, final, sorts);
    OneEnumPasses(first, final, sorts);
    PartIsNoCharacter(first, mid, final);
  }

  lemma PartIsNoCharacter(first: Node, mid: Node, final: Node)
    requires first == List([Text("ab")]) && mid == Text("ab") && final == List([Text("a"), Text("b")])
    ensures ValuesKept(first, mid) && ValuesKept(mid, final) && !ValuesKept(first, final)
  {
    assert OccursAt("ab", "ab", 0);
    SpellingKeeps(mid);
    assert SpelledOut(mid) == final;
    assert Text("ab") in Elements(first).value;
  }

  lemma OneEnumPasses(was: Node, now: Node, sorts: seq<Node> -> bool)
    ensures Passes(OneEnum(was), OneEnum(now), sorts) <==> ValuesKept(was, now)
  {
    OnePropertyReads("status", map["enum" := was]);
    OnePropertyReads("status", map["enum" := now]);
    PassesMeansKept(OneEnum(was), OneEnum(now), sorts);
    assert Kept("status", OneEnum(was), OneEnum(now)) <==> ValuesKept(was, now);
  }

  /** A value that is not on a list. */
  lemma {:induction false} Absent(items: seq<Node>) returns (v: Node)
    ensures v !in items
  {
    var size := Longest(items);
    v := List(seq(size + 1, _ => Null));
    assert Width(v) == size + 1;
  }

  function Width(v: Node): nat {
    if v.List? then |v.items| else 0
  }

  function Longest(items: seq<Node>): (n: nat)
    ensures forall i :: 0 <= i < |items| ==> Width(items[i]) <= n
  {
    if items == [] then 0
    else
      var rest := Longest(items[..|items| - 1]);
      if Width(items[|items| - 1]) > rest then Width(items[|items| - 1]) else rest
  }
}
