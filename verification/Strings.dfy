/** Cutting a text at a separator, and at the spaces around it. */
module Strings {

  function Find(s: string, c: char): (k: nat)
    ensures k <= |s| && c !in s[..k] && (k < |s| ==> s[k] == c)
  {
    if s == "" || s[0] == c then 0 else 1 + Find(s[1..], c)
  }

  function Split(s: string, c: char): (parts: seq<string>)
    ensures parts != []
    decreases |s|
  {
    var k := Find(s, c);
    if k == |s| then [s] else [s[..k]] + Split(s[k + 1..], c)
  }

  /** The parts hold no separator. */
  lemma {:induction false} PartsAreClean(s: string, c: char)
    ensures forall i :: 0 <= i < |Split(s, c)| ==> c !in Split(s, c)[i]
    decreases |s|
  {
    var k := Find(s, c);
    if k < |s| {
      PartsAreClean(s[k + 1..], c);
    }
  }

  lemma {:induction false} FindsFirst(a: string, c: char, rest: string)
    requires c !in a
    ensures Find(a + [c] + rest, c) == |a|
    ensures Find(a, c) == |a|
  {
    if a == "" {
      assert (a + [c] + rest)[0] == c;
    } else {
      assert (a + [c] + rest)[1..] == a[1..] + [c] + rest && c !in a[1..] && a[0] in a;
      FindsFirst(a[1..], c, rest);
    }
  }

  lemma SplitsOne(a: string, c: char, rest: string)
    requires c !in a
    ensures Split(a + [c] + rest, c) == [a] + Split(rest, c)
    ensures Split(a, c) == [a]
  {
    var whole := a + [c] + rest;
    FindsFirst(a, c, rest);
    assert whole[..|a|] == a && whole[|a| + 1..] == rest;
  }

  predicate IsSpace(c: char) {
    '\t' <= c <= '\r' || '\U{1c}' <= c <= ' ' || c == '\U{85}' || c == '\U{a0}' || c == '\U{1680}'
    || '\U{2000}' <= c <= '\U{200a}' || c == '\U{2028}' || c == '\U{2029}' || c == '\U{202f}' || c == '\U{205f}' || c == '\U{3000}'
  }

  function Strip(s: string): (r: string)
    ensures |r| <= |s|
    ensures r != "" ==> !IsSpace(r[0]) && !IsSpace(r[|r| - 1])
    decreases |s|
  {
    if s != "" && IsSpace(s[0]) then Strip(s[1..])
    else if s != "" && IsSpace(s[|s| - 1]) then Strip(s[..|s| - 1])
    else s
  }

  /** The white space of Python, by code points. */
  lemma SpacesOfPython(c: char)
    ensures IsSpace(c)
            <==> var n := c as int;
                 9 <= n <= 13 || 28 <= n <= 32 || 0x2000 <= n <= 0x200a
                 || n in {0x85, 0xa0, 0x1680, 0x2028, 0x2029, 0x202f, 0x205f, 0x3000}
  {
  }

  ghost predicate AllSpace(s: string) {
    forall i :: 0 <= i < |s| ==> IsSpace(s[i])
  }

  /** Stripping takes away the spaces at both ends and nothing else. */
  lemma {:induction false} StripsSpacesOnly(s: string) returns (a: string, b: string)
    ensures s == a + Strip(s) + b && AllSpace(a) && AllSpace(b)
    decreases |s|
  {
    if s != "" && IsSpace(s[0]) {
      a, b := StripsSpacesOnly(s[1..]);
      SpaceInFront(s, a, Strip(s[1..]), b);
      a := [s[0]] + a;
    } else if s != "" && IsSpace(s[|s| - 1]) {
      a, b := StripsSpacesOnly(s[..|s| - 1]);
      SpaceBehind(s, a, Strip(s[..|s| - 1]), b);
      b := b + [s[|s| - 1]];
    } else {
      a, b := "", "";
    }
  }

  lemma SpaceInFront(s: string, a: string, m: string, b: string)
    requires s != "" && IsSpace(s[0]) && s[1..] == a + m + b && AllSpace(a)
    ensures s == [s[0]] + a + m + b && AllSpace([s[0]] + a)
  {
    assert s == [s[0]] + s[1..];
  }

  lemma SpaceBehind(s: string, a: string, m: string, b: string)
    requires s != "" && IsSpace(s[|s| - 1]) && s[..|s| - 1] == a + m + b && AllSpace(b)
    ensures s == a + m + (b + [s[|s| - 1]]) && AllSpace(b + [s[|s| - 1]])
  {
    assert s == s[..|s| - 1] + [s[|s| - 1]];
  }
}
