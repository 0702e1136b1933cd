/** Reading JSON, as far as this system writes it: one flat object of plain strings and whole
    numbers, without spaces. Anything else is left to the library. */
module Json {
  import opened Common
  import opened Decimal
  import opened Base64Url

  datatype Value = Text(text: string) | Whole(n: int) | Flag(on: bool) | Object(fields: map<string, Value>) | Other

  /** A character that stands for itself inside a string. */
  predicate Plain(c: char) {
    ' ' <= c < 128 as char && c != '"' && c != '\\'
  }

  predicate AllPlain(s: string) {
    forall i :: 0 <= i < |s| ==> Plain(s[i])
  }

  function Quoted(s: string): string {
    "\"" + s + "\""
  }

  // ---- reading; every reader returns what it read and what is left

  function PlainRun(s: string): (k: nat)
    ensures k <= |s| && AllPlain(s[..k]) && (k < |s| ==> !Plain(s[k]))
  {
    if s == "" || !Plain(s[0]) then 0 else 1 + PlainRun(s[1..])
  }

  function DigitRun(s: string): (k: nat)
    ensures k <= |s| && AllDigits(s[..k]) && (k < |s| ==> !IsDigit(s[k]))
  {
    if s == "" || !IsDigit(s[0]) then 0 else 1 + DigitRun(s[1..])
  }

  function ReadText(s: string): (r: Option<(string, string)>)
    ensures r.Some? ==> |r.value.1| < |s|
  {
    if s == "" || s[0] != '"' then None
    else
      var k := PlainRun(s[1..]);
      if k + 1 < |s| && s[k + 1] == '"' then Some((s[1..k + 1], s[k + 2..])) else None
  }

  function ReadNatural(s: string): (r: Option<(nat, string)>)
    ensures r.Some? ==> |r.value.1| < |s|
  {
    var k := DigitRun(s);
    if k == 0 || (k > 1 && s[0] == '0') then None else Some((Number(s[..k]), s[k..]))
  }

  function ReadWhole(s: string): (r: Option<(int, string)>)
    ensures r.Some? ==> |r.value.1| < |s|
  {
    if s != "" && s[0] == '-' then
      match ReadNatural(s[1..])
      case Some((n, rest)) => var negative: int := 0 - n; Some((negative, rest))
      case None => None
    else
      match ReadNatural(s)
      case Some((n, rest)) => Some((n, rest))
      case None => None
  }

  function ReadValue(s: string): (r: Option<(Value, string)>)
    ensures r.Some? ==> |r.value.1| < |s|
  {
    if s != "" && s[0] == '"' then
      match ReadText(s)
      case Some((text, rest)) => Some((Text(text), rest))
      case None => None
    else
      match ReadWhole(s)
      case Some((n, rest)) => Some((Whole(n), rest))
      case None => None
  }

  /** Fields up to the closing brace, which ends the text. A repeated name keeps its last value. */
  function ReadFields(s: string, sofar: map<string, Value>): Option<map<string, Value>>
    decreases |s|
  {
    match ReadText(s)
    case None => None
    case Some((name, rest)) =>
      if rest == "" || rest[0] != ':' then None
      else
        match ReadValue(rest[1..])
        case None => None
        case Some((value, tail)) =>
          if tail == "}" then Some(sofar[name := value])
          else if tail != "" && tail[0] == ',' then ReadFields(tail[1..], sofar[name := value])
          else None
  }

  function ReadObject(s: string): Option<map<string, Value>> {
    if s == "{}" then Some(map[])
    else if s != "" && s[0] == '{' then ReadFields(s[1..], map[])
    else None
  }

  /** A number does not begin with a superfluous zero. */
  lemma NoLeadingZeros(s: string)
    requires |s| >= 2 && s[0] == '0' && IsDigit(s[1])
    ensures ReadNatural(s) == None
  {
    assert DigitRun(s) == 1 + DigitRun(s[1..]) && DigitRun(s[1..]) == 1 + DigitRun(s[1..][1..]);
  }

  // ---- bytes

  predicate AllAscii(s: string) {
    forall i :: 0 <= i < |s| ==> s[i] < 128 as char
  }

  function ToBytes(s: string): seq<byte>
    requires AllAscii(s)
  {
    seq(|s|, i requires 0 <= i < |s| => s[i] as int)
  }

  function ToText(raw: seq<byte>): Option<string> {
    if exists i :: 0 <= i < |raw| && raw[i] >= 128 then None
    else Some(seq(|raw|, i requires 0 <= i < |raw| => if raw[i] < 128 then raw[i] as char else '?'))
  }

  /** `library` is the general reader; nothing means that the bytes are not JSON. */
  function Loads(raw: seq<byte>, library: seq<byte> -> Option<Value>): Option<Value> {
    var text := ToText(raw);
    if text.Some? && ReadObject(text.value).Some? then Some(Object(ReadObject(text.value).value)) else library(raw)
  }

  // ---- what was printed is read back

  lemma {:induction false} RunsToTheEnd(s: string, c: char, rest: string)
    ensures AllPlain(s) && !Plain(c) ==> PlainRun(s + [c] + rest) == |s|
    ensures AllDigits(s) && !IsDigit(c) ==> DigitRun(s + [c] + rest) == |s|
  {
    var whole := s + [c] + rest;
    if s == "" {
      assert whole[0] == c;
    } else {
      assert whole[1..] == s[1..] + [c] + rest;
      RunsToTheEnd(s[1..], c, rest);
    }
  }

  lemma ReadsQuoted(s: string, rest: string)
    requires AllPlain(s)
    ensures ReadText(Quoted(s) + rest) == Some((s, rest))
  {
    var whole := Quoted(s) + rest;
    assert whole[1..] == s + ['"'] + rest;
    RunsToTheEnd(s, '"', rest);
    assert whole[1..|s| + 1] == s && whole[|s| + 2..] == rest;
  }

  lemma ReadsNatural(n: nat, c: char, rest: string)
    requires !IsDigit(c)
    ensures ReadNatural(Digits(n) + [c] + rest) == Some((n, [c] + rest))
  {
    var digits := Digits(n);
    var whole := digits + [c] + rest;
    NumberOfDigits(n);
    RunsToTheEnd(digits, c, rest);
    assert whole[..|digits|] == digits && whole[|digits|..] == [c] + rest && whole[0] == digits[0];
  }

  lemma ReadsNumber(n: int, c: char, rest: string)
    requires !IsDigit(c)
    ensures ReadValue(Show(n) + [c] + rest) == Some((Whole(n), [c] + rest))
  {
    if n < 0 {
      ReadsNegative(n, c, rest);
    } else {
      ReadsPositive(n, c, rest);
    }
  }

  lemma ReadsNegative(n: int, c: char, rest: string)
    requires n < 0 && !IsDigit(c)
    ensures ReadValue("-" + Digits(-n) + [c] + rest) == Some((Whole(n), [c] + rest))
  {
    var digits := Digits(-n) + [c] + rest;
    assert "-" + Digits(-n) + [c] + rest == "-" + digits;
    ReadsNatural(-n, c, rest);
    ReadsMinus(digits, -n, n, [c] + rest);
  }

  lemma ReadsMinus(digits: string, magnitude: nat, n: int, rest: string)
    requires ReadNatural(digits) == Some((magnitude, rest)) && n + magnitude == 0
    ensures ReadValue("-" + digits) == Some((Whole(n), rest))
  {
    assert ("-" + digits)[1..] == digits;
  }

  lemma ReadsPositive(n: nat, c: char, rest: string)
    requires !IsDigit(c)
    ensures ReadValue(Digits(n) + [c] + rest) == Some((Whole(n), [c] + rest))
  {
    assert (Digits(n) + [c] + rest)[0] == Digits(n)[0];
    ReadsNatural(n, c, rest);
  }

  lemma ReadsString(s: string, rest: string)
    requires AllPlain(s)
    ensures ReadValue(Quoted(s) + rest) == Some((Text(s), rest))
  {
    ReadsQuoted(s, rest);
    assert (Quoted(s) + rest)[0] == '"';
  }

  /** One field and what follows it. */
  lemma ReadsField(name: string, value: Value, s: string, tail: string, sofar: map<string, Value>)
    requires AllPlain(name) && ReadValue(s) == Some((value, tail))
    requires tail == "}" || (tail != "" && tail[0] == ',')
    ensures ReadFields(Quoted(name) + (":" + s), sofar)
         == if tail == "}" then Some(sofar[name := value]) else ReadFields(tail[1..], sofar[name := value])
  {
    ReadsQuoted(name, ":" + s);
    assert (":" + s)[1..] == s;
  }

  lemma AsciiRoundTrip(s: string)
    requires AllAscii(s)
    ensures ToText(ToBytes(s)) == Some(s)
  {
    assert ToText(ToBytes(s)).value == s;
  }
}
