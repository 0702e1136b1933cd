/** Base64url without padding (sections 3.2 and 5 of RFC 4648), and the reader that tolerates
    what Python's decoder tolerates. */
module Base64Url {
  import opened Common

  type byte = x: int | 0 <= x < 256

  // ---- the alphabet

  function Letter(v: int): char
    requires 0 <= v < 64
  {
    if v < 26 then ('A' as int + v) as char
    else if v < 52 then ('a' as int + v - 26) as char
    else if v < 62 then ('0' as int + v - 52) as char
    else if v == 62 then '-' else '_'
  }

  /** The reader knows both alphabets; other characters have no value. */
  function Value(c: char): (v: int)
    ensures -1 <= v < 64
  {
    if 'A' <= c <= 'Z' then c as int - 'A' as int
    else if 'a' <= c <= 'z' then c as int - 'a' as int + 26
    else if '0' <= c <= '9' then c as int - '0' as int + 52
    else if c == '-' || c == '+' then 62
    else if c == '_' || c == '/' then 63
    else -1
  }

  lemma LetterHasItsValue(v: int)
    requires 0 <= v < 64
    ensures Value(Letter(v)) == v && Letter(v) != '=' && Letter(v) != '.' && Letter(v) < 128 as char
  {
  }

  // ---- writing

  function Encode(raw: seq<byte>): string {
    if raw == [] then ""
    else if |raw| == 1 then [Letter(raw[0] / 4), Letter(raw[0] % 4 * 16)]
    else if |raw| == 2 then Three(raw[0], raw[1], 0)
    else Four(raw[0], raw[1], raw[2]) + Encode(raw[3..])
  }

  /** Two bytes and the first bits of a third. */
  function Three(x: byte, y: byte, z: byte): string {
    [Letter(x / 4), Letter(x % 4 * 16 + y / 16), Letter(y % 16 * 4 + z / 64)]
  }

  function Four(x: byte, y: byte, z: byte): string {
    Three(x, y, z) + [Letter(z % 64)]
  }

  // ---- reading

  /** The reader between two characters: bytes so far, place in the group of four, bits carried
      over, padding seen in this group, and whether a complete padding ended the input. */
  datatype Reader = Reader(out: seq<byte>, place: int, carry: int, pads: nat, ended: bool)

  predicate Sane(r: Reader) {
    && 0 <= r.place < 4
    && 0 <= r.carry < (match r.place case 0 => 1 case 1 => 64 case 2 => 16 case _ => 4)
  }

  function Take(r: Reader, c: char): (r': Reader)
    requires Sane(r)
    ensures Sane(r')
  {
    if r.ended then r
    else if c == '=' then
      if r.place >= 2 then Reader(r.out, r.place, r.carry, r.pads + 1, r.place + r.pads + 1 >= 4) else r
    else
      var v := Value(c);
      if v < 0 then r
      else match r.place
        case 0 => Reader(r.out, 1, v, 0, false)
        case 1 => Reader(r.out + [r.carry * 4 + v / 16], 2, v % 16, 0, false)
        case 2 => Reader(r.out + [r.carry * 16 + v / 4], 3, v % 4, 0, false)
        case _ => Reader(r.out + [r.carry * 64 + v], 0, 0, 0, false)
  }

  function TakeAll(r: Reader, s: string): (r': Reader)
    requires Sane(r)
    ensures Sane(r')
    decreases |s|
  {
    if s == "" then r else TakeAll(Take(r, s[0]), s[1..])
  }

  const START := Reader([], 0, 0, 0, false)

  /** Nothing for text outside ASCII and for a group of one character or without its padding. */
  function Decode(s: string): Option<seq<byte>> {
    if exists i :: 0 <= i < |s| && s[i] >= 128 as char then None
    else
      var r := TakeAll(START, s);
      if r.ended || r.place == 0 then Some(r.out) else None
  }

  const PADDING := "==="

  // ---- round trip

  lemma TakeMore(r: Reader, c: char, s: string)
    requires Sane(r)
    ensures TakeAll(r, [c] + s) == TakeAll(Take(r, c), s)
  {
  }

  lemma {:induction false} ReadsGroups(out: seq<byte>, raw: seq<byte>)
    ensures var r := TakeAll(Reader(out, 0, 0, 0, false), Encode(raw) + PADDING);
      r.out == out + raw && (r.ended || r.place == 0)
    decreases |raw|
  {
    if |raw| == 0 {
      ReadsNothing(Reader(out, 0, 0, 0, false));
      assert Encode(raw) + PADDING == PADDING && out + raw == out;
    } else if |raw| == 1 {
      ReadsOne(out, raw[0]);
      assert raw == [raw[0]];
    } else if |raw| == 2 {
      ReadsTwo(out, raw[0], raw[1]);
      assert raw == [raw[0], raw[1]];
    } else {
      var rest := Encode(raw[3..]) + PADDING;
      assert Encode(raw) + PADDING == Four(raw[0], raw[1], raw[2]) + rest;
      FourLetters(out, raw[0], raw[1], raw[2], rest);
      assert raw[..3] == [raw[0], raw[1], raw[2]];
      ReadsGroups(out + raw[..3], raw[3..]);
      assert out + raw[..3] + raw[3..] == out + raw;
    }
  }

  /** Padding in front of a group means nothing. */
  lemma ReadsNothing(r: Reader)
    requires Sane(r) && r.place == 0
    ensures TakeAll(r, PADDING) == r
  {
    assert PADDING == ['='] + (['='] + (['='] + ""));
    TakeMore(r, '=', ['='] + (['='] + ""));
    TakeMore(r, '=', ['='] + "");
    TakeMore(r, '=', "");
  }

  lemma ReadsOne(out: seq<byte>, x: byte)
    ensures var r := TakeAll(Reader(out, 0, 0, 0, false), Encode([x]) + PADDING); r.out == out + [x] && r.ended
  {
    var r, a, b := Reader(out, 0, 0, 0, false), Letter(x / 4), Letter(x % 4 * 16);
    LetterHasItsValue(x / 4);
    LetterHasItsValue(x % 4 * 16);
    assert Encode([x]) + PADDING == [a] + ([b] + PADDING);
    TakeMore(r, a, [b] + PADDING);
    TakeMore(Take(r, a), b, PADDING);
    assert Take(Take(r, a), b) == Reader(out + [x], 2, 0, 0, false);
    ReadsPadding(Reader(out + [x], 2, 0, 0, false));
  }

  lemma ReadsTwo(out: seq<byte>, x: byte, y: byte)
    ensures var r := TakeAll(Reader(out, 0, 0, 0, false), Encode([x, y]) + PADDING); r.out == out + [x, y] && r.ended
  {
    TakeAppend(Reader(out, 0, 0, 0, false), Three(x, y, 0), PADDING);
    ThreeInARow(out, x, y, 0);
    ReadsPadding(Reader(out + [x, y], 3, 0, 0, false));
  }

  lemma ThreeLetters(out: seq<byte>, x: byte, y: byte, z: byte)
    ensures Take(Take(Take(Reader(out, 0, 0, 0, false), Letter(x / 4)), Letter(x % 4 * 16 + y / 16)),
                 Letter(y % 16 * 4 + z / 64))
         == Reader(out + [x, y], 3, z / 64, 0, false)
  {
    LetterHasItsValue(x / 4);
    LetterHasItsValue(x % 4 * 16 + y / 16);
    var first := Take(Reader(out, 0, 0, 0, false), Letter(x / 4));
    var second := Take(first, Letter(x % 4 * 16 + y / 16));
    assert second == Reader(out + [x], 2, y / 16, 0, false);
    LetterHasItsValue(y % 16 * 4 + z / 64);
  }

  lemma {:induction false} TakeAppend(r: Reader, a: string, b: string)
    requires Sane(r)
    ensures TakeAll(r, a + b) == TakeAll(TakeAll(r, a), b)
    decreases |a|
  {
    if a == "" {
      assert a + b == b;
    } else {
      assert (a + b)[1..] == a[1..] + b;
      TakeAppend(Take(r, a[0]), a[1..], b);
    }
  }

  lemma ThreeInARow(out: seq<byte>, x: byte, y: byte, z: byte)
    ensures TakeAll(Reader(out, 0, 0, 0, false), Three(x, y, z)) == Reader(out + [x, y], 3, z / 64, 0, false)
  {
    var r, s := Reader(out, 0, 0, 0, false), Three(x, y, z);
    ThreeLetters(out, x, y, z);
    assert s == [s[0]] + ([s[1]] + ([s[2]] + ""));
    TakeMore(r, s[0], [s[1]] + ([s[2]] + ""));
    TakeMore(Take(r, s[0]), s[1], [s[2]] + "");
    TakeMore(Take(Take(r, s[0]), s[1]), s[2], "");
  }

  /** Three bytes become four letters and come back. */
  lemma FourLetters(out: seq<byte>, x: byte, y: byte, z: byte, rest: string)
    ensures TakeAll(Reader(out, 0, 0, 0, false), Four(x, y, z) + rest)
         == TakeAll(Reader(out + [x, y, z], 0, 0, 0, false), rest)
  {
    var last := Letter(z % 64);
    LetterHasItsValue(z % 64);
    ThreeInARow(out, x, y, z);
    assert Four(x, y, z) + rest == Three(x, y, z) + ([last] + rest);
    TakeAppend(Reader(out, 0, 0, 0, false), Three(x, y, z), [last] + rest);
    TakeMore(Reader(out + [x, y], 3, z / 64, 0, false), last, rest);
    assert out + [x, y] + [z] == out + [x, y, z];
  }

  lemma ReadsPadding(r: Reader)
    requires Sane(r) && r.place >= 2 && r.pads == 0 && !r.ended
    ensures TakeAll(r, PADDING).out == r.out && TakeAll(r, PADDING).ended
  {
    assert PADDING == ['='] + (['='] + (['='] + ""));
    TakeMore(r, '=', ['='] + (['='] + ""));
    TakeMore(Take(r, '='), '=', ['='] + "");
    TakeMore(Take(Take(r, '='), '='), '=', "");
  }

  /** The characters of an encoding: no padding, no separator, all ASCII. */
  lemma {:induction false} EncodesPlainly(raw: seq<byte>)
    ensures forall c :: c in Encode(raw) ==> c != '.' && c != '=' && c < 128 as char
  {
    if |raw| >= 3 {
      EncodesPlainly(raw[3..]);
    }
  }

  /** What was written without padding is read back once any padding is put behind it. */
  lemma DecodeEncode(raw: seq<byte>)
    ensures Decode(Encode(raw) + PADDING) == Some(raw)
  {
    EncodesPlainly(raw);
    ReadsGroups([], raw);
    assert [] + raw == raw;
    forall i | 0 <= i < |Encode(raw) + PADDING| ensures (Encode(raw) + PADDING)[i] < 128 as char {
      assert i < |Encode(raw)| ==> Encode(raw)[i] in Encode(raw);
    }
  }

  lemma EncodeIsInjective(a: seq<byte>, b: seq<byte>)
    requires Encode(a) == Encode(b)
    ensures a == b
  {
    DecodeEncode(a);
    DecodeEncode(b);
  }

  // ---- against the standard, and against the library

  /** The alphabet of section 5 of RFC 4648, by code points. */
  lemma AlphabetOfTheStandard(v: int)
    requires 0 <= v < 64
    ensures Letter(v) as int
         == if v < 26 then 65 + v else if v < 52 then 71 + v else if v < 62 then v - 4 else if v == 62 then 45 else 95
  {
  }

  /** Test vectors of section 10 of RFC 4648, without the padding. */
  lemma VectorsOfTheStandard()
    ensures Encode([]) == "" && Encode([102]) == "Zg" && Encode([102, 111]) == "Zm8" && Encode([102, 111, 111]) == "Zm9v"
    ensures Encode([102, 111, 111, 98]) == "Zm9vYg"
  {
    var foob: seq<byte> := [102, 111, 111, 98];
    assert foob[3..] == [98];
    var foo: seq<byte> := [102, 111, 111];
    assert foo[3..] == [];
  }

  /** Python's decoder skips what is in neither alphabet. */
  lemma DecoderSkipsStrangers(a: string, c: char, b: string)
    requires c < 128 as char && !('A' <= c <= 'Z') && !('a' <= c <= 'z') && !('0' <= c <= '9') && c !in "+/-_="
    ensures Decode(a + [c] + b) == Decode(a + b)
  {
    TakesInTheMiddle(a, c, b);
    TakeAppend(START, a, b);
    AsciiInTheMiddle(a, [c], b);
    AsciiInTheMiddle(a, "", b);
    assert a + "" + b == a + b;
    DecodeDependsOn(a + [c] + b, a + b);
  }

  /** And reads the letters of the standard alphabet like those of the safe one. */
  lemma DecoderReadsBothAlphabets(a: string, plain: char, safe: char, b: string)
    requires (plain == '+' && safe == '-') || (plain == '/' && safe == '_')
    ensures Decode(a + [plain] + b) == Decode(a + [safe] + b)
  {
    TakesInTheMiddle(a, plain, b);
    TakesInTheMiddle(a, safe, b);
    AsciiInTheMiddle(a, [plain], b);
    AsciiInTheMiddle(a, [safe], b);
    DecodeDependsOn(a + [plain] + b, a + [safe] + b);
  }

  lemma DecodeDependsOn(s: string, t: string)
    requires TakeAll(START, s) == TakeAll(START, t) && (Ascii(s) <==> Ascii(t))
    ensures Decode(s) == Decode(t)
  {
  }

  ghost predicate Ascii(s: string) {
    forall i :: 0 <= i < |s| ==> s[i] < 128 as char
  }

  lemma AsciiInTheMiddle(a: string, m: string, b: string)
    ensures Ascii(a + m + b) <==> Ascii(a) && Ascii(m) && Ascii(b)
  {
    var s := a + m + b;
    assert forall i :: 0 <= i < |a| ==> s[i] == a[i];
    assert forall i :: 0 <= i < |m| ==> s[|a| + i] == m[i];
    assert forall i :: 0 <= i < |b| ==> s[|a| + |m| + i] == b[i];
  }

  lemma TakesInTheMiddle(a: string, c: char, b: string)
    ensures TakeAll(START, a + [c] + b) == TakeAll(Take(TakeAll(START, a), c), b)
  {
    assert a + [c] + b == a + ([c] + b);
    TakeAppend(START, a, [c] + b);
    TakeMore(TakeAll(START, a), c, b);
  }
}
