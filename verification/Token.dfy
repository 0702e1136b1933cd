/** The signed session token: the web service writes it, the booking service reads it. They share
    a secret and a format, and no code. */
module Token {
  import opened Common
  import opened BookingDomain
  import Base64Url
  import opened Decimal
  import opened Json
  import opened Strings

  const SECOND := 1_000_000

  const LIFETIME := 12 * 3600 * SECOND

  const MAX_LENGTH := 64

  /** HMAC-SHA256, as a function of secret and message. */
  type Mac = (string, string) -> seq<Base64Url.byte>

  function Signature(payload: string, secret: string, mac: Mac): string {
    Base64Url.Encode(mac(secret, "v1." + payload))
  }

  // ---- names

  predicate NameChar(c: char) {
    'A' <= c <= 'Z' || 'a' <= c <= 'z' || '0' <= c <= '9' || c == '.' || c == '_' || c == ':' || c == '@' || c == '-'
  }

  /** The identifiers booking accepts. */
  predicate IsSubject(s: string) {
    0 < |s| <= MAX_LENGTH && forall i :: 0 <= i < |s| ==> NameChar(s[i])
  }

  datatype NameError = Empty | TooLong | BadCharacter

  function CleanName(name: string): Result<string, NameError> {
    var clean := Strip(name);
    if clean == "" then Err(Empty)
    else if |clean| > MAX_LENGTH then Err(TooLong)
    else if exists i :: 0 <= i < |clean| && !NameChar(clean[i]) then Err(BadCharacter)
    else Ok(clean)
  }

  /** The login form and booking's verifier agree on what a name is: the form accepts exactly the
      texts that are an identifier once the spaces around them are gone, and an identifier as it stands. */
  lemma SameNames(name: string)
    ensures CleanName(name).Ok? <==> IsSubject(Strip(name))
    ensures CleanName(name).Ok? ==> CleanName(name).value == Strip(name) && CleanName(Strip(name)) == CleanName(name)
    ensures IsSubject(name) ==> CleanName(name) == Ok(name)
  {
  }

  /** The names there are: one to 64 characters out of digits, Latin letters and . _ : @ -, given here by
      their code points. The form says what is wrong with any other. */
  lemma NamesExactly(name: string)
    ensures IsSubject(name) <==> 1 <= |name| <= 64 && forall i :: 0 <= i < |name| ==> OfAName(name[i] as int)
    ensures CleanName(name) == Err(Empty) <==> Strip(name) == ""
    ensures CleanName(name) == Err(TooLong) <==> |Strip(name)| > 64
    ensures CleanName(name) == Err(BadCharacter)
            <==> 1 <= |Strip(name)| <= 64 && exists i :: 0 <= i < |Strip(name)| && !OfAName(Strip(name)[i] as int)
  {
    assert forall c: char :: NameChar(c) <==> OfAName(c as int);
  }

  predicate OfAName(code: int) {
    48 <= code <= 58 || 64 <= code <= 90 || 97 <= code <= 122 || code in {45, 46, 95}
  }

  // ---- the writer

  function RoleName(role: Role): string {
    match role case Client => "client" case Master => "master"
  }

  /** Seconds since the epoch, cut towards zero. */
  function WholeSeconds(t: int): int {
    if t >= 0 then t / SECOND else -(-t / SECOND)
  }

  function Expiry(issued: int): int {
    WholeSeconds(issued + LIFETIME)
  }

  function Field(name: string, value: string, rest: string): string {
    Quoted(name) + (":" + (value + rest))
  }

  /** The claims, sorted by name and without spaces. */
  function Claims(subject: string, role: Role, expires: int): string {
    "{" + Field("exp", Show(expires), "," + Field("role", Quoted(RoleName(role)), "," + Field("sub", Quoted(subject), "}")))
  }

  function IssueToken(subject: string, role: Role, secret: string, now: int, mac: Mac): string
    requires AllAscii(Claims(subject, role, Expiry(now)))
  {
    var payload := Base64Url.Encode(ToBytes(Claims(subject, role, Expiry(now))));
    "v1." + payload + "." + Signature(payload, secret, mac)
  }

  // ---- the reader

  /** `Uncaught` is an exception of the library that nobody turns into an answer. */
  datatype AuthError = InvalidToken | TokenExpired | Uncaught

  function ReadClaims(payload: string, library: seq<Base64Url.byte> -> Option<Value>): Result<map<string, Value>, AuthError> {
    var raw := Base64Url.Decode(payload + Base64Url.PADDING);
    if raw.None? then Err(InvalidToken)
    else
      var value := Loads(raw.value, library);
      if value.None? || !value.value.Object? then Err(InvalidToken) else Ok(value.value.fields)
  }

  function Claim(claims: map<string, Value>, name: string): Option<Value> {
    if name in claims then Some(claims[name]) else None
  }

  function ReadRole(role: Option<Value>): Option<Role> {
    if role == Some(Text("client")) then Some(Client)
    else if role == Some(Text("master")) then Some(Master)
    else None
  }

  /** A flag counts as a number here, as it does in Python. */
  function ReadExpiry(expires: Option<Value>): Option<int> {
    match expires
    case Some(Whole(n)) => Some(n)
    case Some(Flag(on)) => Some(if on then 1 else 0)
    case _ => None
  }

  function ReadIdentity(claims: map<string, Value>, now: int): Result<Identity, AuthError> {
    var subject, role, expires := Claim(claims, "sub"), ReadRole(Claim(claims, "role")), ReadExpiry(Claim(claims, "exp"));
    if subject.None? || !subject.value.Text? || !IsSubject(subject.value.text) then Err(InvalidToken)
    else if role.None? then Err(InvalidToken)
    else if expires.None? then Err(InvalidToken)
    else if expires.value * SECOND <= now then Err(TokenExpired)
    else Ok(Identity(subject.value.text, role.value))
  }

  function VerifyToken(token: string, secret: string, now: int, mac: Mac, library: seq<Base64Url.byte> -> Option<Value>)
    : Result<Identity, AuthError>
  {
    var parts := Split(token, '.');
    if |parts| != 3 || parts[0] != "v1" then Err(InvalidToken)
    else if !AllAscii(parts[2]) then Err(Uncaught)
    else if Signature(parts[1], secret, mac) != parts[2] then Err(InvalidToken)
    else
      match ReadClaims(parts[1], library)
      case Err(e) => Err(e)
      case Ok(claims) => ReadIdentity(claims, now)
  }

  // ---- splitting

  lemma SplitsThree(payload: string, signature: string)
    requires '.' !in payload && '.' !in signature
    ensures Split("v1." + payload + "." + signature, '.') == ["v1", payload, signature]
  {
    var tail := payload + ['.'] + signature;
    assert "v1." + payload + "." + signature == "v1" + ['.'] + tail;
    SplitsOne("v1", '.', tail);
    SplitsOne(payload, '.', signature);
    SplitsOne(signature, '.', "");
  }

  function JoinByDots(parts: seq<string>): string
    requires parts != []
  {
    if |parts| == 1 then parts[0] else parts[0] + "." + JoinByDots(parts[1..])
  }

  lemma {:induction false} JoinSplit(s: string)
    ensures JoinByDots(Split(s, '.')) == s
    decreases |s|
  {
    var k := Find(s, '.');
    if k < |s| {
      var rest := Split(s[k + 1..], '.');
      JoinSplit(s[k + 1..]);
      assert ([s[..k]] + rest)[1..] == rest;
      assert s == s[..k] + "." + s[k + 1..];
    }
  }

  /** The converse: a token in three parts is these parts with points between them. */
  lemma ThreePartsTell(token: string, payload: string, signature: string)
    requires Split(token, '.') == ["v1", payload, signature]
    ensures token == "v1." + payload + "." + signature
  {
    JoinSplit(token);
    assert JoinByDots([payload, signature]) == payload + "." + signature;
    assert ["v1", payload, signature][1..] == [payload, signature];
    assert "v1" + "." + (payload + "." + signature) == "v1." + payload + "." + signature;
  }

  // ---- the round trip

  lemma FieldIsAscii(name: string, value: string, rest: string)
    requires AllPlain(name) && AllAscii(value) && AllAscii(rest)
    ensures AllAscii(Field(name, value, rest))
  {
    assert AllAscii(Quoted(name));
    assert AllAscii(":" + (value + rest));
  }

  lemma ShowIsAscii(n: int)
    ensures AllAscii(Show(n))
  {
    var digits := Digits(if n < 0 then -n else n);
    forall i | 0 <= i < |digits| ensures digits[i] < 128 as char {
      assert IsDigit(digits[i]);
    }
  }

  lemma ClaimsAreAscii(subject: string, role: Role, expires: int)
    requires IsSubject(subject)
    ensures AllAscii(Claims(subject, role, expires)) && AllPlain(subject)
  {
    FieldIsAscii("sub", Quoted(subject), "}");
    FieldIsAscii("role", Quoted(RoleName(role)), "," + Field("sub", Quoted(subject), "}"));
    ShowIsAscii(expires);
    FieldIsAscii("exp", Show(expires), "," + Field("role", Quoted(RoleName(role)), "," + Field("sub", Quoted(subject), "}")));
  }

  lemma ReadsTextField(name: string, text: string, tail: string, sofar: map<string, Value>)
    requires AllPlain(name) && AllPlain(text) && (tail == "}" || (tail != "" && tail[0] == ','))
    ensures ReadFields(Field(name, Quoted(text), tail), sofar)
         == if tail == "}" then Some(sofar[name := Text(text)]) else ReadFields(tail[1..], sofar[name := Text(text)])
  {
    ReadsString(text, tail);
    ReadsField(name, Text(text), Quoted(text) + tail, tail, sofar);
  }

  lemma ReadsWholeField(name: string, n: int, tail: string, sofar: map<string, Value>)
    requires AllPlain(name) && tail != "" && tail[0] == ','
    ensures ReadFields(Field(name, Show(n), tail), sofar) == ReadFields(tail[1..], sofar[name := Whole(n)])
  {
    ReadsNumber(n, ',', tail[1..]);
    assert Show(n) + [','] + tail[1..] == Show(n) + tail && [','] + tail[1..] == tail;
    ReadsField(name, Whole(n), Show(n) + tail, tail, sofar);
  }

  lemma ReadsRoleAndSubject(subject: string, role: Role, sofar: map<string, Value>)
    requires AllPlain(subject)
    ensures ReadFields(Field("role", Quoted(RoleName(role)), "," + Field("sub", Quoted(subject), "}")), sofar)
         == Some(sofar["role" := Text(RoleName(role))]["sub" := Text(subject)])
  {
    var last := Field("sub", Quoted(subject), "}");
    var withRole := sofar["role" := Text(RoleName(role))];
    RoleIsPlain(role);
    ReadsTextField("role", RoleName(role), "," + last, sofar);
    Behind(last);
    assert ReadFields(Field("role", Quoted(RoleName(role)), "," + last), sofar) == ReadFields(last, withRole);
    ReadsTextField("sub", subject, "}", withRole);
  }

  lemma Behind(s: string)
    ensures ("," + s)[1..] == s && ("," + s)[0] == ',' && "," + s != "" && "," + s != "}"
  {
    assert ("," + s)[0] != "}"[0];
  }

  lemma RoleIsPlain(role: Role)
    ensures AllPlain(RoleName(role)) && AllPlain("role") && AllPlain("sub")
  {
  }

  /** Booking reads back the claims that web printed. */
  lemma ReadsTheClaims(subject: string, role: Role, expires: int)
    requires AllPlain(subject)
    ensures ReadObject(Claims(subject, role, expires))
         == Some(map["exp" := Whole(expires), "role" := Text(RoleName(role)), "sub" := Text(subject)])
  {
    var rest := Field("role", Quoted(RoleName(role)), "," + Field("sub", Quoted(subject), "}"));
    var first := Field("exp", Show(expires), "," + rest);
    assert ("{" + first)[1..] == first && first[0] == '"' && ("{" + first)[1] == '"';
    ReadsWholeField("exp", expires, "," + rest, map[]);
    assert ("," + rest)[1..] == rest;
    ReadsRoleAndSubject(subject, role, map["exp" := Whole(expires)]);
  }

  lemma PayloadRoundTrip(subject: string, role: Role, expires: int, library: seq<Base64Url.byte> -> Option<Value>)
    requires IsSubject(subject) && AllAscii(Claims(subject, role, expires))
    ensures ReadClaims(Base64Url.Encode(ToBytes(Claims(subject, role, expires))), library)
         == Ok(map["exp" := Whole(expires), "role" := Text(RoleName(role)), "sub" := Text(subject)])
  {
    var text := Claims(subject, role, expires);
    ClaimsAreAscii(subject, role, expires);
    Base64Url.DecodeEncode(ToBytes(text));
    AsciiRoundTrip(text);
    ReadsTheClaims(subject, role, expires);
  }

  /** A token has exactly three parts: the version, the claims and their signature. */
  lemma TokenParts(subject: string, role: Role, secret: string, issued: int, mac: Mac)
    requires AllAscii(Claims(subject, role, Expiry(issued)))
    ensures var payload := Base64Url.Encode(ToBytes(Claims(subject, role, Expiry(issued))));
      && Split(IssueToken(subject, role, secret, issued, mac), '.') == ["v1", payload, Signature(payload, secret, mac)]
      && AllAscii(Signature(payload, secret, mac))
  {
    var payload := Base64Url.Encode(ToBytes(Claims(subject, role, Expiry(issued))));
    var signature := Signature(payload, secret, mac);
    Base64Url.EncodesPlainly(ToBytes(Claims(subject, role, Expiry(issued))));
    Base64Url.EncodesPlainly(mac(secret, "v1." + payload));
    SplitsThree(payload, signature);
    assert forall i :: 0 <= i < |signature| ==> signature[i] in signature;
  }

  lemma ReadsTheIdentity(subject: string, role: Role, expires: int, now: int)
    requires IsSubject(subject)
    ensures ReadIdentity(map["exp" := Whole(expires), "role" := Text(RoleName(role)), "sub" := Text(subject)], now)
         == if now < expires * SECOND then Ok(Identity(subject, role)) else Err(TokenExpired)
  {
  }

  /** Every name the form accepts, in either role: the token has exactly three parts, and booking
      reads that identity from it at every instant before the second the token names, and
      "expired" from then on. */
  lemma TokenRoundTrip(name: string, role: Role, secret: string, issued: int, now: int, mac: Mac,
                       library: seq<Base64Url.byte> -> Option<Value>)
    requires CleanName(name).Ok?
    ensures var subject := CleanName(name).value;
      && AllAscii(Claims(subject, role, Expiry(issued)))
      && var token := IssueToken(subject, role, secret, issued, mac);
         && |Split(token, '.')| == 3
         && VerifyToken(token, secret, now, mac, library)
            == if now < Expiry(issued) * SECOND then Ok(Identity(subject, role)) else Err(TokenExpired)
  {
    var subject := CleanName(name).value;
    SameNames(name);
    ClaimsAreAscii(subject, role, Expiry(issued));
    PayloadRoundTrip(subject, role, Expiry(issued), library);
    TokenParts(subject, role, secret, issued, mac);
    ReadsTheIdentity(subject, role, Expiry(issued), now);
  }

  /** The session lasts twelve hours (43 200 000 000 microseconds), less the part of a second that is
      cut off; before 1970 the cut is towards the later second. */
  lemma SessionLength(issued: int)
    ensures var end, told := issued + 43_200_000_000, Expiry(issued) * 1_000_000;
      if end >= 0 then end - 1_000_000 < told <= end else end <= told < end + 1_000_000
  {
  }

  // ---- exactly which tokens are accepted

  /** These claims name this person and this second of expiry. */
  predicate ClaimsName(claims: map<string, Value>, who: Identity, expires: int) {
    && "sub" in claims && claims["sub"] == Text(who.subject) && IsSubject(who.subject)
    && "role" in claims && claims["role"] == Text(if who.role == Client then "client" else "master")
    && "exp" in claims && claims["exp"] in {Whole(expires), Flag(expires == 1)}
    && (claims["exp"].Flag? ==> expires in {0, 1})
  }

  /** The token carries this payload under the signature of this secret, and the payload can be read. */
  ghost predicate Carries(token: string, secret: string, mac: Mac, library: seq<Base64Url.byte> -> Option<Value>,
                          payload: string, claims: map<string, Value>)
  {
    && '.' !in payload && token == "v1." + payload + "." + Base64Url.Encode(mac(secret, "v1." + payload))
    && ReadClaims(payload, library) == Ok(claims)
  }

  ghost predicate Grants(token: string, secret: string, mac: Mac, library: seq<Base64Url.byte> -> Option<Value>,
                         payload: string, claims: map<string, Value>, who: Identity, expires: int)
  {
    Carries(token, secret, mac, library, payload, claims) && ClaimsName(claims, who, expires)
  }

  /** A third part that is no ASCII makes the comparison of signatures raise. */
  ghost predicate NotComparable(token: string, payload: string, presented: string) {
    token == "v1." + payload + "." + presented && '.' !in payload && '.' !in presented && !AllAscii(presented)
  }

  /** Exactly who gets in: the bearer of a token with three parts, signed with this secret, whose claims name
      them in one of the two roles, before the second it names. From then on, and only then, the answer is
      that it is expired; everything else is invalid, or not comparable. */
  lemma AnswersExactly(token: string, secret: string, now: int, mac: Mac, library: seq<Base64Url.byte> -> Option<Value>,
                       who: Identity)
    ensures VerifyToken(token, secret, now, mac, library) == Ok(who)
            <==> exists payload, claims, expires ::
                   Grants(token, secret, mac, library, payload, claims, who, expires) && now < expires * 1_000_000
    ensures VerifyToken(token, secret, now, mac, library) == Err(TokenExpired)
            <==> exists payload, claims, expires, someone ::
                   Grants(token, secret, mac, library, payload, claims, someone, expires) && expires * 1_000_000 <= now
    ensures VerifyToken(token, secret, now, mac, library) == Err(Uncaught)
            <==> exists payload, presented :: NotComparable(token, payload, presented)
  {
    var answer := VerifyToken(token, secret, now, mac, library);
    TokenTakenApart(token, secret, now, mac, library);
    if payload, claims, expires, someone :| Grants(token, secret, mac, library, payload, claims, someone, expires) {
      GrantDecides(token, secret, now, mac, library, payload, claims, someone, expires);
    }
    forall payload, claims, expires | Grants(token, secret, mac, library, payload, claims, who, expires)
      ensures answer == if now < expires * 1_000_000 then Ok(who) else Err(TokenExpired)
    {
      GrantDecides(token, secret, now, mac, library, payload, claims, who, expires);
    }
    forall payload, claims, expires, someone | Grants(token, secret, mac, library, payload, claims, someone, expires)
      ensures answer == if now < expires * 1_000_000 then Ok(someone) else Err(TokenExpired)
    {
      GrantDecides(token, secret, now, mac, library, payload, claims, someone, expires);
    }
    if payload, presented :| NotComparable(token, payload, presented) {
      SplitsThree(payload, presented);
    }
  }

  /** A token that grants something is answered accordingly. */
  lemma GrantDecides(token: string, secret: string, now: int, mac: Mac, library: seq<Base64Url.byte> -> Option<Value>,
                     payload: string, claims: map<string, Value>, who: Identity, expires: int)
    requires Grants(token, secret, mac, library, payload, claims, who, expires)
    ensures VerifyToken(token, secret, now, mac, library)
         == if now < expires * 1_000_000 then Ok(who) else Err(TokenExpired)
  {
    CarriedIsRead(token, secret, now, mac, library, payload, claims);
    ClaimsDecide(claims, who, expires, now);
  }

  lemma CarriedIsRead(token: string, secret: string, now: int, mac: Mac, library: seq<Base64Url.byte> -> Option<Value>,
                      payload: string, claims: map<string, Value>)
    requires Carries(token, secret, mac, library, payload, claims)
    ensures VerifyToken(token, secret, now, mac, library) == ReadIdentity(claims, now)
  {
    var signature := Signature(payload, secret, mac);
    Base64Url.EncodesPlainly(mac(secret, "v1." + payload));
    SplitsThree(payload, signature);
    assert forall i :: 0 <= i < |signature| ==> signature[i] in signature;
    assert AllAscii(signature);
  }

  lemma ClaimsDecide(claims: map<string, Value>, who: Identity, expires: int, now: int)
    requires ClaimsName(claims, who, expires)
    ensures ReadIdentity(claims, now) == if now < expires * 1_000_000 then Ok(who) else Err(TokenExpired)
  {
  }

  /** An answer other than invalid comes from such a token. */
  lemma TokenTakenApart(token: string, secret: string, now: int, mac: Mac, library: seq<Base64Url.byte> -> Option<Value>)
    ensures var answer := VerifyToken(token, secret, now, mac, library);
      && (answer.Ok? ==> exists payload, claims, expires ::
            Grants(token, secret, mac, library, payload, claims, answer.value, expires) && now < expires * 1_000_000)
      && (answer == Err(TokenExpired) ==> exists payload, claims, expires, someone ::
            Grants(token, secret, mac, library, payload, claims, someone, expires) && expires * 1_000_000 <= now)
      && (answer == Err(Uncaught) ==> exists payload, presented :: NotComparable(token, payload, presented))
  {
    var parts := Split(token, '.');
    var answer := VerifyToken(token, secret, now, mac, library);
    PartsAreClean(token, '.');
    if answer != Err(InvalidToken) {
      assert parts == ["v1", parts[1], parts[2]];
      ThreePartsTell(token, parts[1], parts[2]);
      if answer == Err(Uncaught) {
        UncaughtIsNotAscii(token, secret, now, mac, library);
        assert NotComparable(token, parts[1], parts[2]);
      } else {
        var claims := ReadClaims(parts[1], library).value;
        var who, expires := TheGrant(claims, now);
        assert Grants(token, secret, mac, library, parts[1], claims, who, expires);
      }
    }
  }

  lemma UncaughtIsNotAscii(token: string, secret: string, now: int, mac: Mac, library: seq<Base64Url.byte> -> Option<Value>)
    requires VerifyToken(token, secret, now, mac, library) == Err(Uncaught)
    ensures !AllAscii(Split(token, '.')[2])
  {
  }

  /** Claims that are accepted or expired name somebody. */
  lemma TheGrant(claims: map<string, Value>, now: int) returns (who: Identity, expires: int)
    requires ReadIdentity(claims, now).Ok? || ReadIdentity(claims, now) == Err(TokenExpired)
    ensures ClaimsName(claims, who, expires)
    ensures ReadIdentity(claims, now) == if now < expires * 1_000_000 then Ok(who) else Err(TokenExpired)
  {
    who := Identity(claims["sub"].text, ReadRole(Claim(claims, "role")).value);
    expires := ReadExpiry(Claim(claims, "exp")).value;
  }

  /** The token says who: different names, roles or expiry seconds give different tokens. */
  lemma TokensTellApart(a: string, roleA: Role, issuedA: int, b: string, roleB: Role, issuedB: int, secret: string, mac: Mac)
    requires IsSubject(a) && IsSubject(b)
    ensures AllAscii(Claims(a, roleA, Expiry(issuedA))) && AllAscii(Claims(b, roleB, Expiry(issuedB)))
    ensures IssueToken(a, roleA, secret, issuedA, mac) == IssueToken(b, roleB, secret, issuedB, mac) ==>
            a == b && roleA == roleB && Expiry(issuedA) == Expiry(issuedB)
  {
    SameNames(a);
    SameNames(b);
    var library := (raw: seq<Base64Url.byte>) => None;
    var early := (if Expiry(issuedA) < Expiry(issuedB) then Expiry(issuedA) else Expiry(issuedB)) * SECOND - 1;
    var between := (if Expiry(issuedA) < Expiry(issuedB) then Expiry(issuedA) else Expiry(issuedB)) * SECOND;
    TokenRoundTrip(a, roleA, secret, issuedA, early, mac, library);
    TokenRoundTrip(b, roleB, secret, issuedB, early, mac, library);
    TokenRoundTrip(a, roleA, secret, issuedA, between, mac, library);
    TokenRoundTrip(b, roleB, secret, issuedB, between, mac, library);
  }

  /** Whatever booking accepts, or calls expired, is `v1`, a payload and the signature of that payload. */
  lemma OnlySignedTokens(token: string, secret: string, now: int, mac: Mac, library: seq<Base64Url.byte> -> Option<Value>)
    requires var answer := VerifyToken(token, secret, now, mac, library); answer.Ok? || answer == Err(TokenExpired)
    ensures exists payload :: token == "v1." + payload + "." + Signature(payload, secret, mac)
    ensures var answer := VerifyToken(token, secret, now, mac, library); answer.Ok? ==> IsSubject(answer.value.subject)
  {
    var parts := Split(token, '.');
    assert parts == ["v1", parts[1], parts[2]];
    ThreePartsTell(token, parts[1], Signature(parts[1], secret, mac));
  }

  /** A token of another secret is refused, unless the two secrets sign this payload alike. */
  lemma OtherSecret(subject: string, role: Role, issued: int, now: int, secret: string, other: string, mac: Mac,
                    library: seq<Base64Url.byte> -> Option<Value>)
    requires IsSubject(subject)
    ensures AllAscii(Claims(subject, role, Expiry(issued)))
    ensures var payload := Base64Url.Encode(ToBytes(Claims(subject, role, Expiry(issued))));
      VerifyToken(IssueToken(subject, role, secret, issued, mac), other, now, mac, library) == Err(InvalidToken)
      <==> mac(secret, "v1." + payload) != mac(other, "v1." + payload)
  {
    ClaimsAreAscii(subject, role, Expiry(issued));
    PayloadRoundTrip(subject, role, Expiry(issued), library);
    TokenParts(subject, role, secret, issued, mac);
    ReadsTheIdentity(subject, role, Expiry(issued), now);
    var payload := Base64Url.Encode(ToBytes(Claims(subject, role, Expiry(issued))));
    if Signature(payload, secret, mac) == Signature(payload, other, mac) {
      Base64Url.EncodeIsInjective(mac(secret, "v1." + payload), mac(other, "v1." + payload));
    }
  }

  /** One claim and what follows it: the name in quotes, a colon, the value. */
  function OneClaim(name: string, value: string, rest: string): string {
    "\"" + name + "\":" + value + rest
  }

  lemma FieldLooksLike(name: string, value: string, rest: string)
    ensures Field(name, value, rest) == OneClaim(name, value, rest)
  {
  }

  /** What the payload looks like: the three claims sorted by name, without spaces. */
  lemma HowClaimsLook(subject: string, role: Role, expires: int)
    ensures Claims(subject, role, expires)
         == "{" + OneClaim("exp", Show(expires),
                           "," + OneClaim("role", if role == Client then "\"client\"" else "\"master\"",
                                          "," + OneClaim("sub", "\"" + subject + "\"", "}")))
  {
    var sub := Field("sub", Quoted(subject), "}");
    FieldLooksLike("sub", Quoted(subject), "}");
    FieldLooksLike("role", Quoted(RoleName(role)), "," + sub);
    FieldLooksLike("exp", Show(expires), "," + Field("role", Quoted(RoleName(role)), "," + sub));
    assert Quoted("client") == "\"client\"" && Quoted("master") == "\"master\"";
  }
}
