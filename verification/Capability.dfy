/** The signed terminal capability: issuing, verifying, and the round trip. */
module Capability {
  import opened Records
  import opened Base64
  import J = Json
  import D = Decimals

  // ----- instants -----

  /** An instant in UTC, in days, seconds and microseconds from 1970. */
  datatype Moment = Moment(days: int, seconds: int, micros: int)

  /** Years 1 to 9999. */
  predicate IsMoment(m: Moment) {
    -719_162 <= m.days <= 2_932_896 && 0 <= m.seconds < 86_400 && 0 <= m.micros < 1_000_000
  }

  function Timestamp(m: Moment): int {
    (m.days * 86_400 + m.seconds) * 1_000_000 + m.micros
  }

  function Days(us: int): int {
    us / 86_400_000_000
  }

  function SecondOfDay(us: int): int {
    us / 1_000_000 % 86_400
  }

  function Micros(us: int): int {
    us % 1_000_000
  }

  function Instant(us: int): Option<Moment> {
    var m := Moment(Days(us), SecondOfDay(us), Micros(us));
    if -719_162 <= m.days <= 2_932_896 then Some(m) else None
  }

  lemma DropMicros(seconds: int, micros: int)
    requires 0 <= micros < 1_000_000
    ensures (seconds * 1_000_000 + micros) / 1_000_000 == seconds && Micros(seconds * 1_000_000 + micros) == micros
  {
  }

  lemma DropDays(days: int, seconds: int)
    requires 0 <= seconds < 86_400
    ensures (days * 86_400 + seconds) % 86_400 == seconds
  {
  }

  lemma DropTime(days: int, time: int)
    requires 0 <= time < 86_400_000_000
    ensures Days(days * 86_400_000_000 + time) == days
  {
  }

  lemma DropMicrosAndDays(days: int, seconds: int, micros: int)
    requires 0 <= seconds < 86_400 && 0 <= micros < 1_000_000
    ensures SecondOfDay((days * 86_400 + seconds) * 1_000_000 + micros) == seconds
  {
    DropMicros(days * 86_400 + seconds, micros);
    DropDays(days, seconds);
  }

  /** Conversion is exact in both directions. */
  lemma TimestampReadsBack(m: Moment)
    requires IsMoment(m)
    ensures Instant(Timestamp(m)) == Some(m)
  {
    hide Days, SecondOfDay, Micros;
    DropMicros(m.days * 86_400 + m.seconds, m.micros);
    DropMicrosAndDays(m.days, m.seconds, m.micros);
    DropTime(m.days, m.seconds * 1_000_000 + m.micros);
    assert Timestamp(m) == m.days * 86_400_000_000 + (m.seconds * 1_000_000 + m.micros);
  }

  lemma SplitTime(us: int)
    ensures us == (us / 1_000_000) * 1_000_000 + Micros(us) && 0 <= Micros(us) < 1_000_000
    ensures us / 1_000_000 == (us / 1_000_000 / 86_400) * 86_400 + SecondOfDay(us) && 0 <= SecondOfDay(us) < 86_400
  {
  }

  lemma DaysByHalves(us: int)
    ensures Days(us) == us / 1_000_000 / 86_400
  {
  }

  lemma InstantReadsBack(us: int)
    requires Instant(us).Some?
    ensures IsMoment(Instant(us).value) && Timestamp(Instant(us).value) == us
  {
    hide Days, SecondOfDay, Micros;
    SplitTime(us);
    DaysByHalves(us);
  }

  // ----- claims -----

  datatype Claims = ClaimSet(
    jti: string, user: string, attempt: string, sandbox: string,
    generation: int, epoch: int, expiresAt: Moment, scope: string)

  datatype Error = Invalid | WrongScope | Expired | TooLong

  datatype Result<+T> = Ok(value: T) | Failure(error: Error)

  predicate IsHexId(s: string) {
    |s| == 32 && forall i | 0 <= i < |s| :: '0' <= s[i] <= '9' || 'a' <= s[i] <= 'f'
  }

  predicate IdentifierChar(c: char) {
    'A' <= c <= 'Z' || 'a' <= c <= 'z' || '0' <= c <= '9' || c == '_' || c == '.' || c == ':' || c == '-'
  }

  predicate IsIdentifier(s: string) {
    1 <= |s| <= 256 && forall i | 0 <= i < |s| :: IdentifierChar(s[i])
  }

  const SCOPE := "terminal:attach"

  predicate HasShape(c: Claims) {
    && IsHexId(c.jti) && IsIdentifier(c.user) && IsIdentifier(c.attempt) && IsIdentifier(c.sandbox)
    && c.generation >= 1 && c.epoch >= 0
  }

  function Check(c: Claims): Option<Error> {
    if !HasShape(c) then Some(Invalid) else if c.scope != SCOPE then Some(WrongScope) else None
  }

  // ----- segments -----

  /** ASCII text as bytes. */
  function Bytes(s: string): seq<byte>
    requires forall i | 0 <= i < |s| :: s[i] < 128 as char
  {
    seq(|s|, i requires 0 <= i < |s| => s[i] as int)
  }

  function AsText(b: seq<byte>): Option<string> {
    if forall i | 0 <= i < |b| :: b[i] < 128 then Some(seq(|b|, i requires 0 <= i < |b| => b[i] as char)) else None
  }

  predicate IsAscii(s: string) {
    forall i | 0 <= i < |s| :: s[i] < 128 as char
  }

  lemma BytesReadBack(s: string)
    requires IsAscii(s)
    ensures AsText(Bytes(s)) == Some(s)
  {
    assert AsText(Bytes(s)).value == s;
  }

  function Segment(s: string): string
    requires IsAscii(s)
  {
    Encode(Bytes(s))
  }

  const HEADER: seq<J.Field> :=
    [J.Field("alg", J.Text("HS256")), J.Field("typ", J.Text("FAILROOM_CAPABILITY")), J.Field("v", J.Number(1))]

  /** The fields in the order of their names. */
  function Payload(c: Claims): seq<J.Field> {
    [J.Field("attempt_id", J.Text(c.attempt)), J.Field("expires_at", J.Number(Timestamp(c.expiresAt))),
     J.Field("generation", J.Number(c.generation)), J.Field("jti", J.Text(c.jti)),
     J.Field("sandbox_id", J.Text(c.sandbox)), J.Field("scope", J.Text(c.scope)),
     J.Field("session_epoch", J.Number(c.epoch)), J.Field("user_id", J.Text(c.user))]
  }

  const NAMES := {"attempt_id", "expires_at", "generation", "jti", "sandbox_id", "scope", "session_epoch", "user_id"}

  /** A keyed digest of 32 bytes, the longest lifetime in microseconds, and the JSON library:
      whether bytes spell the header, and the mapping that they spell, if its values are text
      and integers as far as the codec tells them apart. */
  datatype Codec = Codec(
    mac: string -> seq<byte>,
    maxLifetime: int,
    isHeader: seq<byte> -> bool,
    mapping: seq<byte> -> Option<map<string, J.Value>>)

  const MAX_TOKEN := 4096

  function Issue(codec: Codec, c: Claims, now: Moment): Result<string> {
    var problem := Check(c);
    if problem.Some? then Failure(problem.value)
    else if Timestamp(c.expiresAt) <= Timestamp(now) then Failure(Expired)
    else if Timestamp(c.expiresAt) - Timestamp(now) > codec.maxLifetime then Failure(TooLong)
    else
      HeaderIsAscii();
      PayloadIsAscii(c);
      var header, payload := Segment(J.PrintObject(HEADER)), Segment(J.PrintObject(Payload(c)));
      var signed := header + "." + payload;
      var token := signed + "." + Encode(codec.mac(signed));
      if |token| > MAX_TOKEN then Failure(TooLong) else Ok(token)
  }

  /** The three parts of a token. */
  datatype Parts = Parts(header: string, payload: string, signature: string)

  /** The characters before the first dot, if there is one. */
  function BeforeDot(s: string): (r: Option<string>)
    ensures r.Some? ==> |r.value| < |s| && s[..|r.value|] == r.value && s[|r.value|] == '.' && '.' !in r.value
  {
    if s == [] then None
    else if s[0] == '.' then Some([])
    else
      var rest := BeforeDot(s[1..]);
      if rest.Some? then Some([s[0]] + rest.value) else None
  }

  function Split(token: string): Option<Parts> {
    var header := BeforeDot(token);
    if header.None? then None else
    var rest := token[|header.value| + 1..];
    var payload := BeforeDot(rest);
    if payload.None? then None else
    var signature := rest[|payload.value| + 1..];
    if '.' in signature || header.value == [] || payload.value == [] || signature == [] then None
    else Some(Parts(header.value, payload.value, signature))
  }

  /** Whatever else it reads, the JSON library reads what it prints. */
  ghost predicate ReadsItsPrint(codec: Codec) {
    && (forall b | AsText(b) == Some(J.PrintObject(HEADER)) :: codec.isHeader(b))
    && (forall b, c: Claims | Check(c).None? && AsText(b) == Some(J.PrintObject(Payload(c))) ::
          codec.mapping(b) == Some(J.Mapping(Payload(c), map[])))
  }

  function ReadText(b: seq<byte>): Option<map<string, J.Value>> {
    if AsText(b).Some? then J.ReadObject(AsText(b).value) else None
  }

  /** A codec with a reader of flat objects without spaces. */
  function PlainCodec(mac: string -> seq<byte>, maxLifetime: int): Codec {
    Codec(mac, maxLifetime, b => ReadText(b) == Some(J.Mapping(HEADER, map[])), b => ReadText(b))
  }

  /** The claims that a payload carries, if its values have the right types and its instant exists. */
  function ClaimsOf(p: map<string, J.Value>): Option<Claims>
    requires p.Keys == NAMES
  {
    if && p["jti"].Text? && p["user_id"].Text? && p["attempt_id"].Text? && p["sandbox_id"].Text? && p["scope"].Text?
       && p["generation"].Number? && p["session_epoch"].Number? && p["expires_at"].Number?
       && Instant(p["expires_at"].number).Some?
    then Some(ClaimSet(p["jti"].text, p["user_id"].text, p["attempt_id"].text, p["sandbox_id"].text, p["generation"].number,
                     p["session_epoch"].number, Instant(p["expires_at"].number).value, p["scope"].text))
    else None
  }

  function Verify(codec: Codec, token: string, now: Moment): Result<Claims> {
    if |token| > MAX_TOKEN then Failure(Invalid) else
    var split := Split(token);
    if split.None? then Failure(Invalid) else
    var parts := split.value;
    var header, payload, signature := Decode(parts.header), Decode(parts.payload), Decode(parts.signature);
    if header.None? || payload.None? || signature.None? then Failure(Invalid)
    else
      var fields := codec.mapping(payload.value);
      if !codec.isHeader(header.value) || fields.None? || fields.value.Keys != NAMES then Failure(Invalid)
      else if signature.value != codec.mac(parts.header + "." + parts.payload) then Failure(Invalid)
      else
        var claims := ClaimsOf(fields.value);
        if claims.None? || Check(claims.value).Some? then Failure(Invalid)
        else if Timestamp(claims.value.expiresAt) <= Timestamp(now) then Failure(Expired)
        else if Timestamp(claims.value.expiresAt) - Timestamp(now) > codec.maxLifetime then Failure(TooLong)
        else Ok(claims.value)
  }

  // ----- proofs -----

  lemma IdentifierIsPlain(s: string)
    requires IsIdentifier(s) || IsHexId(s)
    ensures J.IsPlain(s) && IsAscii(s)
  {
  }

  lemma IntIsAscii(n: int)
    ensures IsAscii(J.PrintInt(n)) && J.PrintInt(n) != []
  {
    D.PrintReadsBack(if n < 0 then -n else n);
  }

  lemma JoinIsAscii(s: string, t: string)
    requires IsAscii(s) && IsAscii(t)
    ensures IsAscii(s + t)
  {
  }

  lemma FieldIsAscii(f: J.Field)
    requires J.FieldIsPlain(f)
    ensures IsAscii(J.PrintField(f))
  {
    hide J.PrintInt;
    if f.value.Number? {
      IntIsAscii(f.value.number);
    }
  }

  lemma {:induction false} FieldsAreAscii(fields: seq<J.Field>)
    requires fields != [] && forall i | 0 <= i < |fields| :: J.FieldIsPlain(fields[i])
    ensures IsAscii(J.PrintFields(fields))
    decreases |fields|
  {
    hide IsAscii, J.PrintField, J.FieldIsPlain;
    FieldIsAscii(fields[0]);
    if |fields| > 1 {
      FieldsAreAscii(fields[1..]);
      CommaIsAscii();
      JoinIsAscii(J.PrintField(fields[0]), ",");
      JoinIsAscii(J.PrintField(fields[0]) + ",", J.PrintFields(fields[1..]));
    }
  }

  lemma CommaIsAscii()
    ensures IsAscii(",") && IsAscii("{") && IsAscii("}")
  {
  }

  lemma ObjectIsAscii(fields: seq<J.Field>)
    requires fields != [] && forall i | 0 <= i < |fields| :: J.FieldIsPlain(fields[i])
    ensures IsAscii(J.PrintObject(fields))
  {
    hide IsAscii, J.PrintFields, J.FieldIsPlain;
    FieldsAreAscii(fields);
    CommaIsAscii();
    JoinIsAscii("{", J.PrintFields(fields));
    JoinIsAscii("{" + J.PrintFields(fields), "}");
  }

  lemma HeaderIsAscii()
    ensures IsAscii(J.PrintObject(HEADER)) && forall i | 0 <= i < |HEADER| :: J.FieldIsPlain(HEADER[i])
  {
    ObjectIsAscii(HEADER);
  }

  lemma PayloadIsAscii(c: Claims)
    requires Check(c).None?
    ensures IsAscii(J.PrintObject(Payload(c))) && forall i | 0 <= i < |Payload(c)| :: J.FieldIsPlain(Payload(c)[i])
  {
    hide IsIdentifier, IsHexId, J.PrintObject;
    IdentifierIsPlain(c.jti);
    IdentifierIsPlain(c.user);
    IdentifierIsPlain(c.attempt);
    IdentifierIsPlain(c.sandbox);
    PayloadIsPlain(c);
    ObjectIsAscii(Payload(c));
  }

  lemma PayloadIsPlain(c: Claims)
    requires J.IsPlain(c.jti) && J.IsPlain(c.user) && J.IsPlain(c.attempt) && J.IsPlain(c.sandbox) && c.scope == SCOPE
    ensures forall i | 0 <= i < |Payload(c)| :: J.FieldIsPlain(Payload(c)[i])
  {
  }

  lemma SegmentReadsBack(fields: seq<J.Field>)
    requires fields != [] && forall i | 0 <= i < |fields| :: J.FieldIsPlain(fields[i])
    requires IsAscii(J.PrintObject(fields))
    ensures var bytes := Decode(Segment(J.PrintObject(fields)));
      bytes.Some? && AsText(bytes.value) == Some(J.PrintObject(fields))
    ensures '.' !in Segment(J.PrintObject(fields)) && Segment(J.PrintObject(fields)) != []
  {
    hide J.PrintFields, J.ReadObject, J.FieldIsPlain, Encode, Decode;
    var text := J.PrintObject(fields);
    EncodingReadsBack(Bytes(text));
    BytesReadBack(text);
    EncodingIsSome(Bytes(text));
  }

  lemma EncodingIsSome(b: seq<byte>)
    requires b != []
    ensures Encode(b) != []
  {
  }

  lemma {:induction false} FirstDot(s: string, rest: string)
    requires '.' !in s
    ensures BeforeDot(s + "." + rest) == Some(s)
    decreases |s|
  {
    var all := s + "." + rest;
    if s != [] {
      FirstDot(s[1..], rest);
      assert all[0] == s[0] && all[1..] == s[1..] + "." + rest;
      assert [s[0]] + s[1..] == s;
    }
  }

  lemma SplitReadsBack(p: Parts)
    requires '.' !in p.header && '.' !in p.payload && '.' !in p.signature
    requires p.header != [] && p.payload != [] && p.signature != []
    ensures Split(p.header + "." + p.payload + "." + p.signature) == Some(p)
  {
    var token := p.header + "." + p.payload + "." + p.signature;
    var rest := p.payload + "." + p.signature;
    assert token == p.header + "." + rest;
    FirstDot(p.header, rest);
    assert token[|p.header| + 1..] == rest;
    FirstDot(p.payload, p.signature);
    assert rest[|p.payload| + 1..] == p.signature;
  }

  lemma PayloadReadsBack(c: Claims)
    requires IsMoment(c.expiresAt)
    ensures var p := J.Mapping(Payload(c), map[]);
      p.Keys == NAMES && ClaimsOf(p) == Some(c)
  {
    TimestampReadsBack(c.expiresAt);
    PayloadMapping(Payload(c));
  }

  lemma MappingStep(f: seq<J.Field>, k: nat, sofar: map<string, J.Value>)
    requires k < |f|
    ensures J.Mapping(f[k..], sofar) == J.Mapping(f[k + 1..], sofar[f[k].name := f[k].value])
  {
    assert f[k..][1..] == f[k + 1..];
  }

  /** Eight fields, entered one after the other. */
  lemma PayloadMapping(f: seq<J.Field>)
    requires |f| == 8
    ensures J.Mapping(f, map[]) ==
      map[][f[0].name := f[0].value][f[1].name := f[1].value][f[2].name := f[2].value][f[3].name := f[3].value]
           [f[4].name := f[4].value][f[5].name := f[5].value][f[6].name := f[6].value][f[7].name := f[7].value]
  {
    hide J.Mapping;
    assert f[0..] == f;
    MappingStep(f, 0, map[]);
    var m1: map<string, J.Value> := map[][f[0].name := f[0].value];
    MappingStep(f, 1, m1);
    var m2 := m1[f[1].name := f[1].value];
    MappingStep(f, 2, m2);
    var m3 := m2[f[2].name := f[2].value];
    MappingStep(f, 3, m3);
    var m4 := m3[f[3].name := f[3].value];
    MappingStep(f, 4, m4);
    var m5 := m4[f[4].name := f[4].value];
    MappingStep(f, 5, m5);
    var m6 := m5[f[5].name := f[5].value];
    MappingStep(f, 6, m6);
    var m7 := m6[f[6].name := f[6].value];
    MappingStep(f, 7, m7);
    NothingMapped(m7[f[7].name := f[7].value]);
    assert f[8..] == [];
  }

  lemma NothingMapped(m: map<string, J.Value>)
    ensures J.Mapping([], m) == m
  {
  }

  /** A keyed digest has 32 bytes. */
  ghost predicate IsKeyed(codec: Codec) {
    forall s: string :: |codec.mac(s)| == 32
  }

  /** What was issued at one time verifies, until it expires, to the very same claims. */
  lemma IssuedClaimsVerify(codec: Codec, c: Claims, issued: Moment, later: Moment)
    requires IsKeyed(codec) && ReadsItsPrint(codec) && IsMoment(c.expiresAt) && Issue(codec, c, issued).Ok?
    requires Timestamp(issued) <= Timestamp(later) < Timestamp(c.expiresAt)
    ensures Verify(codec, Issue(codec, c, issued).value, later) == Ok(c)
  {
    hide Encode, Decode, AsText, Split, ClaimsOf, J.Mapping, J.PrintObject, HasShape, Timestamp, Payload;
    HeaderIsAscii();
    PayloadIsAscii(c);
    PayloadIsSome(c);
    SegmentReadsBack(HEADER);
    SegmentReadsBack(Payload(c));
    var header, payload := Segment(J.PrintObject(HEADER)), Segment(J.PrintObject(Payload(c)));
    var digest := codec.mac(header + "." + payload);
    assert |digest| == 32;
    EncodingReadsBack(digest);
    EncodingIsSome(digest);
    SplitReadsBack(Parts(header, payload, Encode(digest)));
    PayloadReadsBack(c);
  }

  lemma PayloadIsSome(c: Claims)
    ensures Payload(c) != []
  {
  }

  /** The token's first two segments are signed by its third, whose bytes are their keyed digest. */
  ghost predicate IsSigned(codec: Codec, token: string) {
    && Split(token).Some?
    && var p := Split(token).value;
    && token == p.header + "." + p.payload + "." + p.signature
    && Decode(p.signature) == Some(codec.mac(p.header + "." + p.payload))
  }

  lemma PartsAreTheToken(token: string)
    requires Split(token).Some?
    ensures var p := Split(token).value;
      token == p.header + "." + p.payload + "." + p.signature
  {
  }

  /** An accepted token, however its JSON is spelled and read, is signed and short, and its
      claims are valid and within their lifetime. */
  lemma AcceptedTokenIsSigned(codec: Codec, token: string, now: Moment)
    requires Verify(codec, token, now).Ok?
    ensures IsSigned(codec, token) && |token| <= MAX_TOKEN
    ensures var c := Verify(codec, token, now).value;
      && Check(c).None? && IsMoment(c.expiresAt)
      && Timestamp(now) < Timestamp(c.expiresAt) <= Timestamp(now) + codec.maxLifetime
  {
    hide Encode, Decode, HasShape, Split, Timestamp, Instant;
    PartsAreTheToken(token);
    var fields := codec.mapping(Decode(Split(token).value.payload).value).value;
    InstantReadsBack(fields["expires_at"].number);
  }

  /** There is such a library: the plain reader reads every object that is printed. */
  lemma PlainCodecReads(mac: string -> seq<byte>, maxLifetime: int)
    ensures ReadsItsPrint(PlainCodec(mac, maxLifetime))
  {
    hide AsText, J.ReadObject, J.PrintObject, J.Mapping, HasShape;
    HeaderIsAscii();
    J.ObjectReadsBack(HEADER);
    forall b, c: Claims | Check(c).None? && AsText(b) == Some(J.PrintObject(Payload(c)))
      ensures ReadText(b) == Some(J.Mapping(Payload(c), map[]))
    {
      PayloadIsAscii(c);
      PayloadIsSome(c);
      J.ObjectReadsBack(Payload(c));
    }
  }
}
