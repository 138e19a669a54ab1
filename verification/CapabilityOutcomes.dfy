/** Exactly which claims are issued, exactly which signed tokens verify, and what every other
    case is refused with. */
module CapabilityOutcomes {
  import R = Records
  import opened Base64
  import opened Capability
  import J = Json

  const HEX_DIGITS: string := "0123456789abcdef"
  const UPPER: string := "ABCDEFGHIJKLMNOPQRSTUVWXYZ"
  const LOWER: string := "abcdefghijklmnopqrstuvwxyz"
  const DIGITS: string := "0123456789"

  ghost predicate IsNameChar(c: char) {
    c in UPPER || c in LOWER || c in DIGITS || c in "_.:-"
  }

  ghost predicate IsName(s: string) {
    1 <= |s| <= 256 && forall i | 0 <= i < |s| :: IsNameChar(s[i])
  }

  /** An identifier of 32 lower-case hex digits, three names, a generation and an epoch. */
  ghost predicate AreWellFormed(c: Claims) {
    && |c.jti| == 32 && (forall i | 0 <= i < |c.jti| :: c.jti[i] in HEX_DIGITS) && IsName(c.user) && IsName(c.attempt) && IsName(c.sandbox)
    && c.generation >= 1 && c.epoch >= 0
  }

  lemma HexDigits(c: char)
    ensures c in HEX_DIGITS <==> '0' <= c <= '9' || 'a' <= c <= 'f'
  {
    assert forall i | 0 <= i < |HEX_DIGITS| :: '0' <= HEX_DIGITS[i] <= '9' || 'a' <= HEX_DIGITS[i] <= 'f';
    if '0' <= c <= '9' {
      assert HEX_DIGITS[c as int - 0x30] == c;
    } else if 'a' <= c <= 'f' {
      assert HEX_DIGITS[c as int - 0x57] == c;
    }
  }

  lemma UpperChars(c: char)
    ensures c in UPPER <==> 'A' <= c <= 'Z'
  {
    assert forall i | 0 <= i < |UPPER| :: 'A' <= UPPER[i] <= 'Z';
    if 'A' <= c <= 'Z' {
      assert UPPER[c as int - 0x41] == c;
    }
  }

  lemma LowerChars(c: char)
    ensures c in LOWER <==> 'a' <= c <= 'z'
  {
    assert forall i | 0 <= i < |LOWER| :: 'a' <= LOWER[i] <= 'z';
    if 'a' <= c <= 'z' {
      assert LOWER[c as int - 0x61] == c;
    }
  }

  lemma DigitChars(c: char)
    ensures c in DIGITS <==> '0' <= c <= '9'
  {
    assert forall i | 0 <= i < |DIGITS| :: '0' <= DIGITS[i] <= '9';
    if '0' <= c <= '9' {
      assert DIGITS[c as int - 0x30] == c;
    }
  }

  lemma NameChars(c: char)
    ensures IsNameChar(c) <==> IdentifierChar(c)
  {
    hide UPPER, LOWER, DIGITS;
    UpperChars(c);
    LowerChars(c);
    DigitChars(c);
  }

  lemma NamesAreIdentifiers(s: string)
    ensures IsIdentifier(s) <==> IsName(s)
  {
    hide IdentifierChar, IsNameChar;
    forall i | 0 <= i < |s|
      ensures IsNameChar(s[i]) <==> IdentifierChar(s[i])
    {
      NameChars(s[i]);
    }
  }

  lemma ShapeIsWellFormed(c: Claims)
    ensures HasShape(c) <==> AreWellFormed(c)
  {
    hide HEX_DIGITS, IsIdentifier, IsName;
    NamesAreIdentifiers(c.user);
    NamesAreIdentifiers(c.attempt);
    NamesAreIdentifiers(c.sandbox);
    forall i | 0 <= i < |c.jti|
      ensures c.jti[i] in HEX_DIGITS <==> '0' <= c.jti[i] <= '9' || 'a' <= c.jti[i] <= 'f'
    {
      HexDigits(c.jti[i]);
    }
  }

  /** The time from one instant to another, in microseconds. */
  ghost function Between(from: Moment, to: Moment): int {
    ((to.days - from.days) * 86_400 + (to.seconds - from.seconds)) * 1_000_000 + (to.micros - from.micros)
  }

  /** What the three parts of a token spell. */
  ghost predicate Spells(codec: Codec, token: string, c: Claims) {
    && Check(c).None? && IsSigned(codec, token)
    && var p := Split(token).value;
    && Decode(p.header).Some? && AsText(Decode(p.header).value) == R.Some(J.PrintObject(HEADER))
    && Decode(p.payload).Some? && AsText(Decode(p.payload).value) == R.Some(J.PrintObject(Payload(c)))
  }

  /** The fields of the payload, by name. */
  lemma PayloadSays(c: Claims)
    ensures J.Mapping(Payload(c), map[]) ==
      map["jti" := J.Text(c.jti), "user_id" := J.Text(c.user), "attempt_id" := J.Text(c.attempt), "sandbox_id" := J.Text(c.sandbox),
          "generation" := J.Number(c.generation), "session_epoch" := J.Number(c.epoch),
          "expires_at" := J.Number(Timestamp(c.expiresAt)), "scope" := J.Text(c.scope)]
  {
    PayloadMapping(Payload(c));
  }

  /** The token that would be issued. */
  ghost function TokenOf(codec: Codec, c: Claims): string
    requires Check(c).None?
  {
    PayloadIsAscii(c);
    HeaderIsAscii();
    var signed := Segment(J.PrintObject(HEADER)) + "." + Segment(J.PrintObject(Payload(c)));
    signed + "." + Encode(codec.mac(signed))
  }

  lemma TokenSpells(codec: Codec, c: Claims)
    requires Check(c).None? && IsKeyed(codec)
    ensures Spells(codec, TokenOf(codec, c), c)
  {
    hide Encode, Decode, AsText, Split, J.PrintObject, HasShape, Payload;
    HeaderIsAscii();
    PayloadIsAscii(c);
    PayloadIsSome(c);
    SegmentReadsBack(HEADER);
    SegmentReadsBack(Payload(c));
    var header, payload := Segment(J.PrintObject(HEADER)), Segment(J.PrintObject(Payload(c)));
    var digest := codec.mac(header + "." + payload);
    assert |digest| == 32;
    EncodingReadsBack(digest);
    EncodingIsSome(digest);
    SplitReadsBack(Parts(header, payload, Encode(digest)));
  }

  /** Claims are issued exactly if they are well-formed, of the terminal scope, end after now and
      within the longest lifetime, and their token fits 4096 characters. */
  lemma IssueOutcome(codec: Codec, c: Claims, now: Moment)
    ensures var o, lifetime := Issue(codec, c, now), Between(now, c.expiresAt);
      if !AreWellFormed(c) then o == Failure(Invalid)
      else if c.scope != "terminal:attach" then o == Failure(WrongScope)
      else if lifetime <= 0 then o == Failure(Expired)
      else if lifetime > codec.maxLifetime then o == Failure(TooLong)
      else Check(c).None? && o == if |TokenOf(codec, c)| > 4096 then Failure(TooLong) else Ok(TokenOf(codec, c))
  {
    hide HasShape, AreWellFormed, Encode, J.PrintObject, Payload;
    ShapeIsWellFormed(c);
  }

  /** The claims that a mapping carries. */
  ghost predicate Carries(p: map<string, J.Value>, c: Claims) {
    && p.Keys == {"jti", "user_id", "attempt_id", "sandbox_id", "generation", "session_epoch", "expires_at", "scope"}
    && p["jti"] == J.Text(c.jti) && p["user_id"] == J.Text(c.user) && p["attempt_id"] == J.Text(c.attempt)
    && p["sandbox_id"] == J.Text(c.sandbox) && p["generation"] == J.Number(c.generation)
    && p["session_epoch"] == J.Number(c.epoch) && p["scope"] == J.Text(c.scope)
    && IsMoment(c.expiresAt) && p["expires_at"] == J.Number(Timestamp(c.expiresAt))
  }

  lemma ClaimsAreCarried(p: map<string, J.Value>, c: Claims)
    requires p.Keys == NAMES
    ensures ClaimsOf(p) == R.Some(c) <==> Carries(p, c)
  {
    hide Timestamp, Instant;
    if p["expires_at"].Number? {
      if Instant(p["expires_at"].number).Some? {
        InstantReadsBack(p["expires_at"].number);
      }
    }
    if IsMoment(c.expiresAt) {
      TimestampReadsBack(c.expiresAt);
    }
  }

  lemma CarriedNames(p: map<string, J.Value>, c: Claims)
    requires Carries(p, c)
    ensures p.Keys == NAMES
  {
  }

  /** The mapping that a signed token of at most 4096 characters with the right header spells. */
  ghost function Signed(codec: Codec, token: string): R.Option<map<string, J.Value>> {
    if |token| <= 4096 && IsSigned(codec, token) && Decode(Split(token).value.header).Some?
       && codec.isHeader(Decode(Split(token).value.header).value) && Decode(Split(token).value.payload).Some?
    then codec.mapping(Decode(Split(token).value.payload).value) else R.None
  }

  /** A token verifies exactly if it is signed and short, with the right header, its mapping
      carries well-formed claims of the terminal scope, and they end after now and within the
      longest lifetime. It verifies to exactly these claims. */
  lemma VerifyOutcome(codec: Codec, token: string, now: Moment, c: Claims)
    ensures var o, p, lifetime := Verify(codec, token, now), Signed(codec, token), Between(now, c.expiresAt);
      && (p.Some? && Carries(p.value, c) ==>
            o == if !AreWellFormed(c) || c.scope != "terminal:attach" then Failure(Invalid)
                 else if lifetime <= 0 then Failure(Expired)
                 else if lifetime > codec.maxLifetime then Failure(TooLong)
                 else Ok(c))
      && (p.None? || (forall d :: !Carries(p.value, d)) ==> o == Failure(Invalid))
  {
    hide HasShape, AreWellFormed, Encode, Decode, Split, ClaimsOf, Carries;
    ShapeIsWellFormed(c);
    var p := Signed(codec, token);
    if p.Some? && Carries(p.value, c) {
      CarriedNames(p.value, c);
      ClaimsAreCarried(p.value, c);
    }
    if Split(token).Some? {
      PartsAreTheToken(token);
    }
    if p.Some? && p.value.Keys == NAMES && ClaimsOf(p.value).Some? {
      ClaimsAreCarried(p.value, ClaimsOf(p.value).value);
    }
  }
}
