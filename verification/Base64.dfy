/** Unpadded base64url, section 5 of RFC 4648, as the capability codec uses it. */
module Base64 {
  import opened Records

  type byte = b: nat | b < 0x100

  function CharOf(v: nat): char
    requires v < 64
  {
    if v < 26 then ('A' as int + v) as char
    else if v < 52 then ('a' as int + v - 26) as char
    else if v < 62 then ('0' as int + v - 52) as char
    else if v == 62 then '-' else '_'
  }

  function ValueOf(c: char): (v: Option<nat>)
    ensures v.Some? ==> v.value < 64
  {
    if 'A' <= c <= 'Z' then Some(c as int - 'A' as int)
    else if 'a' <= c <= 'z' then Some(c as int - 'a' as int + 26)
    else if '0' <= c <= '9' then Some(c as int - '0' as int + 52)
    else if c == '-' then Some(62) else if c == '_' then Some(63) else None
  }

  lemma AlphabetReadsBack(v: nat)
    requires v < 64
    ensures ValueOf(CharOf(v)) == Some(v)
  {
  }

  function Encode(b: seq<byte>): string {
    if b == [] then []
    else
      var x: nat := b[0];
      if |b| == 1 then [CharOf(x / 4), CharOf(x % 4 * 16)]
      else
        var y: nat := b[1];
        if |b| == 2 then [CharOf(x / 4), CharOf(x % 4 * 16 + y / 16), CharOf(y % 16 * 4)]
        else
          var z: nat := b[2];
          [CharOf(x / 4), CharOf(x % 4 * 16 + y / 16), CharOf(y % 16 * 4 + z / 64), CharOf(z % 64)] + Encode(b[3..])
  }

  predicate InAlphabet(s: string) {
    forall i | 0 <= i < |s| :: ValueOf(s[i]).Some?
  }

  function First(a: nat, b: nat): byte
    requires a < 64 && b < 64
  {
    a * 4 + b / 16
  }

  function Second(b: nat, c: nat): byte
    requires b < 64 && c < 64
  {
    b % 16 * 16 + c / 4
  }

  function Third(c: nat, d: nat): byte
    requires c < 64 && d < 64
  {
    c % 4 * 64 + d
  }

  /** Groups of four characters; the last may have two or three, whose spare bits are ignored. */
  function DecodeGroups(s: string): Option<seq<byte>>
    requires InAlphabet(s)
  {
    if s == [] then Some([])
    else if |s| == 1 then None
    else
      var a, b := ValueOf(s[0]).value, ValueOf(s[1]).value;
      if |s| == 2 then Some([First(a, b)])
      else
        var c := ValueOf(s[2]).value;
        if |s| == 3 then Some([First(a, b), Second(b, c)])
        else
          var d, rest := ValueOf(s[3]).value, DecodeGroups(s[4..]);
          if rest.Some? then Some([First(a, b), Second(b, c), Third(c, d)] + rest.value) else None
  }

  function Decode(s: string): Option<seq<byte>> {
    if s != [] && InAlphabet(s) then DecodeGroups(s) else None
  }

  lemma BytesReadBack(x: byte, y: byte, z: byte)
    ensures First(x / 4, x % 4 * 16) == x && First(x / 4, x % 4 * 16 + y / 16) == x
    ensures Second(x % 4 * 16 + y / 16, y % 16 * 4) == y && Second(x % 4 * 16 + y / 16, y % 16 * 4 + z / 64) == y
    ensures Third(y % 16 * 4 + z / 64, z % 64) == z
  {
  }

  lemma CharactersReadBack(a: nat, b: nat, c: nat, d: nat, rest: string)
    requires a < 64 && b < 64 && c < 64 && d < 64 && InAlphabet(rest)
    ensures var s := [CharOf(a), CharOf(b), CharOf(c), CharOf(d)];
      && InAlphabet(s + rest)
      && (DecodeGroups(rest).Some? ==>
            DecodeGroups(s + rest) == Some([First(a, b), Second(b, c), Third(c, d)] + DecodeGroups(rest).value))
    ensures InAlphabet([CharOf(a), CharOf(b), CharOf(c)])
    ensures DecodeGroups([CharOf(a), CharOf(b), CharOf(c)]) == Some([First(a, b), Second(b, c)])
    ensures InAlphabet([CharOf(a), CharOf(b)]) && DecodeGroups([CharOf(a), CharOf(b)]) == Some([First(a, b)])
  {
    AlphabetReadsBack(a);
    AlphabetReadsBack(b);
    AlphabetReadsBack(c);
    AlphabetReadsBack(d);
    hide CharOf, ValueOf, First, Second, Third;
    var s := [CharOf(a), CharOf(b), CharOf(c), CharOf(d)];
    assert (s + rest)[4..] == rest;
  }

  lemma {:induction false} GroupsReadBack(b: seq<byte>)
    ensures InAlphabet(Encode(b)) && DecodeGroups(Encode(b)) == Some(b)
    decreases |b|
  {
    hide CharOf, ValueOf, First, Second, Third, InAlphabet, DecodeGroups;
    EmptyDecodes();
    if b != [] {
      var x: nat := b[0];
      var y: nat := if |b| >= 2 then b[1] else 0;
      var z: nat := if |b| >= 3 then b[2] else 0;
      BytesReadBack(x, y, z);
      if |b| == 1 {
        CharactersReadBack(x / 4, x % 4 * 16, 0, 0, []);
        assert b == [x];
      } else if |b| == 2 {
        CharactersReadBack(x / 4, x % 4 * 16 + y / 16, y % 16 * 4, 0, []);
        assert b == [x, y];
      } else {
        GroupsReadBack(b[3..]);
        CharactersReadBack(x / 4, x % 4 * 16 + y / 16, y % 16 * 4 + z / 64, z % 64, Encode(b[3..]));
        assert b == [x, y, z] + b[3..];
      }
    }
  }

  lemma EmptyDecodes()
    ensures InAlphabet([]) && DecodeGroups([]) == Some([])
  {
  }

  /** Every byte string reads back. */
  lemma EncodingReadsBack(b: seq<byte>)
    requires b != []
    ensures Decode(Encode(b)) == Some(b) && '.' !in Encode(b)
  {
    GroupsReadBack(b);
  }
}
