/** Terminal input: splitting text into frames that the server accepts.
    Texts are sequences of code points; frames are JSON texts sent as UTF-8. */
module Frames {
  import opened Records

  type CodeUnit = u: nat | u < 0x1_0000
  type Text = seq<nat>

  predicate IsScalar(c: nat) {
    c < 0xD800 || 0xE000 <= c <= 0x10_FFFF
  }

  predicate AllScalar(t: Text) {
    forall i | 0 <= i < |t| :: IsScalar(t[i])
  }

  predicate IsHigh(u: CodeUnit) {
    0xD800 <= u < 0xDC00
  }

  predicate IsLow(u: CodeUnit) {
    0xDC00 <= u < 0xE000
  }

  /** The character of a surrogate pair. */
  function Paired(high: CodeUnit, low: CodeUnit): (c: nat)
    requires IsHigh(high) && IsLow(low)
    ensures IsScalar(c)
  {
    var h: nat, l: nat := high, low;
    0x1_0000 + (h - 0xD800) * 0x400 + (l - 0xDC00)
  }

  /** The characters of a UTF-16 string, each lone surrogate replaced by U+FFFD. */
  function Characters(units: seq<CodeUnit>): (t: Text)
    ensures AllScalar(t)
    decreases |units|
  {
    if units == [] then []
    else if IsHigh(units[0]) && |units| >= 2 && IsLow(units[1]) then
      [Paired(units[0], units[1])] + Characters(units[2..])
    else if IsHigh(units[0]) || IsLow(units[0]) then [0xFFFD] + Characters(units[1..])
    else [units[0]] + Characters(units[1..])
  }

  /** UTF-16, section 2 of RFC 2781. */
  function Units(t: Text): seq<CodeUnit>
    requires AllScalar(t)
  {
    if t == [] then []
    else if t[0] < 0x1_0000 then [t[0]] + Units(t[1..])
    else [0xD800 + (t[0] - 0x1_0000) / 0x400, 0xDC00 + (t[0] - 0x1_0000) % 0x400] + Units(t[1..])
  }

  /** Every surrogate belongs to a pair. */
  predicate IsWellFormed(units: seq<CodeUnit>)
    decreases |units|
  {
    if units == [] then true
    else if IsHigh(units[0]) then |units| >= 2 && IsLow(units[1]) && IsWellFormed(units[2..])
    else !IsLow(units[0]) && IsWellFormed(units[1..])
  }

  lemma PairReadsBack(high: CodeUnit, low: CodeUnit)
    requires IsHigh(high) && IsLow(low)
    ensures var c := Paired(high, low);
      c >= 0x1_0000 && 0xD800 + (c - 0x1_0000) / 0x400 == high && 0xDC00 + (c - 0x1_0000) % 0x400 == low
  {
  }

  /** Well-formed text loses nothing: its characters encode to the same units. */
  lemma {:induction false} WellFormedTextIsKept(units: seq<CodeUnit>)
    requires IsWellFormed(units)
    ensures Units(Characters(units)) == units
    decreases |units|
  {
    hide Paired;
    if units != [] {
      var t := Characters(units);
      if IsHigh(units[0]) {
        WellFormedTextIsKept(units[2..]);
        PairReadsBack(units[0], units[1]);
        assert t[1..] == Characters(units[2..]);
        assert units == [units[0], units[1]] + units[2..];
      } else {
        WellFormedTextIsKept(units[1..]);
        assert t[1..] == Characters(units[1..]);
        assert units == [units[0]] + units[1..];
      }
    }
  }

  /** A surrogate that belongs to no pair. */
  predicate IsLone(units: seq<CodeUnit>, i: nat)
    requires i < |units|
  {
    || (IsHigh(units[i]) && !(i + 1 < |units| && IsLow(units[i + 1])))
    || (IsLow(units[i]) && !(i > 0 && IsHigh(units[i - 1])))
  }

  lemma UnitsOfFirst(c: nat, t: Text)
    requires IsScalar(c) && AllScalar(t)
    ensures Units([c] + t) ==
      (if c < 0x1_0000 then [c] else [0xD800 + (c - 0x1_0000) / 0x400, 0xDC00 + (c - 0x1_0000) % 0x400]) + Units(t)
  {
    assert ([c] + t)[1..] == t;
  }

  /** What any UTF-16 text becomes: lone surrogates are replaced, every other unit is kept. */
  lemma {:induction false} OnlyLoneSurrogatesAreReplaced(units: seq<CodeUnit>)
    ensures |Units(Characters(units))| == |units|
    ensures forall i | 0 <= i < |units| ::
      Units(Characters(units))[i] == if IsLone(units, i) then 0xFFFD else units[i]
    decreases |units|
  {
    hide Paired, Units;
    if units == [] {
      assert Units([]) == [] by { NoUnits(); }
    } else {
      var n := if IsHigh(units[0]) && |units| >= 2 && IsLow(units[1]) then 2 else 1;
      var rest := units[n..];
      OnlyLoneSurrogatesAreReplaced(rest);
      if n == 2 {
        PairReadsBack(units[0], units[1]);
        UnitsOfFirst(Paired(units[0], units[1]), Characters(rest));
      } else {
        UnitsOfFirst(if IsHigh(units[0]) || IsLow(units[0]) then 0xFFFD else units[0], Characters(rest));
      }
      forall i | n <= i < |units|
        ensures IsLone(units, i) <==> IsLone(rest, i - n)
      {
      }
    }
  }

  lemma NoUnits()
    ensures Units([]) == []
  {
  }

  // ----- sizes -----

  /** UTF-8, section 3 of RFC 3629. */
  function Utf8(c: nat): seq<nat>
  {
    if c < 0x80 then [c]
    else if c < 0x800 then [0xC0 + c / 0x40, 0x80 + c % 0x40]
    else if c < 0x1_0000 then [0xE0 + c / 0x1000, 0x80 + c / 0x40 % 0x40, 0x80 + c % 0x40]
    else [0xF0 + c / 0x4_0000, 0x80 + c / 0x1000 % 0x40, 0x80 + c / 0x40 % 0x40, 0x80 + c % 0x40]
  }

  /** The scalar value that an encoded character denotes. */
  function FromUtf8(bytes: seq<int>): int {
    match |bytes|
    case 1 => bytes[0]
    case 2 => (bytes[0] - 0xC0) * 0x40 + (bytes[1] - 0x80)
    case 3 => ((bytes[0] - 0xE0) * 0x40 + (bytes[1] - 0x80)) * 0x40 + (bytes[2] - 0x80)
    case 4 => (((bytes[0] - 0xF0) * 0x40 + (bytes[1] - 0x80)) * 0x40 + (bytes[2] - 0x80)) * 0x40 + (bytes[3] - 0x80)
    case _ => -1
  }

  /** Each character has its own encoding, of one to four bytes. */
  lemma Utf8ReadsBack(c: nat)
    requires IsScalar(c)
    ensures FromUtf8(Utf8(c)) == c && 1 <= |Utf8(c)| <= 4
    ensures forall i | 0 <= i < |Utf8(c)| :: Utf8(c)[i] < 0x100
  {
    SixBits(c);
  }

  lemma SixBits(c: nat)
    ensures c == c / 0x40 * 0x40 + c % 0x40
    ensures c / 0x40 == c / 0x1000 * 0x40 + c / 0x40 % 0x40
    ensures c / 0x1000 == c / 0x4_0000 * 0x40 + c / 0x1000 % 0x40
  {
    assert c / 0x40 / 0x40 == c / 0x1000;
    assert c / 0x1000 / 0x40 == c / 0x4_0000;
  }

  function Utf8Text(t: Text): seq<nat> {
    if t == [] then [] else Utf8Text(t[..|t| - 1]) + Utf8(t[|t| - 1])
  }

  lemma {:induction false} Utf8Joins(s: Text, t: Text)
    ensures Utf8Text(s + t) == Utf8Text(s) + Utf8Text(t)
    decreases |t|
  {
    hide Utf8;
    if t == [] {
      assert s + t == s;
    } else {
      Utf8Joins(s, t[..|t| - 1]);
      assert (s + t)[..|s + t| - 1] == s + t[..|t| - 1];
    }
  }

  function Hex(d: nat): nat
    requires d < 16
  {
    if d < 10 then 0x30 + d else 0x57 + d
  }

  /** A character inside a JSON string, section 7 of RFC 8259. */
  function Escaped(c: nat): Text {
    if c == 0x22 then [0x5C, 0x22]
    else if c == 0x5C then [0x5C, 0x5C]
    else if c == 0x08 then [0x5C, 0x62]
    else if c == 0x09 then [0x5C, 0x74]
    else if c == 0x0A then [0x5C, 0x6E]
    else if c == 0x0C then [0x5C, 0x66]
    else if c == 0x0D then [0x5C, 0x72]
    else if c < 0x20 then [0x5C, 0x75, 0x30, 0x30, Hex(c / 16), Hex(c % 16)]
    else [c]
  }

  function EscapedText(t: Text): Text {
    if t == [] then [] else EscapedText(t[..|t| - 1]) + Escaped(t[|t| - 1])
  }

  lemma {:induction false} EscapedJoins(s: Text, t: Text)
    ensures EscapedText(s + t) == EscapedText(s) + EscapedText(t)
    decreases |t|
  {
    hide Escaped;
    if t == [] {
      assert s + t == s;
    } else {
      EscapedJoins(s, t[..|t| - 1]);
      assert (s + t)[..|s + t| - 1] == s + t[..|t| - 1];
    }
  }

  function Codes(s: string): Text {
    seq(|s|, i requires 0 <= i < |s| => s[i] as int)
  }

  const PREFIX: Text := Codes("{\"type\":\"input\",\"data\":\"")
  const SUFFIX: Text := Codes("\"}")

  /** JSON.stringify of an input frame. */
  function Frame(data: Text): Text {
    PREFIX + EscapedText(data) + SUFFIX
  }

  const INPUT_FRAME_BYTES := 26

  lemma {:induction false} AsciiBytes(t: Text)
    requires forall i | 0 <= i < |t| :: t[i] < 0x80
    ensures |Utf8Text(t)| == |t|
    decreases |t|
  {
    if t != [] {
      AsciiBytes(t[..|t| - 1]);
    }
  }

  /** The frame's size is the size of an empty one plus that of its escaped data. */
  lemma FrameBytes(data: Text)
    ensures |Utf8Text(Frame(data))| == INPUT_FRAME_BYTES + |Utf8Text(EscapedText(data))|
  {
    Utf8Joins(PREFIX, EscapedText(data));
    Utf8Joins(PREFIX + EscapedText(data), SUFFIX);
    AsciiBytes(PREFIX);
    AsciiBytes(SUFFIX);
  }

  // ----- splitting -----

  datatype Bounds = Bounds(inputBytes: nat, frameBytes: nat)

  /** Within both limits of the server. */
  predicate Fits(data: Text, b: Bounds) {
    |Utf8Text(data)| <= b.inputBytes && INPUT_FRAME_BYTES + |Utf8Text(EscapedText(data))| <= b.frameBytes
  }

  lemma FitsInside(s: Text, t: Text, u: Text, b: Bounds)
    requires Fits(s + t + u, b)
    ensures Fits(t, b)
  {
    Utf8Joins(s + t, u);
    Utf8Joins(s, t);
    EscapedJoins(s + t, u);
    EscapedJoins(s, t);
    Utf8Joins(EscapedText(s + t), EscapedText(u));
    Utf8Joins(EscapedText(s), EscapedText(t));
  }

  /** How far a chunk that starts with k characters is extended. */
  function Reach(text: Text, k: nat, b: Bounds): (r: nat)
    requires 1 <= k <= |text|
    ensures k <= r <= |text|
    decreases |text| - k
  {
    if k < |text| && Fits(text[..k + 1], b) then Reach(text, k + 1, b) else k
  }

  /** Greedy chunks: at least one character each, extended while the chunk fits. */
  function Chunks(text: Text, b: Bounds): seq<Text>
    decreases |text|
  {
    if text == [] then [] else
    var k := Reach(text, 1, b);
    [text[..k]] + Chunks(text[k..], b)
  }

  function Framed(chunks: seq<Text>): seq<Text> {
    seq(|chunks|, i requires 0 <= i < |chunks| => Frame(chunks[i]))
  }

  function Concat(parts: seq<Text>): Text {
    if parts == [] then [] else parts[0] + Concat(parts[1..])
  }

  /** A chunk ends where its next character no longer fits. */
  lemma ChunkEnds(rest: Text, k: nat, b: Bounds)
    requires 1 <= k <= |rest| && Reach(rest, 1, b) == Reach(rest, k, b)
    requires k == |rest| || !Fits(rest[..k + 1], b)
    ensures Chunks(rest, b) == [rest[..k]] + Chunks(rest[k..], b)
  {
    hide Fits;
  }

  lemma ChunkGoesOn(rest: Text, k: nat, b: Bounds)
    requires 1 <= k < |rest| && Fits(rest[..k + 1], b)
    ensures Reach(rest, k, b) == Reach(rest, k + 1, b)
  {
    hide Fits;
  }

  lemma Grouped(done: seq<Text>, chunk: Text, rest: seq<Text>)
    ensures done + ([chunk] + rest) == (done + [chunk]) + rest
  {
  }

  method InputFrames(data: seq<CodeUnit>, b: Bounds) returns (frames: seq<Text>)
    ensures frames == Framed(Chunks(Characters(data), b))
  {
    hide Utf8Text, EscapedText, Frame, Utf8, Escaped, Reach, Chunks, Framed, Characters;
    var text := Characters(data);
    frames := [];
    var chunk: Text := [];
    var dataBytes, frameBytes := 0, INPUT_FRAME_BYTES;
    ghost var done: seq<Text> := [];
    EmptyIsFree();
    NothingFramed();
    assert text[0..] == text;
    for i := 0 to |text|
      invariant |chunk| <= i && chunk == text[i - |chunk|..i]
      invariant i > 0 ==> chunk != []
      invariant dataBytes == |Utf8Text(chunk)| && frameBytes == INPUT_FRAME_BYTES + |Utf8Text(EscapedText(chunk))|
      invariant frames == Framed(done)
      invariant Chunks(text, b) == done + Chunks(text[i - |chunk|..], b)
      invariant chunk != [] ==> Reach(text[i - |chunk|..], 1, b) == Reach(text[i - |chunk|..], |chunk|, b)
    {
      var character := text[i];
      var characterBytes, escapedBytes := |Utf8(character)|, |Utf8Text(Escaped(character))|;
      ghost var rest := text[i - |chunk|..];
      OneMoreCharacter(chunk, character);
      assert chunk + [character] == rest[..|chunk| + 1];
      if chunk != [] && (dataBytes + characterBytes > b.inputBytes || frameBytes + escapedBytes > b.frameBytes) {
        ChunkEnds(rest, |chunk|, b);
        assert rest[..|chunk|] == chunk && rest[|chunk|..] == text[i..];
        Grouped(done, chunk, Chunks(text[i..], b));
        FramedOneMore(done, chunk);
        frames := frames + [Frame(chunk)];
        done := done + [chunk];
        chunk, dataBytes, frameBytes := [], 0, INPUT_FRAME_BYTES;
        OneMoreCharacter([], character);
      } else if chunk != [] {
        ChunkGoesOn(rest, |chunk|, b);
      }
      chunk := chunk + [character];
      dataBytes := dataBytes + characterBytes;
      frameBytes := frameBytes + escapedBytes;
    }
    if chunk != [] {
      ghost var rest := text[|text| - |chunk|..];
      assert rest == chunk;
      ChunkEnds(rest, |chunk|, b);
      assert rest[|chunk|..] == [] && rest[..|chunk|] == chunk;
      FramedOneMore(done, chunk);
      NoChunks(b);
      assert [chunk] + Chunks([], b) == [chunk];
      frames := frames + [Frame(chunk)];
    } else {
      NoChunks(b);
      assert text[|text|..] == [] && done + Chunks([], b) == done;
    }
  }

  lemma NoChunks(b: Bounds)
    ensures Chunks([], b) == []
  {
  }

  lemma NothingFramed()
    ensures Framed([]) == []
  {
  }

  lemma EmptyIsFree()
    ensures Utf8Text([]) == [] && EscapedText([]) == []
  {
  }

  lemma FramedOneMore(done: seq<Text>, chunk: Text)
    ensures Framed(done + [chunk]) == Framed(done) + [Frame(chunk)]
  {
  }

  lemma OneMoreCharacter(chunk: Text, c: nat)
    ensures |Utf8Text(chunk + [c])| == |Utf8Text(chunk)| + |Utf8(c)|
    ensures |Utf8Text(EscapedText(chunk + [c]))| == |Utf8Text(EscapedText(chunk))| + |Utf8Text(Escaped(c))|
  {
    assert (chunk + [c])[..|chunk|] == chunk;
    Utf8Joins(EscapedText(chunk), Escaped(c));
  }

  // ----- lossless -----

  /** The chunks are the text, cut. */
  lemma {:induction false} ChunksAreTheText(text: Text, b: Bounds)
    ensures Concat(Chunks(text, b)) == text
    ensures forall i | 0 <= i < |Chunks(text, b)| :: Chunks(text, b)[i] != []
    decreases |text|
  {
    hide Fits, Reach;
    if text != [] {
      ChunksAreTheText(text[Reach(text, 1, b)..], b);
    }
  }

  /** What the server's JSON parser reads from the inside of a string, up to its end. */
  function Unescaped(t: Text): Option<Text>
    decreases |t|
  {
    if t == [] then Some([])
    else if t[0] == 0x22 || t[0] < 0x20 then None
    else if t[0] != 0x5C then Prepend(t[0], Unescaped(t[1..]))
    else if |t| >= 2 && Simple(t[1]).Some? then Prepend(Simple(t[1]).value, Unescaped(t[2..]))
    else if |t| >= 6 && t[1] == 0x75 && HexValue(t[2..6]).Some? && IsScalar(HexValue(t[2..6]).value)
    then Prepend(HexValue(t[2..6]).value, Unescaped(t[6..]))
    else if |t| >= 12 && EscapedPair(t[..12]).Some?
    then Prepend(EscapedPair(t[..12]).value, Unescaped(t[12..]))
    else None
  }

  function Prepend(c: nat, rest: Option<Text>): Option<Text> {
    if rest.Some? then Some([c] + rest.value) else None
  }

  /** The two-character escapes. */
  function Simple(c: nat): Option<nat> {
    if c == 0x22 || c == 0x5C || c == 0x2F then Some(c)
    else if c == 0x62 then Some(0x08)
    else if c == 0x74 then Some(0x09)
    else if c == 0x6E then Some(0x0A)
    else if c == 0x66 then Some(0x0C)
    else if c == 0x72 then Some(0x0D)
    else None
  }

  function HexDigit(c: nat): Option<nat> {
    if 0x30 <= c <= 0x39 then Some(c - 0x30)
    else if 0x61 <= c <= 0x66 then Some(c - 0x57)
    else if 0x41 <= c <= 0x46 then Some(c - 0x37)
    else None
  }

  function HexValue(t: Text): Option<nat>
    requires |t| == 4
  {
    var a, b, c, d := HexDigit(t[0]), HexDigit(t[1]), HexDigit(t[2]), HexDigit(t[3]);
    if a.Some? && b.Some? && c.Some? && d.Some?
    then Some(((a.value * 16 + b.value) * 16 + c.value) * 16 + d.value) else None
  }

  /** Two escapes that spell a surrogate pair. */
  function EscapedPair(t: Text): (c: Option<nat>)
    requires |t| == 12
    ensures c.Some? ==> 0x1_0000 <= c.value && IsScalar(c.value)
  {
    if t[0] == 0x5C && t[1] == 0x75 && t[6] == 0x5C && t[7] == 0x75 then
      var high, low := HexValue(t[2..6]), HexValue(t[8..12]);
      if high.Some? && low.Some? && 0xD800 <= high.value < 0xDC00 && 0xDC00 <= low.value < 0xE000
      then Some(Paired(high.value, low.value)) else None
    else None
  }

  lemma UnescapesFirst(c: nat, rest: Text)
    requires IsScalar(c)
    ensures Unescaped(Escaped(c) + rest) == Prepend(c, Unescaped(rest))
  {
    var e := Escaped(c);
    assert (e + rest)[|e|..] == rest;
    if |e| == 6 {
      assert (e + rest)[2..6] == e[2..6];
    }
  }

  lemma EscapedFirst(t: Text)
    requires t != []
    ensures EscapedText(t) == Escaped(t[0]) + EscapedText(t[1..])
  {
    hide Escaped;
    EscapedJoins([t[0]], t[1..]);
    assert [t[0]] + t[1..] == t;
    assert [t[0]][..0] == [];
    assert EscapedText([t[0]]) == EscapedText([]) + Escaped(t[0]);
  }

  lemma {:induction false} EscapingReadsBack(t: Text)
    requires AllScalar(t)
    ensures Unescaped(EscapedText(t)) == Some(t)
    decreases |t|
  {
    if t != [] {
      EscapedFirst(t);
      EscapingReadsBack(t[1..]);
      UnescapesFirst(t[0], EscapedText(t[1..]));
      assert [t[0]] + t[1..] == t;
    }
  }

  /** The data of an input frame, as the server reads it. */
  function DataOf(frame: Text): Option<Text> {
    var p, s := |PREFIX|, |SUFFIX|;
    if |frame| >= p + s && frame[..p] == PREFIX && frame[|frame| - s..] == SUFFIX
    then Unescaped(frame[p..|frame| - s]) else None
  }

  /** The server takes the frame as input: both sizes are within its limits. */
  predicate Accepted(frame: Text, b: Bounds) {
    && |Utf8Text(frame)| <= b.frameBytes
    && DataOf(frame).Some? && |Utf8Text(DataOf(frame).value)| <= b.inputBytes
  }

  lemma FrameReadsBack(data: Text)
    requires AllScalar(data)
    ensures DataOf(Frame(data)) == Some(data)
  {
    EscapingReadsBack(data);
    var f := Frame(data);
    assert f[..|PREFIX|] == PREFIX && f[|f| - |SUFFIX|..] == SUFFIX;
    assert f[|PREFIX|..|f| - |SUFFIX|] == EscapedText(data);
  }

  lemma FrameIsAccepted(data: Text, b: Bounds)
    requires AllScalar(data)
    ensures Accepted(Frame(data), b) <==> Fits(data, b)
  {
    FrameReadsBack(data);
    FrameBytes(data);
  }

  lemma {:induction false} PartsAreScalar(parts: seq<Text>, i: nat)
    requires AllScalar(Concat(parts)) && i < |parts|
    ensures AllScalar(parts[i])
    decreases |parts|
  {
    var all := Concat(parts);
    assert all == parts[0] + Concat(parts[1..]);
    if i == 0 {
      assert forall j | 0 <= j < |parts[0]| :: parts[0][j] == all[j];
    } else {
      assert forall j | 0 <= j < |Concat(parts[1..])| :: Concat(parts[1..])[j] == all[|parts[0]| + j];
      PartsAreScalar(parts[1..], i - 1);
    }
  }

  // ----- accepted -----

  lemma {:induction false} ReachFits(text: Text, k: nat, b: Bounds)
    requires 1 <= k <= |text| && Fits(text[..k], b)
    ensures Fits(text[..Reach(text, k, b)], b)
    decreases |text| - k
  {
    if k < |text| && Fits(text[..k + 1], b) {
      ReachFits(text, k + 1, b);
    }
  }

  lemma {:induction false} ChunksFit(text: Text, b: Bounds, i: nat)
    requires i < |Chunks(text, b)| && forall j | 0 <= j < |text| :: Fits([text[j]], b)
    ensures Fits(Chunks(text, b)[i], b)
    decreases |text|
  {
    var k := Reach(text, 1, b);
    if i == 0 {
      assert text[..1] == [text[0]];
      ReachFits(text, 1, b);
    } else {
      ChunksFit(text[k..], b, i - 1);
    }
  }

  lemma {:induction false} CharacterIsInside(parts: seq<Text>, b: Bounds, j: nat)
    requires (forall i | 0 <= i < |parts| :: Fits(parts[i], b)) && j < |Concat(parts)|
    ensures Fits([Concat(parts)[j]], b)
    decreases |parts|
  {
    hide Fits;
    var p := parts[0];
    if j < |p| {
      assert p == p[..j] + [p[j]] + p[j + 1..];
      FitsInside(p[..j], [p[j]], p[j + 1..], b);
    } else {
      CharacterIsInside(parts[1..], b, j - |p|);
    }
  }

  /** All frames are accepted exactly when every character fits a frame of its own. */
  lemma AcceptedIfCharactersFit(data: seq<CodeUnit>, b: Bounds)
    ensures var text, chunks := Characters(data), Chunks(Characters(data), b);
      (forall i | 0 <= i < |chunks| :: Accepted(Framed(chunks)[i], b)) <==> (forall j | 0 <= j < |text| :: Fits([text[j]], b))
  {
    hide Accepted, Fits, Frame;
    var text := Characters(data);
    var chunks := Chunks(text, b);
    ChunksAreTheText(text, b);
    forall i | 0 <= i < |chunks|
      ensures Framed(chunks)[i] == Frame(chunks[i]) && (Accepted(Frame(chunks[i]), b) <==> Fits(chunks[i], b))
    {
      PartsAreScalar(chunks, i);
      FrameIsAccepted(chunks[i], b);
    }
    if forall j | 0 <= j < |text| :: Fits([text[j]], b) {
      forall i | 0 <= i < |chunks|
        ensures Fits(chunks[i], b)
      {
        ChunksFit(text, b, i);
      }
    }
    if forall i | 0 <= i < |chunks| :: Accepted(Framed(chunks)[i], b) {
      assert forall i | 0 <= i < |chunks| :: Fits(chunks[i], b) by {
        forall i | 0 <= i < |chunks|
          ensures Fits(chunks[i], b)
        {
          assert Accepted(Framed(chunks)[i], b);
        }
      }
      forall j | 0 <= j < |text|
        ensures Fits([text[j]], b)
      {
        CharacterIsInside(chunks, b, j);
      }
    }
  }

  /** Four input bytes and thirty-two frame bytes are enough for any character. */
  lemma AnyCharacterFits(c: nat, b: Bounds)
    requires b.inputBytes >= 4 && b.frameBytes >= 32
    ensures Fits([c], b)
  {
    hide Utf8, Escaped, Utf8Text, EscapedText;
    EmptyIsFree();
    OneMoreCharacter([], c);
    assert [] + [c] == [c];
    Utf8IsShort(c);
    EscapeIsShort(c);
  }

  lemma Utf8IsShort(c: nat)
    ensures |Utf8(c)| <= 4
  {
  }

  lemma EscapeIsShort(c: nat)
    ensures |Utf8Text(Escaped(c))| <= 6
  {
    hide Utf8, Utf8Text;
    if c < 0x80 {
      AsciiBytes(Escaped(c));
    } else {
      SingleCharacter(c);
      Utf8IsShort(c);
    }
  }

  lemma SingleCharacter(c: nat)
    ensures Utf8Text([c]) == Utf8(c)
  {
    hide Utf8;
    assert [c][..0] == [];
    assert Utf8Text([c]) == Utf8Text([]) + Utf8(c);
  }

  /** Under those bounds the frames are accepted, and their data is the well-formed text. */
  lemma FramesAreLosslessAndAccepted(data: seq<CodeUnit>, b: Bounds)
    requires b.inputBytes >= 4 && b.frameBytes >= 32
    ensures var chunks := Chunks(Characters(data), b);
      && Concat(chunks) == Characters(data)
      && (forall i | 0 <= i < |chunks| :: Accepted(Framed(chunks)[i], b) && DataOf(Framed(chunks)[i]) == Some(chunks[i]))
  {
    hide Accepted, Fits, Frame, DataOf;
    var text := Characters(data);
    var chunks := Chunks(text, b);
    ChunksAreTheText(text, b);
    AcceptedIfCharactersFit(data, b);
    forall j | 0 <= j < |text|
      ensures Fits([text[j]], b)
    {
      AnyCharacterFits(text[j], b);
    }
    forall i | 0 <= i < |chunks|
      ensures DataOf(Framed(chunks)[i]) == Some(chunks[i])
    {
      PartsAreScalar(chunks, i);
      FrameReadsBack(chunks[i]);
    }
  }

  // ----- minimal -----

  ghost predicate AllFit(parts: seq<Text>, b: Bounds) {
    forall i | 0 <= i < |parts| :: Fits(parts[i], b)
  }

  /** The same parts, with the first j characters dropped. */
  ghost function Dropped(parts: seq<Text>, j: nat): seq<Text>
    requires j <= |Concat(parts)|
    decreases |parts|
  {
    if parts == [] then []
    else if j <= |parts[0]| then [parts[0][j..]] + parts[1..]
    else [[]] + Dropped(parts[1..], j - |parts[0]|)
  }

  lemma SuffixFits(p: Text, j: nat, b: Bounds)
    requires Fits(p, b) && j <= |p|
    ensures Fits(p[j..], b) && Fits([], b)
  {
    hide Fits;
    assert p == p[..j] + p[j..] + [] && p == [] + [] + p;
    FitsInside(p[..j], p[j..], [], b);
    FitsInside([], [], p, b);
  }

  lemma {:induction false} DroppedSplits(parts: seq<Text>, j: nat, b: Bounds)
    requires AllFit(parts, b) && j <= |Concat(parts)|
    ensures |Dropped(parts, j)| == |parts| && AllFit(Dropped(parts, j), b) && Concat(Dropped(parts, j)) == Concat(parts)[j..]
    decreases |parts|
  {
    hide Fits;
    if parts != [] {
      var p := parts[0];
      if j <= |p| {
        SuffixFits(p, j, b);
        assert Dropped(parts, j)[1..] == parts[1..];
        assert Concat(parts)[j..] == p[j..] + Concat(parts[1..]);
      } else {
        SuffixFits(p, 0, b);
        DroppedSplits(parts[1..], j - |p|, b);
        assert Dropped(parts, j)[1..] == Dropped(parts[1..], j - |p|);
        assert Concat(parts)[j..] == Concat(parts[1..])[j - |p|..];
      }
    }
  }

  /** A greedy chunk reaches at least as far as any fitting prefix. */
  lemma {:induction false} ReachIsFarthest(text: Text, k: nat, n: nat, b: Bounds)
    requires 1 <= k <= n <= |text| && Fits(text[..n], b)
    ensures Reach(text, k, b) >= n
    decreases n - k
  {
    hide Fits;
    if k < n {
      assert text[..n] == [] + text[..k + 1] + text[k + 1..n];
      FitsInside([], text[..k + 1], text[k + 1..n], b);
      ReachIsFarthest(text, k + 1, n, b);
    }
  }

  lemma FirstPart(parts: seq<Text>, b: Bounds)
    requires parts != [] && AllFit(parts, b)
    ensures Fits(parts[0], b) && AllFit(parts[1..], b)
    ensures var p, text := parts[0], Concat(parts);
      |p| <= |text| && text[..|p|] == p && text[|p|..] == Concat(parts[1..])
  {
    hide Fits;
  }

  /** No split of the text into fitting parts has fewer of them. */
  lemma {:induction false} ChunksAreFewest(text: Text, b: Bounds, parts: seq<Text>)
    requires Concat(parts) == text && AllFit(parts, b)
    ensures |Chunks(text, b)| <= |parts|
    decreases |parts|
  {
    hide Fits, Reach, Dropped, AllFit;
    if text != [] {
      var p, k := parts[0], Reach(text, 1, b);
      var rest := parts[1..];
      FirstPart(parts, b);
      if p == [] {
        ChunksAreFewest(text, b, rest);
      } else {
        ReachIsFarthest(text, 1, |p|, b);
        DroppedSplits(rest, k - |p|, b);
        assert Concat(rest)[k - |p|..] == text[k..];
        ChunksAreFewest(text[k..], b, Dropped(rest, k - |p|));
      }
    }
  }

  // ----- no spelling does better -----

  lemma AtLeastOneByte(t: Text)
    ensures |t| <= |Utf8Text(t)|
    decreases |t|
  {
    hide Utf8;
    if t != [] {
      Utf8IsNotEmpty(t[|t| - 1]);
      AtLeastOneByte(t[..|t| - 1]);
    }
  }

  lemma Utf8IsNotEmpty(c: nat)
    ensures |Utf8(c)| >= 1
  {
  }

  /** One character's spelling at the start of a string, and the printed one is no longer. */
  lemma PrintedIsShortest(c: nat, spelling: Text)
    requires (spelling == [c] && c >= 0x20 && c != 0x22 && c != 0x5C) || |spelling| >= 6
      || (|spelling| == 2 && Simple(spelling[1]) == Some(c))
    ensures |Utf8Text(Escaped(c))| <= |Utf8Text(spelling)|
  {
    hide Utf8, Utf8Text;
    AtLeastOneByte(spelling);
    EscapeIsShort(c);
    if |spelling| == 2 {
      AsciiBytes(Escaped(c));
    }
  }

  lemma SpelledFirst(c: nat, d: Text, spelling: Text, rest: Text)
    requires |Utf8Text(Escaped(c))| <= |Utf8Text(spelling)| && |Utf8Text(EscapedText(d))| <= |Utf8Text(rest)|
    ensures |Utf8Text(EscapedText([c] + d))| <= |Utf8Text(spelling + rest)|
  {
    hide Utf8Text, Escaped, EscapedText;
    EscapedFirst([c] + d);
    assert ([c] + d)[1..] == d;
    Utf8Joins(Escaped(c), EscapedText(d));
    Utf8Joins(spelling, rest);
  }

  /** However a string is spelled, its printed spelling takes no more bytes. */
  lemma {:induction false} PrintingIsShortest(t: Text)
    requires Unescaped(t).Some?
    ensures |Utf8Text(EscapedText(Unescaped(t).value))| <= |Utf8Text(t)|
    decreases |t|
  {
    hide Utf8Text, Escaped, EscapedText, Simple, HexValue, EscapedPair;
    if t == [] {
      EmptyIsFree();
    } else {
      var n := if t[0] != 0x5C then 1 else if |t| >= 2 && Simple(t[1]).Some? then 2
               else if |t| >= 6 && t[1] == 0x75 && HexValue(t[2..6]).Some? && IsScalar(HexValue(t[2..6]).value) then 6
               else 12;
      var d := Unescaped(t[n..]);
      PrintingIsShortest(t[n..]);
      var c := Unescaped(t).value[0];
      assert Unescaped(t).value == [c] + d.value;
      PrintedIsShortest(c, t[..n]);
      SpelledFirst(c, d.value, t[..n], t[n..]);
      assert t[..n] + t[n..] == t;
    }
  }

  lemma AcceptedDataFits(frame: Text, b: Bounds)
    requires Accepted(frame, b)
    ensures DataOf(frame).Some? && Fits(DataOf(frame).value, b)
  {
    hide Utf8Text, EscapedText, Unescaped;
    var p, s := |PREFIX|, |SUFFIX|;
    var inside := frame[p..|frame| - s];
    assert frame == PREFIX + inside + SUFFIX;
    Utf8Joins(PREFIX, inside);
    Utf8Joins(PREFIX + inside, SUFFIX);
    AsciiBytes(PREFIX);
    AsciiBytes(SUFFIX);
    PrintingIsShortest(inside);
  }

  ghost predicate AllAccepted(frames: seq<Text>, b: Bounds) {
    forall i | 0 <= i < |frames| :: Accepted(frames[i], b)
  }

  ghost function DataOfAll(frames: seq<Text>, b: Bounds): (parts: seq<Text>)
    requires AllAccepted(frames, b)
    ensures |parts| == |frames|
  {
    seq(|frames|, i requires 0 <= i < |frames| => DataOf(frames[i]).value)
  }

  /** No frames that the server accepts, however their data is spelled, carry the text in
      fewer of them. */
  lemma FramesAreFewest(data: seq<CodeUnit>, b: Bounds, frames: seq<Text>)
    requires AllAccepted(frames, b) && Concat(DataOfAll(frames, b)) == Characters(data)
    ensures |Framed(Chunks(Characters(data), b))| <= |frames|
  {
    hide Accepted, Fits, DataOf;
    var parts := DataOfAll(frames, b);
    forall i | 0 <= i < |parts|
      ensures Fits(parts[i], b)
    {
      AcceptedDataFits(frames[i], b);
      assert parts[i] == DataOf(frames[i]).value;
    }
    ChunksAreFewest(Characters(data), b, parts);
  }
}
