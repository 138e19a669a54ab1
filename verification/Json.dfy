/** Flat JSON objects of plain strings and integers, printed canonically (RFC 8259). */
module Json {
  import opened Records
  import opened Decimals

  datatype Value = Text(text: string) | Number(number: int)

  datatype Field = Field(name: string, value: Value)

  /** Printable ASCII that needs no escape. */
  predicate IsPlain(s: string) {
    forall i | 0 <= i < |s| :: ' ' <= s[i] <= '~' && s[i] != '"' && s[i] != '\\'
  }

  function PrintInt(n: int): string {
    if n < 0 then "-" + Print(-n) else Print(n)
  }

  function PrintValue(v: Value): string {
    match v
    case Text(s) => "\"" + s + "\""
    case Number(n) => PrintInt(n)
  }

  function PrintField(f: Field): string {
    "\"" + f.name + "\":" + PrintValue(f.value)
  }

  function PrintFields(fields: seq<Field>): string
    requires fields != []
  {
    if |fields| == 1 then PrintField(fields[0]) else PrintField(fields[0]) + "," + PrintFields(fields[1..])
  }

  /** No spaces; the caller sorts the names. */
  function PrintObject(fields: seq<Field>): string
    requires fields != []
  {
    "{" + PrintFields(fields) + "}"
  }

  // ----- reading -----

  datatype Scan<T> = Scan(value: T, rest: string)

  /** The characters up to the closing quote. */
  function ScanString(s: string): Option<Scan<string>>
    decreases |s|
  {
    if s == [] || s[0] == '\\' || s[0] < ' ' || s[0] > '~' then None
    else if s[0] == '"' then Some(Scan([], s[1..]))
    else
      var tail := ScanString(s[1..]);
      if tail.Some? then Some(Scan([s[0]] + tail.value.value, tail.value.rest)) else None
  }

  /** The digits at the start. */
  function DigitsOf(s: string): (d: string)
    ensures AllDigits(d) && |d| <= |s| && s[..|d|] == d && (|d| == |s| || !IsDigit(s[|d|]))
  {
    if s == [] || !IsDigit(s[0]) then [] else [s[0]] + DigitsOf(s[1..])
  }

  /** An integer without superfluous zeros. */
  function ScanInt(s: string): Option<Scan<int>> {
    var negative := s != [] && s[0] == '-';
    var t := if negative then s[1..] else s;
    var digits := DigitsOf(t);
    if digits == [] || (digits[0] == '0' && |digits| > 1) then None
    else
      var n: int := ValueOf(digits);
      Some(Scan(if negative then -n else n, t[|digits|..]))
  }

  function ScanValue(s: string): (v: Option<Scan<Value>>) {
    if s != [] && s[0] == '"' then
      var text := ScanString(s[1..]);
      if text.Some? then Some(Scan(Text(text.value.value), text.value.rest)) else None
    else
      var number := ScanInt(s);
      if number.Some? then Some(Scan(Number(number.value.value), number.value.rest)) else None
  }

  function ScanField(s: string): Option<Scan<Field>> {
    if s == [] || s[0] != '"' then None else
    var name := ScanString(s[1..]);
    if name.None? || name.value.rest == [] || name.value.rest[0] != ':' then None
    else
      var value := ScanValue(name.value.rest[1..]);
      if value.None? then None else Some(Scan(Field(name.value.value, value.value.value), value.value.rest))
  }

  lemma {:induction false} StringLeavesLess(s: string)
    ensures ScanString(s).Some? ==> |ScanString(s).value.rest| < |s|
    decreases |s|
  {
    if s != [] {
      StringLeavesLess(s[1..]);
    }
  }

  lemma FieldLeavesLess(s: string)
    ensures ScanField(s).Some? ==> |ScanField(s).value.rest| < |s|
  {
    if s != [] && s[0] == '"' && ScanString(s[1..]).Some? {
      StringLeavesLess(s[1..]);
      var rest := ScanString(s[1..]).value.rest;
      if rest != [] {
        var t := rest[1..];
        if t != [] && t[0] == '"' {
          StringLeavesLess(t[1..]);
        }
      }
    }
  }

  /** Fields up to the closing brace; a repeated name takes its last value. */
  function ReadFields(s: string, sofar: map<string, Value>): Option<map<string, Value>>
    decreases |s|
  {
    FieldLeavesLess(s);
    var field := ScanField(s);
    if field.None? || field.value.rest == [] then None
    else
      var f, rest := field.value.value, field.value.rest;
      var more := sofar[f.name := f.value];
      if rest == "}" then Some(more)
      else if rest[0] == ',' then ReadFields(rest[1..], more)
      else None
  }

  function ReadObject(s: string): Option<map<string, Value>> {
    if s == "{}" then Some(map[])
    else if s != [] && s[0] == '{' then ReadFields(s[1..], map[])
    else None
  }

  // ----- printing reads back -----

  lemma {:induction false} StringReadsBack(s: string, rest: string)
    requires IsPlain(s)
    ensures ScanString(s + "\"" + rest) == Some(Scan(s, rest))
    decreases |s|
  {
    var all := s + "\"" + rest;
    if s == [] {
      assert all[0] == '"' && all[1..] == rest;
    } else {
      StringReadsBack(s[1..], rest);
      assert all[1..] == s[1..] + "\"" + rest;
      assert [s[0]] + s[1..] == s;
    }
  }

  lemma {:induction false} DigitsReadBack(d: string, rest: string)
    requires AllDigits(d) && (rest == [] || !IsDigit(rest[0]))
    ensures DigitsOf(d + rest) == d
    decreases |d|
  {
    if d == [] {
      assert d + rest == rest;
    } else {
      DigitsReadBack(d[1..], rest);
      var all := d + rest;
      assert all[0] == d[0] && all[1..] == d[1..] + rest;
      assert [d[0]] + d[1..] == d;
    }
  }

  lemma NatReadsBack(n: nat, rest: string)
    requires rest == [] || !IsDigit(rest[0])
    ensures DigitsOf(Print(n) + rest) == Print(n) && Print(n) != [] && IsDigit(Print(n)[0])
    ensures (Print(n) + rest)[|Print(n)|..] == rest
    ensures ValueOf(Print(n)) == n && (Print(n)[0] == '0' ==> |Print(n)| == 1)
  {
    hide Print, ValueOf, DigitsOf;
    PrintReadsBack(n);
    DigitsReadBack(Print(n), rest);
  }

  lemma IntReadsBack(n: int, rest: string)
    requires rest == [] || !IsDigit(rest[0])
    ensures PrintInt(n) != [] && PrintInt(n)[0] != '"' && ScanInt(PrintInt(n) + rest) == Some(Scan(n, rest))
  {
    hide Print, ValueOf, DigitsOf;
    var d := Print(if n < 0 then -n else n);
    NatReadsBack(if n < 0 then -n else n, rest);
    var s := PrintInt(n) + rest;
    if n < 0 {
      assert s[0] == '-' && s[1..] == d + rest;
    } else {
      assert s == d + rest;
      assert s[0] == d[0];
    }
  }

  predicate FieldIsPlain(f: Field) {
    IsPlain(f.name) && (f.value.Text? ==> IsPlain(f.value.text))
  }

  lemma TextReadsBack(text: string, rest: string)
    requires IsPlain(text)
    ensures ScanValue("\"" + text + "\"" + rest) == Some(Scan(Text(text), rest))
  {
    hide ScanInt, ScanString, IsPlain;
    var s := "\"" + text + "\"" + rest;
    StringReadsBack(text, rest);
    assert s[0] == '"' && s[1..] == text + "\"" + rest;
  }

  lemma NumberReadsBack(n: int, rest: string)
    requires rest == [] || !IsDigit(rest[0])
    ensures ScanValue(PrintInt(n) + rest) == Some(Scan(Number(n), rest))
  {
    hide ScanInt, ScanString, PrintInt;
    IntReadsBack(n, rest);
  }

  lemma ValueReadsBack(v: Value, rest: string)
    requires (v.Text? ==> IsPlain(v.text)) && (rest == [] || !IsDigit(rest[0]))
    ensures ScanValue(PrintValue(v) + rest) == Some(Scan(v, rest))
  {
    hide ScanValue, IsPlain, PrintInt;
    match v
    case Text(text) => TextReadsBack(text, rest);
    case Number(n) => NumberReadsBack(n, rest);
  }

  lemma FieldReadsBack(f: Field, rest: string)
    requires FieldIsPlain(f) && (rest == [] || !IsDigit(rest[0]))
    ensures ScanField(PrintField(f) + rest) == Some(Scan(f, rest))
  {
    hide ScanString, ScanValue, PrintValue, IsPlain;
    var s := PrintField(f) + rest;
    var tail := ":" + PrintValue(f.value) + rest;
    StringReadsBack(f.name, tail);
    assert s[1..] == f.name + "\"" + tail;
    assert tail[1..] == PrintValue(f.value) + rest;
    ValueReadsBack(f.value, rest);
  }

  /** The mapping of a list of fields. */
  function Mapping(fields: seq<Field>, sofar: map<string, Value>): map<string, Value>
    decreases |fields|
  {
    if fields == [] then sofar else Mapping(fields[1..], sofar[fields[0].name := fields[0].value])
  }

  lemma {:induction false} FieldsReadBack(fields: seq<Field>, sofar: map<string, Value>)
    requires fields != [] && forall i | 0 <= i < |fields| :: FieldIsPlain(fields[i])
    ensures ReadFields(PrintFields(fields) + "}", sofar) == Some(Mapping(fields, sofar))
    decreases |fields|
  {
    hide ScanField, PrintField, FieldIsPlain;
    var f := fields[0];
    var s := PrintFields(fields) + "}";
    var more := sofar[f.name := f.value];
    if |fields| == 1 {
      FieldReadsBack(f, "}");
      assert Mapping(fields[1..], more) == more;
    } else {
      var rest := "," + PrintFields(fields[1..]) + "}";
      FieldReadsBack(f, rest);
      assert s == PrintField(f) + rest;
      assert rest[1..] == PrintFields(fields[1..]) + "}";
      FieldsReadBack(fields[1..], more);
    }
  }

  /** A printed object reads back as its mapping. */
  lemma ObjectReadsBack(fields: seq<Field>)
    requires fields != [] && forall i | 0 <= i < |fields| :: FieldIsPlain(fields[i])
    ensures ReadObject(PrintObject(fields)) == Some(Mapping(fields, map[]))
  {
    hide PrintFields, ReadFields, FieldIsPlain;
    var s := PrintObject(fields);
    FieldsReadBack(fields, map[]);
    assert s[1..] == PrintFields(fields) + "}";
    PrintedIsSome(fields);
  }

  lemma PrintedIsSome(fields: seq<Field>)
    requires fields != []
    ensures |PrintFields(fields)| >= 2
  {
  }
}
