/** CPU limits: exact conversion of a decimal to nanocpus, and its canonical text. */
module Cpu {
  import opened Records
  import opened Decimals

  /** Python's Decimal as its sign, digit tuple and exponent. */
  datatype Number = NotFinite | Finite(negative: bool, digits: seq<int>, exponent: int)

  /** Decimals have at least one digit, and no leading zero but in zero itself. */
  predicate IsCanonical(d: Number) {
    d.Finite? ==>
      && |d.digits| >= 1 && (forall i | 0 <= i < |d.digits| :: 0 <= d.digits[i] < 10)
      && (|d.digits| > 1 ==> d.digits[0] != 0)
  }

  type Decimal = d: Number | IsCanonical(d) witness NotFinite

  const LEAST := 10_000_000
  const MOST := 9_223_372_036_854_775_807

  ghost function Coefficient(digits: seq<int>): nat
    requires forall i | 0 <= i < |digits| :: 0 <= digits[i] < 10
  {
    if digits == [] then 0 else 10 * Coefficient(digits[..|digits| - 1]) + digits[|digits| - 1]
  }

  /** The decimal times 10^9 is the integer n. */
  ghost predicate Denotes(d: Decimal, n: nat) {
    && d.Finite? && !d.negative
    && var shift := d.exponent + 9;
    if shift >= 0 then Coefficient(d.digits) * Pow10(shift) == n
    else Coefficient(d.digits) == n * Pow10(-shift)
  }

  lemma Regroup(a: int, b: int, c: int)
    ensures (a * b) * c == a * (b * c)
  {
  }

  lemma Cancel(x: int, y: int, p: int)
    requires p >= 1 && x * p == y * p
    ensures x == y
  {
  }

  lemma Multiply(x: int, y: int, p: int, q: int)
    requires 0 <= p <= x && 0 <= q <= y
    ensures p * q <= x * y
  {
  }

  lemma {:induction false} TrailingZeros(digits: seq<int>, k: nat)
    requires k <= |digits| && (forall i | 0 <= i < |digits| :: 0 <= digits[i] < 10)
    requires forall i | k <= i < |digits| :: digits[i] == 0
    ensures Coefficient(digits) == Coefficient(digits[..k]) * Pow10(|digits| - k)
    decreases |digits| - k
  {
    if k == |digits| {
      assert digits[..k] == digits;
    } else {
      TrailingZeros(digits, k + 1);
      assert digits[..k + 1][..k] == digits[..k];
      Regroup(Coefficient(digits[..k]), 10, Pow10(|digits| - k - 1));
    }
  }

  lemma {:induction false} LeadingDigit(digits: seq<int>)
    requires |digits| >= 1 && digits[0] != 0 && (forall i | 0 <= i < |digits| :: 0 <= digits[i] < 10)
    ensures Coefficient(digits) >= Pow10(|digits| - 1)
    decreases |digits|
  {
    var rest := digits[..|digits| - 1];
    if |digits| > 1 {
      LeadingDigit(rest);
    } else {
      assert rest == [];
    }
  }

  /** A decimal whose significant digits are the first k, with their own exponent. */
  ghost predicate Significant(d: Decimal, k: nat, exponent: int) {
    && d.Finite? && !d.negative && k <= |d.digits|
    && exponent == d.exponent + |d.digits| - k
    && (forall i | k <= i < |d.digits| :: d.digits[i] == 0)
  }

  lemma DenotesShifted(d: Decimal, k: nat, exponent: int, n: nat)
    requires Significant(d, k, exponent) && exponent + 9 >= 0
    ensures Denotes(d, n) <==> n == Coefficient(d.digits[..k]) * Pow10(exponent + 9)
  {
    hide Pow10, Coefficient;
    var c, zeros, shift := Coefficient(d.digits[..k]), |d.digits| - k, exponent + 9;
    TrailingZeros(d.digits, k);
    if d.exponent + 9 >= 0 {
      PowAdds(zeros, d.exponent + 9);
      Regroup(c, Pow10(zeros), Pow10(d.exponent + 9));
    } else {
      var lack := -(d.exponent + 9);
      PowAdds(shift, lack);
      Regroup(c, Pow10(shift), Pow10(lack));
      if Denotes(d, n) {
        Cancel(n, c * Pow10(shift), Pow10(lack));
      }
    }
  }

  /** Below nine decimals a last digit is lost: no integer is denoted. */
  lemma DenotesNothing(d: Decimal, k: nat, exponent: int, n: nat)
    requires Significant(d, k, exponent) && exponent + 9 < 0 && k > 0 && d.digits[k - 1] != 0
    ensures !Denotes(d, n)
  {
    var c, zeros, lack := Coefficient(d.digits[..k]), |d.digits| - k, -(exponent + 9);
    TrailingZeros(d.digits, k);
    LastDigit(d.digits, k);
    PowOfTen(lack, n);
    hide Pow10, Coefficient;
    if Denotes(d, n) {
      PowAdds(lack, zeros);
      Regroup(n, Pow10(lack), Pow10(zeros));
      Cancel(c, n * Pow10(lack), Pow10(zeros));
      assert false;
    }
  }

  lemma LastDigit(digits: seq<int>, k: nat)
    requires 0 < k <= |digits| && (forall i | 0 <= i < |digits| :: 0 <= digits[i] < 10) && digits[k - 1] != 0
    ensures Coefficient(digits[..k]) % 10 != 0
  {
    assert Coefficient(digits[..k]) == 10 * Coefficient(digits[..k][..k - 1]) + digits[k - 1];
  }

  lemma PowOfTen(k: nat, n: nat)
    requires k > 0
    ensures (n * Pow10(k)) % 10 == 0
  {
    var p := Pow10(k - 1);
    Regroup(n, p, 10);
    assert Pow10(k) == p * 10;
    assert n * Pow10(k) == (n * p) * 10;
  }

  /** More than nineteen digits before the unit nanocpu exceed the range. */
  lemma DenotesTooMuch(d: Decimal, k: nat, exponent: int, n: nat)
    requires Significant(d, k, exponent) && exponent + 9 >= 0 && k > 0 && k + exponent + 9 > 19
    requires d.digits[0] != 0 && Denotes(d, n)
    ensures n > MOST
  {
    hide Pow10, Coefficient;
    DenotesShifted(d, k, exponent, n);
    LeadingDigit(d.digits[..k]);
    PowAdds(k - 1, exponent + 9);
    PowGrows(19, k - 1 + exponent + 9);
    Nineteen();
    Multiply(Coefficient(d.digits[..k]), Pow10(exponent + 9), Pow10(k - 1), Pow10(exponent + 9));
  }

  lemma Nineteen()
    ensures Pow10(19) > MOST
  {
    assert Pow10(5) == 100_000;
    assert Pow10(10) == 10_000_000_000;
    assert Pow10(15) == 1_000_000_000_000_000;
  }

  lemma OneMoreDigit(digits: seq<int>, i: nat)
    requires i < |digits| && (forall j | 0 <= j < |digits| :: 0 <= digits[j] < 10)
    ensures Coefficient(digits[..i + 1]) == Coefficient(digits[..i]) * 10 + digits[i]
  {
    assert digits[..i + 1][..i] == digits[..i];
  }

  lemma OneMorePower(c: nat, k: nat)
    ensures c * Pow10(k + 1) == c * Pow10(k) * 10
    ensures c * Pow10(0) == c
  {
    Regroup(c, Pow10(k), 10);
  }

  /** The result is the one integer in range that the decimal denotes, if there is one. */
  method Nanocpus(value: Decimal) returns (r: Option<nat>)
    ensures forall n: nat :: r == Some(n) <==> Denotes(value, n) && LEAST <= n <= MOST
  {
    hide Pow10, Coefficient, Denotes;
    if value.NotFinite? || value.negative {
      Unsigned(value);
      return None;
    }
    var digits, exponent := value.digits, value.exponent;
    var significant := |digits|;
    while significant > 0 && digits[significant - 1] == 0
      invariant 0 <= significant <= |digits| && Significant(value, significant, exponent)
    {
      significant := significant - 1;
      exponent := exponent + 1;
    }
    var shift := exponent + 9;
    if significant == 0 || shift < 0 || significant + shift > 19 {
      NothingInRange(value, significant, exponent);
      return None;
    }
    var nanocpus: nat := 0;
    NoDigits(digits);
    for i := 0 to significant
      invariant nanocpus == Coefficient(digits[..i])
    {
      OneMoreDigit(digits, i);
      nanocpus := nanocpus * 10 + digits[i];
    }
    ghost var coefficient := nanocpus;
    OneMorePower(coefficient, 0);
    for i := 0 to shift
      invariant nanocpus == coefficient * Pow10(i)
    {
      OneMorePower(coefficient, i);
      nanocpus := nanocpus * 10;
    }
    forall n: nat
      ensures Denotes(value, n) <==> n == nanocpus
    {
      DenotesShifted(value, significant, exponent, n);
    }
    r := if LEAST <= nanocpus <= MOST then Some(nanocpus) else None;
  }

  lemma Unsigned(d: Decimal)
    requires d.NotFinite? || d.negative
    ensures forall n: nat :: !Denotes(d, n)
  {
  }

  lemma NoDigits(digits: seq<int>)
    requires forall i | 0 <= i < |digits| :: 0 <= digits[i] < 10
    ensures Coefficient(digits[..0]) == 0
  {
  }

  lemma NothingInRange(d: Decimal, k: nat, exponent: int)
    requires Significant(d, k, exponent) && (k > 0 ==> d.digits[k - 1] != 0)
    requires k == 0 || exponent + 9 < 0 || k + exponent + 9 > 19
    ensures forall n: nat :: !(Denotes(d, n) && LEAST <= n <= MOST)
  {
    forall n: nat | Denotes(d, n) && LEAST <= n <= MOST
      ensures false
    {
      if k == 0 {
        ZeroDenotesZero(d, n);
      } else if exponent + 9 < 0 {
        DenotesNothing(d, k, exponent, n);
      } else {
        DenotesTooMuch(d, k, exponent, n);
      }
    }
  }

  lemma ZeroDenotesZero(d: Decimal, n: nat)
    requires Denotes(d, n) && Significant(d, 0, d.exponent + |d.digits|)
    ensures n == 0
  {
    TrailingZeros(d.digits, 0);
    assert Coefficient(d.digits) == 0;
    if d.exponent + 9 < 0 && n > 0 {
      Multiply(n, Pow10(-(d.exponent + 9)), 1, 1);
    }
  }

  /** Two decimals are numerically equal. */
  ghost predicate SameNumber(d: Decimal, e: Decimal) {
    && d.Finite? && e.Finite? && d.negative == e.negative
    && if d.exponent >= e.exponent then Coefficient(d.digits) * Pow10(d.exponent - e.exponent) == Coefficient(e.digits)
       else Coefficient(d.digits) == Coefficient(e.digits) * Pow10(e.exponent - d.exponent)
  }

  lemma SameNumberDenotes(d: Decimal, e: Decimal, n: nat)
    requires SameNumber(d, e) && d.exponent >= e.exponent
    ensures Denotes(d, n) <==> Denotes(e, n)
  {
    hide Pow10, Coefficient;
    var gap, c := d.exponent - e.exponent, Coefficient(d.digits);
    if e.exponent + 9 >= 0 {
      PowAdds(gap, e.exponent + 9);
      Regroup(c, Pow10(gap), Pow10(e.exponent + 9));
    } else if d.exponent + 9 >= 0 {
      var lack := -(e.exponent + 9);
      PowAdds(d.exponent + 9, lack);
      Regroup(c, Pow10(d.exponent + 9), Pow10(lack));
      if Denotes(e, n) {
        Cancel(c * Pow10(d.exponent + 9), n, Pow10(lack));
      }
    } else {
      PowAdds(-(d.exponent + 9), gap);
      Regroup(n, Pow10(-(d.exponent + 9)), Pow10(gap));
      if Denotes(e, n) {
        Cancel(c, n * Pow10(-(d.exponent + 9)), Pow10(gap));
      }
    }
  }

  /** Numerically equal decimals denote the same nanocpus, so they print the same text. */
  lemma EqualDecimalsAgree(d: Decimal, e: Decimal, n: nat)
    requires SameNumber(d, e)
    ensures Denotes(d, n) <==> Denotes(e, n)
  {
    if d.exponent >= e.exponent {
      SameNumberDenotes(d, e, n);
    } else {
      SameNumberDenotes(e, d, n);
    }
  }

  // ----- the argument text -----

  function Zeros(k: nat): (s: string)
    ensures |s| == k && AllDigits(s) && forall i | 0 <= i < k :: s[i] == '0'
  {
    seq(k, _ => '0')
  }

  /** Python's rstrip("0"). */
  function WithoutTrailingZeros(s: string): string {
    if s == [] || s[|s| - 1] != '0' then s else WithoutTrailingZeros(s[..|s| - 1])
  }

  /** A nine-digit fraction. */
  function Padded(f: nat): string {
    var s := Print(f);
    if |s| >= 9 then s else Zeros(9 - |s|) + s
  }

  function Argument(n: nat): string {
    if n % 1_000_000_000 == 0 then Print(n / 1_000_000_000)
    else Print(n / 1_000_000_000) + "." + WithoutTrailingZeros(Padded(n % 1_000_000_000))
  }

  /** The nanocpus that a decimal text with at most nine decimals denotes. */
  function Read(text: string): Option<nat> {
    if '.' !in text then
      if text != [] && AllDigits(text) then Some(ValueOf(text) * 1_000_000_000) else None
    else
      var i := PointIn(text);
      var whole, fraction := text[..i], text[i + 1..];
      if whole != [] && fraction != [] && AllDigits(whole) && AllDigits(fraction) && |fraction| <= 9
      then Some(ValueOf(whole) * 1_000_000_000 + ValueOf(fraction) * Pow10(9 - |fraction|))
      else None
  }

  /** The first point. */
  function PointIn(text: string): (i: nat)
    requires '.' in text
    ensures i < |text| && text[i] == '.' && forall j | 0 <= j < i :: text[j] != '.'
  {
    if text[0] == '.' then 0 else 1 + PointIn(text[1..])
  }

  lemma {:induction false} ZerosAreNothing(k: nat)
    ensures ValueOf(Zeros(k)) == 0
    decreases k
  {
    if k > 0 {
      assert Zeros(k)[..k - 1] == Zeros(k - 1);
      ZerosAreNothing(k - 1);
    } else {
      assert Zeros(0) == [];
    }
  }

  lemma Billion()
    ensures Pow10(9) == 1_000_000_000
  {
    assert Pow10(4) == 10_000;
    assert Pow10(8) == 100_000_000;
  }

  lemma PaddedReadsBack(f: nat)
    requires f < 1_000_000_000
    ensures |Padded(f)| == 9 && AllDigits(Padded(f)) && ValueOf(Padded(f)) == f
  {
    hide Pow10, ValueOf, Print;
    Billion();
    PrintReadsBack(f);
    PrintLength(f, 9);
    var s := Print(f);
    if |s| < 9 {
      ZerosAreNothing(9 - |s|);
      ValueOfJoined(Zeros(9 - |s|), s);
      assert 0 * Pow10(|s|) == 0;
    }
  }

  lemma {:induction false} StrippingKeepsValue(s: string)
    requires AllDigits(s)
    ensures var t := WithoutTrailingZeros(s);
      && |t| <= |s| && AllDigits(t) && ValueOf(s) == ValueOf(t) * Pow10(|s| - |t|)
      && (t == [] <==> ValueOf(s) == 0) && (t != [] ==> t[|t| - 1] != '0')
    decreases |s|
  {
    if s != [] && s[|s| - 1] == '0' {
      var t := WithoutTrailingZeros(s);
      StrippingKeepsValue(s[..|s| - 1]);
      Regroup(ValueOf(t), Pow10(|s| - 1 - |t|), 10);
    } else if s != [] {
      assert ValueOf(s) > 0;
    }
  }

  lemma FractionReadsBack(f: nat)
    requires 0 < f < 1_000_000_000
    ensures var t := WithoutTrailingZeros(Padded(f));
      && t != [] && |t| <= 9 && AllDigits(t) && t[|t| - 1] != '0'
      && ValueOf(t) * Pow10(9 - |t|) == f
  {
    hide Padded, ValueOf, WithoutTrailingZeros, Pow10;
    PaddedReadsBack(f);
    StrippingKeepsValue(Padded(f));
  }

  /** The printed text reads back to the same nanocpus and is canonical: no leading zero,
      and no trailing zero or bare point after it. */
  lemma ArgumentReadsBack(n: nat)
    ensures Read(Argument(n)) == Some(n)
    ensures '.' in Argument(n) ==> Argument(n)[|Argument(n)| - 1] != '0' && Argument(n)[|Argument(n)| - 1] != '.'
    ensures Argument(n)[0] == '0' ==> |Argument(n)| == 1 || Argument(n)[1] == '.'
  {
    hide ValueOf, Print, Padded, WithoutTrailingZeros, Pow10;
    var whole, f := n / 1_000_000_000, n % 1_000_000_000;
    PrintReadsBack(whole);
    var text := Argument(n);
    if f == 0 {
      assert '.' !in text;
    } else {
      FractionReadsBack(f);
      var fraction := WithoutTrailingZeros(Padded(f));
      assert text[|Print(whole)|] == '.';
      var i := PointIn(text);
      assert text[..i] == Print(whole) && text[i + 1..] == fraction;
    }
  }

  /** The argument is the canonical text of the denoted nanocpus, and missing when none is in range. */
  method Argv(value: Decimal) returns (text: Option<string>)
    ensures forall n: nat | Denotes(value, n) && LEAST <= n <= MOST :: text == Some(Argument(n))
    ensures text.Some? ==> exists n: nat :: Denotes(value, n) && LEAST <= n <= MOST
  {
    var nanocpus := Nanocpus(value);
    if nanocpus.None? {
      return None;
    }
    assert Denotes(value, nanocpus.value);
    text := Some(Argument(nanocpus.value));
  }
}
