/** Python's `float(s)` on text: which strings it accepts and the number it
    denotes. Numbers are exact reals here; binary rounding is not modelled. */
module PyFloat {
  import opened Wrappers
  import opened PyText

  /** A Python float as far as the handlers are concerned: it is only stored
      and copied into rows. */
  datatype Value = Finite(r: real) | Infinity(negative: bool) | NaN

  function Negate(v: Value): Value {
    match v
    case Finite(r) => Finite(-r)
    case Infinity(n) => Infinity(!n)
    case NaN => NaN
  }

  predicate IsDigit(c: char) {
    '0' <= c <= '9'
  }

  function DigitValue(c: char): nat
    requires IsDigit(c)
  {
    c as int - '0' as int
  }

  function Pow10(n: nat): (p: nat)
    ensures p >= 1
  {
    if n == 0 then 1 else 10 * Pow10(n - 1)
  }

  /** ASCII upper case folded to lower case, as float() matches "inf", "nan"
      and the exponent letter without regard to case. */
  function Lower(s: string): (r: string)
    ensures |r| == |s|
  {
    if s == [] then []
    else
      var c := s[0];
      [if 'A' <= c <= 'Z' then (c as int + 32) as char else c] + Lower(s[1..])
  }

  /** The value of a digit run and how many digits it has. */
  datatype Digits = Digits(value: nat, count: nat)

  /** `digitpart ::= digit (["_"] digit)*`: digits, with single underscores
      allowed between two digits. */
  function DigitPart(s: string): (r: Option<Digits>)
    decreases |s|
  {
    if |s| == 0 || !IsDigit(s[|s| - 1]) then None
    else if |s| == 1 then Some(Digits(DigitValue(s[0]), 1))
    else
      var init := if s[|s| - 2] == '_' then s[..|s| - 2] else s[..|s| - 1];
      match DigitPart(init)
      case None => None
      case Some(d) => Some(Digits(d.value * 10 + DigitValue(s[|s| - 1]), d.count + 1))
  }

  function Fraction(d: Digits): real {
    d.value as real / Pow10(d.count) as real
  }

  /** `number ::= [digitpart] "." digitpart | digitpart ["."]`. */
  function Mantissa(s: string): Option<real> {
    if '.' !in s then
      match DigitPart(s)
      case None => None
      case Some(d) => Some(d.value as real)
    else
      var (whole, frac) := SplitOnce(s, '.');
      match (DigitPart(whole), DigitPart(frac))
      case (Some(w), Some(f)) => Some(w.value as real + Fraction(f))
      case (Some(w), None) => if frac == [] then Some(w.value as real) else None
      case (None, Some(f)) => if whole == [] then Some(Fraction(f)) else None
      case (None, None) => None
  }

  /** The exponent after `e`: `[sign] digitpart`. */
  function Exponent(s: string): Option<int> {
    if s != [] && (s[0] == '+' || s[0] == '-') then
      match DigitPart(s[1..])
      case None => None
      case Some(d) => Some(if s[0] == '-' then -(d.value as int) else d.value)
    else
      match DigitPart(s)
      case None => None
      case Some(d) => Some(d.value)
  }

  function Scale(x: real, e: int): real {
    if e >= 0 then x * Pow10(e) as real else x / Pow10(-e) as real
  }

  /** `absfloatvalue ::= floatnumber | infinity | nan`, on lower-cased text. */
  function Unsigned(s: string): Option<Value> {
    if s == "inf" || s == "infinity" then Some(Infinity(false))
    else if s == "nan" then Some(NaN)
    else if 'e' !in s then
      match Mantissa(s)
      case None => None
      case Some(m) => Some(Finite(m))
    else
      var (m, e) := SplitOnce(s, 'e');
      match (Mantissa(m), Exponent(e))
      case (Some(x), Some(k)) => Some(Finite(Scale(x, k)))
      case _ => None
  }

  /** `floatvalue ::= [sign] absfloatvalue`, on stripped, lower-cased text. */
  function Signed(t: string): Option<Value> {
    if t != [] && (t[0] == '+' || t[0] == '-') then
      match Unsigned(t[1..])
      case None => None
      case Some(v) => Some(if t[0] == '-' then Negate(v) else v)
    else
      Unsigned(t)
  }

  /** `float(s)`: `None` where Python raises `ValueError`. Surrounding
      whitespace is ignored and a sign may precede the number. */
  function ParseFloat(s: string): Option<Value> {
    Signed(Lower(Strip(s)))
  }

  /** Decimal text of a natural number, without leading zeros. */
  function NatText(n: nat): (s: string)
    ensures s != [] && forall i :: 0 <= i < |s| ==> IsDigit(s[i])
  {
    var d := [(n % 10 + '0' as int) as char];
    if n < 10 then d else NatText(n / 10) + d
  }

  /** Decimal text of an integer, with a leading `-` when negative. */
  function IntText(i: int): string {
    if i < 0 then "-" + NatText(-i) else NatText(i)
  }

  lemma {:induction false} DigitPartOfNatText(n: nat)
    ensures DigitPart(NatText(n)) == Some(Digits(n, |NatText(n)|))
    decreases n
  {
    if n >= 10 {
      var s := NatText(n);
      var init := NatText(n / 10);
      assert s == init + [s[|s| - 1]];
      assert s[..|s| - 1] == init;
      assert s[|s| - 2] == init[|init| - 1];
      DigitPartOfNatText(n / 10);
    }
  }

  lemma {:induction false} LowerOfDigits(s: string)
    requires forall i :: 0 <= i < |s| ==> IsDigit(s[i])
    ensures Lower(s) == s
    decreases |s|
  {
    if s != [] {
      LowerOfDigits(s[1..]);
    }
  }

  lemma StripNoSpaceEnds(s: string)
    requires s != [] && !IsSpace(s[0]) && !IsSpace(s[|s| - 1])
    ensures Strip(s) == s
  {
    assert LStrip(s) == s;
  }

  lemma UnsignedNatText(n: nat)
    ensures Unsigned(NatText(n)) == Some(Finite(n as real))
  {
    var d := NatText(n);
    DigitPartOfNatText(n);
    assert '.' !in d && 'e' !in d;
    assert d != "inf" && d != "infinity" && d != "nan" by {
      assert IsDigit(d[0]);
    }
  }

  lemma CleanNatText(n: nat)
    ensures Lower(Strip(NatText(n))) == NatText(n)
  {
    LowerOfDigits(NatText(n));
    StripNoSpaceEnds(NatText(n));
  }

  lemma SignedNatText(n: nat)
    ensures Signed(NatText(n)) == Some(Finite(n as real))
  {
    assert IsDigit(NatText(n)[0]);
    UnsignedNatText(n);
  }

  lemma ParseNatText(n: nat)
    ensures ParseFloat(NatText(n)) == Some(Finite(n as real))
  {
    CleanNatText(n);
    SignedNatText(n);
  }

  lemma CleanNegText(n: nat)
    ensures Lower(Strip("-" + NatText(n))) == "-" + NatText(n)
  {
    var s := "-" + NatText(n);
    LowerOfDigits(NatText(n));
    StripNoSpaceEnds(s);
    assert s[1..] == NatText(n);
    LowerOfSignedDigits(s);
  }

  lemma SignedNegText(n: nat)
    ensures Signed("-" + NatText(n)) == Some(Finite(-(n as real)))
  {
    var s := "-" + NatText(n);
    assert s[1..] == NatText(n);
    UnsignedNatText(n);
  }

  lemma ParseNegText(n: nat)
    ensures ParseFloat("-" + NatText(n)) == Some(Finite(-(n as real)))
  {
    CleanNegText(n);
    SignedNegText(n);
  }

  /** float() reads back the decimal text of every integer exactly. */
  lemma ParseIntText(i: int)
    ensures ParseFloat(IntText(i)) == Some(Finite(i as real))
  {
    var n: nat := if i < 0 then -i else i;
    var text := if i < 0 then "-" + NatText(n) else NatText(n);
    assert IntText(i) == text;
    if i < 0 {
      ParseNegText(n);
    } else {
      ParseNatText(n);
    }
  }

  lemma LowerOfSignedDigits(s: string)
    requires s != [] && s[0] == '-' && Lower(s[1..]) == s[1..]
    ensures Lower(s) == s
  {
  }

  /** A field that is empty or only whitespace is not a number. */
  lemma BlankIsNotNumber(s: string)
    requires IsBlank(s)
    ensures ParseFloat(s) == None
  {
  }
}
