/**
 * The numbers the results files hold, and the two conversions the code
 * leaves to Python: `float(s)`, which decides whether a field parses, and
 * `str(x)`/f-string rendering of a float or NumPy value. Both stay
 * parameters of the model; the facts about them that the proofs use are
 * stated as predicates below. Python integers (a resample id, a class
 * count) are rendered by DecimalText, which is written out.
 */
module Numbers {
  import opened Text

  /** A value as the writers receive it: an integer, a finite float, or NaN. */
  datatype Num = Int(i: int) | Real(r: real) | NaN

  function DigitChar(d: nat): (c: char)
    requires d < 10
    ensures '0' <= c <= '9'
  {
    ('0' as int + d) as char
  }

  predicate AllDigits(s: string)
  {
    forall k :: 0 <= k < |s| ==> '0' <= s[k] <= '9'
  }

  /** The decimal digits of a natural number, most significant first, with no leading zero. */
  function Digits(n: nat): (s: string)
    ensures s != "" && AllDigits(s)
    ensures |s| > 1 ==> s[0] != '0'
    decreases n
  {
    if n < 10 then [DigitChar(n)] else Digits(n / 10) + [DigitChar(n % 10)]
  }

  /** The number a string of decimal digits denotes, as `int(s)` reads it. */
  function DigitsValue(s: string): nat
    requires AllDigits(s)
  {
    if s == [] then 0 else 10 * DigitsValue(s[..|s| - 1]) + (s[|s| - 1] as int - '0' as int)
  }

  /** Reading the digits back gives the number. */
  lemma {:induction false} DigitsValueOf(n: nat)
    ensures DigitsValue(Digits(n)) == n
    decreases n
  {
    if n >= 10 {
      DigitsValueOf(n / 10);
      assert Digits(n)[..|Digits(n)| - 1] == Digits(n / 10);
    }
  }

  /** `str(i)` for a Python integer: a minus sign exactly when it is negative, then the digits. */
  function DecimalText(i: int): (s: string)
    ensures s != "" && (s[0] == '-' <==> i < 0)
    ensures forall k :: 0 < k < |s| ==> '0' <= s[k] <= '9'
  {
    if i < 0 then "-" + Digits(-i) else Digits(i)
  }

  /** The integer a decimal text denotes, as `int(s)` reads it. */
  function DecimalValue(s: string): int
    requires s != "" && forall k :: 0 < k < |s| ==> '0' <= s[k] <= '9'
    requires s[0] == '-' || '0' <= s[0] <= '9'
  {
    if s[0] == '-' then -(DigitsValue(s[1..]) as int) else DigitsValue(s)
  }

  /** The rendering of an integer reads back as that integer, so distinct integers render differently. */
  lemma DecimalTextRoundTrip(i: int)
    ensures DecimalValue(DecimalText(i)) == i
  {
    if i < 0 {
      DigitsValueOf(-i);
      assert DecimalText(i)[1..] == Digits(-i);
    } else {
      DigitsValueOf(i);
    }
  }

  /** A rendered integer holds no comma and no line break, and `lower()` leaves it alone. */
  lemma DecimalTextPlain(i: int)
    ensures ',' !in DecimalText(i) && '\n' !in DecimalText(i)
    ensures Lower(DecimalText(i)) == DecimalText(i)
  {
    var s := DecimalText(i);
    assert forall k :: 0 <= k < |s| ==> LowerChar(s[k]) == s[k];
  }

  /**
   * What the checks rely on about `float(s)`: the empty field and "?" do not
   * parse, a trailing line break is ignored (float() strips surrounding
   * whitespace), and every rendered Python integer parses.
   */
  ghost predicate FloatLike(isFloat: string -> bool)
  {
    !isFloat("") && !isFloat("?") &&
    (forall s :: isFloat(WithBreak(s)) == isFloat(s)) &&
    (forall i :: isFloat(DecimalText(i)))
  }

  /** What the writers rely on about rendering: the text holds no comma and no break, and parses back. */
  ghost predicate RendersParseably(str: Num -> string, isFloat: string -> bool)
  {
    forall n :: ',' !in str(n) && '\n' !in str(n) && isFloat(str(n))
  }
}
