/**
 * Python's `str` rendering of the values that appear in the argument
 * vectors built by the main window: integers, `int(bool)`, `bool` and the
 * float `v / 10` of the decimation slider.  The integer and float renderings
 * have a decoder beside them and a round-trip lemma showing that no
 * information is lost; the two boolean renderings state in their contracts
 * which string stands for true.
 */
module PyText {

  /** The character of a decimal digit. */
  function DigitChar(d: nat): (c: char)
    requires d < 10
    ensures '0' <= c <= '9'
  {
    ('0' as int + d) as char
  }

  /** The value of a decimal digit character (0 for any other character). */
  function DigitValue(c: char): (d: nat)
    ensures d < 10
  {
    if '0' <= c <= '9' then c as int - '0' as int else 0
  }

  predicate IsDigits(s: string)
  {
    forall i :: 0 <= i < |s| ==> '0' <= s[i] <= '9'
  }

  /** `str(n)` for a non-negative integer: its decimal digits, most significant first. */
  function NatToString(n: nat): (s: string)
    ensures |s| > 0 && IsDigits(s)
    ensures s[0] != '-'
  {
    if n < 10 then [DigitChar(n)] else NatToString(n / 10) + [DigitChar(n % 10)]
  }

  /** The reference decoder of a digit string. */
  function DigitsToNat(s: string): nat
  {
    if s == [] then 0 else DigitsToNat(s[..|s| - 1]) * 10 + DigitValue(s[|s| - 1])
  }

  lemma {:induction false} NatToStringRoundTrip(n: nat)
    ensures DigitsToNat(NatToString(n)) == n
  {
    var s := NatToString(n);
    if n < 10 {
      assert s[..|s| - 1] == [];
    } else {
      var p := NatToString(n / 10);
      assert s == p + [DigitChar(n % 10)];
      assert s[..|s| - 1] == p;
      NatToStringRoundTrip(n / 10);
    }
  }

  /** `str(i)` for any integer: a minus sign before the digits of a negative value. */
  function IntToString(i: int): (s: string)
    ensures |s| > 0
    ensures (s[0] == '-') <==> i < 0
  {
    if i < 0 then "-" + NatToString(-i) else NatToString(i)
  }

  function ParseInt(s: string): int
  {
    if |s| > 0 && s[0] == '-' then -(DigitsToNat(s[1..]) as int) else DigitsToNat(s)
  }

  lemma IntToStringRoundTrip(i: int)
    ensures ParseInt(IntToString(i)) == i
  {
    if i < 0 {
      assert IntToString(i)[1..] == NatToString(-i);
      NatToStringRoundTrip(-i);
    } else {
      NatToStringRoundTrip(i);
    }
  }

  /** `str(int(b))`: the 0/1 rendering of a radio button's checked state. */
  function BitString(b: bool): (s: string)
    ensures s == "0" || s == "1"
    ensures (s == "1") == b
  {
    if b then "1" else "0"
  }

  /** `str(b)`: Python's spelling of a boolean. */
  function BoolString(b: bool): (s: string)
    ensures (s == "True") == b && (s == "False") == !b
  {
    if b then "True" else "False"
  }

  /**
   * `str(float(v / 10))` for an integer slider value v: Python's shortest
   * repr of v / 10, which is the sign, the integer part, a point and the
   * tenths digit.  (This holds for |v| < 10^15; beyond that the double
   * v / 10 loses its tenths digit. The sliders range far below that.)
   */
  function TenthsString(v: int): (s: string)
    ensures |s| >= 3 && s[|s| - 2] == '.' && '0' <= s[|s| - 1] <= '9'
    ensures (s[0] == '-') <==> v < 0
  {
    var m := if v < 0 then -v else v;
    (if v < 0 then "-" else "") + NatToString(m / 10) + "." + [DigitChar(m % 10)]
  }

  function ParseTenths(s: string): int
  {
    if |s| < 2 then 0
    else
      var head := s[..|s| - 2];
      var negative := |head| > 0 && head[0] == '-';
      var m := DigitsToNat(if negative then head[1..] else head) * 10 + DigitValue(s[|s| - 1]);
      if negative then -m else m
  }

  lemma TenthsStringRoundTrip(v: int)
    ensures ParseTenths(TenthsString(v)) == v
  {
    var m := if v < 0 then -v else v;
    var digits := NatToString(m / 10);
    var s := TenthsString(v);
    var sign := if v < 0 then "-" else "";
    assert s == sign + digits + "." + [DigitChar(m % 10)];
    assert s[..|s| - 2] == sign + digits;
    assert (sign + digits)[|sign|..] == digits;
    NatToStringRoundTrip(m / 10);
  }
}
