/** The few Python built-ins the valuation code leans on: values as they sit in a
    record, `float()` on them, `dict.get`, `sum`, the mean of a list, `max` and
    `round(x, 2)`. Numbers are exact reals, so float rounding error is not modelled. */
module PyBuiltins {
  import opened Wrappers

  /** A value stored in a company record or passed to a valuation function:
      Python's `None`, a number, or a string. */
  datatype PyValue = PyNone | PyFloat(x: real) | PyStr(s: string)

  /** A company record: a Python dict from field names to values. */
  type Record = map<string, PyValue>

  /** `d.get(key, default)`, for a record and for any other dict. */
  function Get<K(==), V>(d: map<K, V>, key: K, default: V): V
  {
    if key in d then d[key] else default
  }

  // ---------------------------------------------------------------------------
  // float()
  // ---------------------------------------------------------------------------

  predicate IsDigit(c: char)
  {
    '0' <= c <= '9'
  }

  predicate AllDigits(s: string)
  {
    forall i :: 0 <= i < |s| ==> IsDigit(s[i])
  }

  /** The natural number written by a string of decimal digits. */
  function DigitsValue(s: string): nat
    requires AllDigits(s)
  {
    if s == [] then 0
    else DigitsValue(s[..|s| - 1]) * 10 + (s[|s| - 1] as int - '0' as int)
  }

  function Pow10(n: nat): (p: nat)
    ensures p >= 1
  {
    if n == 0 then 1 else 10 * Pow10(n - 1)
  }

  /** Index of the first '.' in `s`, or `|s|` when there is none. */
  function DotIndex(s: string): (k: nat)
    ensures k <= |s|
    ensures k < |s| ==> s[k] == '.'
    ensures forall i :: 0 <= i < k ==> s[i] != '.'
  {
    if s == [] then 0
    else if s[0] == '.' then 0
    else 1 + DotIndex(s[1..])
  }

  /** An unsigned decimal numeral: digits, optionally a '.' and more digits, with at
      least one digit in all ("12", "12.5", "12.", ".5"). */
  function ParseUnsigned(s: string): Option<real>
  {
    var k := DotIndex(s);
    var whole := s[..k];
    var frac := if k < |s| then s[k + 1..] else "";
    if AllDigits(whole) && AllDigits(frac) && |whole| + |frac| > 0 then
      Some(DigitsValue(whole) as real + DigitsValue(frac) as real / Pow10(|frac|) as real)
    else
      None
  }

  /** `float(s)` for a string: an optionally signed decimal numeral; anything else
      raises ValueError, which is `None` here. */
  function ParseDecimal(s: string): Option<real>
  {
    if |s| > 0 && s[0] == '-' then
      match ParseUnsigned(s[1..])
      case None => None
      case Some(x) => Some(-x)
    else if |s| > 0 && s[0] == '+' then
      ParseUnsigned(s[1..])
    else
      ParseUnsigned(s)
  }

  /** `float(v)`: `None` where Python raises TypeError (on `None`) or ValueError
      (on a string that is not a numeral). */
  function ToFloat(v: PyValue): Option<real>
  {
    match v
    case PyNone => None
    case PyFloat(x) => Some(x)
    case PyStr(s) => ParseDecimal(s)
  }

  /** The decimal digits of `n`, without leading zeros ("0" for zero). */
  function DecimalDigits(n: nat): (s: string)
    ensures |s| > 0 && AllDigits(s)
  {
    if n < 10 then [('0' as int + n) as char]
    else DecimalDigits(n / 10) + [('0' as int + n % 10) as char]
  }

  lemma {:induction false} DecimalDigitsValue(n: nat)
    ensures DigitsValue(DecimalDigits(n)) == n
  {
    var s := DecimalDigits(n);
    if n >= 10 {
      assert s[..|s| - 1] == DecimalDigits(n / 10);
      DecimalDigitsValue(n / 10);
    } else {
      assert s[..|s| - 1] == [];
    }
  }

  /** `str(n)` for an integer. */
  function IntString(n: int): string
  {
    if n < 0 then "-" + DecimalDigits(-n) else DecimalDigits(n)
  }

  /** A numeral without a dot is read as its whole digits. */
  lemma ParseDigits(d: string)
    requires |d| > 0 && AllDigits(d)
    ensures ParseUnsigned(d) == Some(DigitsValue(d) as real)
  {
    var k := DotIndex(d);
    if k < |d| {
      assert false;
    }
    assert d[..k] == d;
    assert DigitsValue("") == 0 && Pow10(0) == 1;
  }

  /** An unsigned numeral reads as its value: its first character is a digit, not
      a sign. */
  lemma ParseUnsignedDigits(d: string)
    requires |d| > 0 && AllDigits(d)
    ensures ParseDecimal(d) == Some(DigitsValue(d) as real)
  {
    assert IsDigit(d[0]);
    ParseDigits(d);
  }

  /** A numeral after a '-' reads as its negated value. */
  lemma ParseNegatedDigits(s: string)
    requires |s| > 1 && s[0] == '-' && AllDigits(s[1..])
    ensures ParseDecimal(s) == Some(-(DigitsValue(s[1..]) as real))
  {
    ParseDigits(s[1..]);
  }

  /** `float(str(n)) == n`: every integer, signed or not, reads back as itself. */
  lemma ParseIntString(n: int)
    ensures ToFloat(PyStr(IntString(n))) == Some(n as real)
  {
    var m: nat := if n < 0 then -n else n;
    DecimalDigitsValue(m);
    if n < 0 {
      assert IntString(n)[1..] == DecimalDigits(m);
      ParseNegatedDigits(IntString(n));
    } else {
      ParseUnsignedDigits(DecimalDigits(m));
    }
  }

  /** A decimal fraction: "12.5" reads as 12.5. */
  lemma ParseFractionExample()
    ensures ToFloat(PyStr("12.5")) == Some(12.5)
  {
    assert DotIndex("12.5") == 2 by {
      assert DotIndex("2.5") == 1 by { assert "2.5"[1..] == ".5"; }
      assert "12.5"[1..] == "2.5";
    }
    assert "12.5"[..2] == "12" && "12.5"[3..] == "5";
    assert DigitsValue("12") == 12 by { assert "12"[..1] == "1"; assert "1"[..0] == ""; }
    assert DigitsValue("5") == 5 by { assert "5"[..0] == ""; }
  }

  /** A leading '+' is accepted: "+7" reads as 7. */
  lemma ParsePlusExample()
    ensures ToFloat(PyStr("+7")) == Some(7.0)
  {
    ParseDigits("7");
    assert DigitsValue("7") == 7 by { assert "7"[..0] == ""; }
    assert "+7"[1..] == "7";
  }

  /** A second dot makes `float()` raise. */
  lemma ParseTwoDotsExample()
    ensures ToFloat(PyStr("1.2.3")) == None
  {
    assert DotIndex("1.2.3") == 1 by { assert "1.2.3"[1..] == ".2.3"; }
    assert "1.2.3"[2..][1] == '.';
    assert !AllDigits("1.2.3"[2..]);
  }

  /** The empty string, a word and `None` make `float()` raise. */
  lemma ParseRejectsExample()
    ensures ToFloat(PyStr("")) == None
    ensures ToFloat(PyStr("n/a")) == None
    ensures ToFloat(PyNone) == None
  {
    assert "n/a"[..DotIndex("n/a")][0] == 'n';
  }

  // ---------------------------------------------------------------------------
  // sum, mean, max
  // ---------------------------------------------------------------------------

  /** `sum(s)`. */
  function Sum(s: seq<real>): real
  {
    if s == [] then 0.0 else s[0] + Sum(s[1..])
  }

  /** The arithmetic mean `sum(s) / len(s)`. */
  function Mean(s: seq<real>): real
    requires |s| > 0
  {
    Sum(s) / |s| as real
  }

  /** The mean of two values is their midpoint. */
  lemma MeanOfTwo(a: real, b: real)
    ensures Mean([a, b]) == (a + b) / 2.0
  {
    assert Sum([a, b]) == a + Sum([b]);
    assert Sum([b]) == b + Sum([]);
  }

  /** `max(a, b)`. */
  function Max(a: real, b: real): (m: real)
    ensures m >= a && m >= b
    ensures m == a || m == b
  {
    if a >= b then a else b
  }

  /** `max(s)` of a non-empty list. */
  function MaxOf(s: seq<real>): (m: real)
    requires |s| > 0
    ensures m in s
    ensures forall x :: x in s ==> x <= m
  {
    if |s| == 1 then s[0]
    else
      assert forall x :: x in s ==> x == s[0] || x in s[1..];
      Max(s[0], MaxOf(s[1..]))
  }

  // ---------------------------------------------------------------------------
  // round(x, 2)
  // ---------------------------------------------------------------------------

  /** The integer nearest to `y`, ties going to the even neighbour, as Python's
      `round` does. */
  function RoundHalfEven(y: real): (n: int)
    ensures -0.5 <= n as real - y <= 0.5
  {
    var f := y.Floor;
    var frac := y - f as real;
    if frac < 0.5 then f
    else if frac > 0.5 then f + 1
    else if f % 2 == 0 then f
    else f + 1
  }

  /** `round(x, 2)`: `x` to the nearest hundredth, ties to even; it moves `x` by at
      most half a hundredth. */
  function Round2(x: real): (r: real)
    ensures -0.005 <= r - x <= 0.005
  {
    RoundHalfEven(x * 100.0) as real / 100.0
  }

  /** A value that already has at most two decimals is left as it is, so rounding
      twice is rounding once. */
  lemma Round2Cents(k: int)
    ensures Round2(k as real / 100.0) == k as real / 100.0
  {
    assert (k as real / 100.0) * 100.0 == k as real;
  }

  lemma RoundHalfEvenMonotone(y1: real, y2: real)
    requires y1 <= y2
    ensures RoundHalfEven(y1) <= RoundHalfEven(y2)
  {
    var f1, f2 := y1.Floor, y2.Floor;
    if f1 == f2 {
      assert y1 - f1 as real <= y2 - f2 as real;
    } else {
      assert f1 < f2;
    }
  }

  /** Rounding preserves order: if `x <= y` then `round(x, 2) <= round(y, 2)`. */
  lemma Round2Monotone(x: real, y: real)
    requires x <= y
    ensures Round2(x) <= Round2(y)
  {
    RoundHalfEvenMonotone(x * 100.0, y * 100.0);
  }

  lemma Round2Zero()
    ensures Round2(0.0) == 0.0
  {
    Round2Cents(0);
  }
}
