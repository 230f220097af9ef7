/**
 * Decimal text forms of the numbers the system prints (Python's `str` of an
 * int and of a float rounded to one decimal place), the parsers that read
 * them back, and splitting a string at the first occurrence of a separator.
 */
module Text {
  import opened Wrappers

  predicate IsDigit(c: char) {
    '0' <= c <= '9'
  }

  predicate AllDigits(s: string) {
    forall i :: 0 <= i < |s| ==> IsDigit(s[i])
  }

  function Digit(d: nat): (c: char)
    requires d < 10
    ensures IsDigit(c) && DigitValue(c) == d
  {
    (48 + d) as char
  }

  function DigitValue(c: char): nat
    requires IsDigit(c)
  {
    c as int - 48
  }

  /** `str(n)` for a non-negative Python int: no sign, no leading zeros. */
  function NatToString(n: nat): (s: string)
    ensures |s| > 0 && AllDigits(s)
    ensures |s| > 1 ==> s[0] != '0'
  {
    if n < 10 then [Digit(n)] else NatToString(n / 10) + [Digit(n % 10)]
  }

  /** `str(i)` for a Python int. */
  function IntToString(i: int): (s: string)
    ensures |s| > 0
    ensures i >= 0 <==> s[0] != '-'
  {
    if i < 0 then "-" + NatToString(-i) else NatToString(i)
  }

  /** The value of a string of decimal digits, most significant first. */
  function DigitsValue(s: string): nat
    requires AllDigits(s)
  {
    if |s| == 0 then 0 else DigitsValue(s[..|s| - 1]) * 10 + DigitValue(s[|s| - 1])
  }

  function ParseNat(s: string): Option<nat> {
    if |s| > 0 && AllDigits(s) then Some(DigitsValue(s)) else None
  }

  function ParseInt(s: string): Option<int> {
    if |s| > 0 && s[0] == '-' then
      match ParseNat(s[1..])
      case Some(n) => Some(-(n as int))
      case None => None
    else
      match ParseNat(s)
      case Some(n) => Some(n)
      case None => None
  }

  lemma {:induction false} ParseNatToString(n: nat)
    ensures ParseNat(NatToString(n)) == Some(n)
  {
    var s := NatToString(n);
    if n < 10 {
      assert s[..|s| - 1] == [];
      assert DigitsValue(s) == DigitsValue([]) * 10 + DigitValue(s[0]);
    } else {
      ParseNatToString(n / 10);
      assert s[..|s| - 1] == NatToString(n / 10);
    }
  }

  lemma ParseIntToString(i: int)
    ensures ParseInt(IntToString(i)) == Some(i)
  {
    if i < 0 {
      ParseNatToString(-i);
      assert IntToString(i)[1..] == NatToString(-i);
    } else {
      ParseNatToString(i);
    }
  }

  /** The text of `k` tenths as Python prints a float rounded to one decimal
      place: an optional sign, the integer part, a point and one digit. */
  function TenthsToString(k: int): string {
    var a := if k < 0 then -k else k;
    (if k < 0 then "-" else "") + NatToString(a / 10) + "." + [Digit(a % 10)]
  }

  /** Reads `[-]digits.digit` back into a number of tenths. */
  function ParseTenths(s: string): Option<int> {
    var neg := |s| > 0 && s[0] == '-';
    var body := if neg then s[1..] else s;
    if |body| < 3 || body[|body| - 2] != '.' || !IsDigit(body[|body| - 1]) then None
    else
      match ParseNat(body[..|body| - 2])
      case None => None
      case Some(w) =>
        var v := w * 10 + DigitValue(body[|body| - 1]);
        Some(if neg then -v else v)
  }

  lemma TenthsRoundTrip(k: int)
    ensures ParseTenths(TenthsToString(k)) == Some(k)
  {
    var a := if k < 0 then -k else k;
    var whole := NatToString(a / 10);
    var body := whole + "." + [Digit(a % 10)];
    var s := TenthsToString(k);
    ParseNatToString(a / 10);
    if k < 0 {
      assert s == "-" + body;
      assert s[1..] == body;
    } else {
      assert s == body;
    }
    assert body[..|body| - 2] == whole;
  }

  /** Splits `s` at the first occurrence of `c`, dropping the separator. */
  function SplitFirst(s: string, c: char): (r: Option<(string, string)>)
    ensures r.Some? ==> s == r.value.0 + [c] + r.value.1 && c !in r.value.0
    ensures r.None? <==> c !in s
  {
    if |s| == 0 then None
    else if s[0] == c then Some(([], s[1..]))
    else
      match SplitFirst(s[1..], c)
      case None => None
      case Some(parts) => Some(([s[0]] + parts.0, parts.1))
  }

  /** A separator that does not occur in `x` splits `x + [c] + y` back into `x` and `y`. */
  lemma {:induction false} SplitFirstJoin(x: string, c: char, y: string)
    requires c !in x
    ensures SplitFirst(x + [c] + y, c) == Some((x, y))
  {
    if |x| > 0 {
      assert (x + [c] + y)[1..] == x[1..] + [c] + y;
      SplitFirstJoin(x[1..], c, y);
      assert [x[0]] + x[1..] == x;
    }
  }

  lemma NatToStringNoChar(n: nat, c: char)
    requires !IsDigit(c)
    ensures c !in NatToString(n)
  {
  }

  lemma IntToStringNoChar(i: int, c: char)
    requires !IsDigit(c) && c != '-'
    ensures c !in IntToString(i)
  {
  }
}
