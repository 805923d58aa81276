/**
 * The PHP string conversions the SDK relies on: decimal rendering of
 * numbers, `(string)` and `(int)` casts, and `substr` with PHP's rules for
 * out-of-range offsets.
 */
module PhpStrings {
  import opened PhpValues

  predicate IsDigit(c: char)
  {
    '0' <= c <= '9'
  }

  predicate AllDigits(s: string)
  {
    forall i :: 0 <= i < |s| ==> IsDigit(s[i])
  }

  function DigitChar(d: nat): char
    requires d < 10
  {
    "0123456789"[d]
  }

  function DigitOf(c: char): nat
    requires IsDigit(c)
  {
    (c - '0') as nat
  }

  function Pow10(k: nat): (p: nat)
    ensures p >= 1
  {
    if k == 0 then 1 else 10 * Pow10(k - 1)
  }

  /** The decimal digits of `n` with no leading zero, as PHP prints an integer. */
  function NatToString(n: nat): (s: string)
    ensures |s| >= 1 && AllDigits(s)
    ensures |s| > 1 ==> s[0] != '0'
  {
    if n < 10 then [DigitChar(n)] else NatToString(n / 10) + [DigitChar(n % 10)]
  }

  /** `(string)$i` for an integer. */
  function IntToString(i: int): string
  {
    if i < 0 then "-" + NatToString(-i) else NatToString(i)
  }

  /** The number a string of decimal digits denotes. */
  function DecimalValue(s: string): nat
    requires AllDigits(s)
  {
    if s == [] then 0 else 10 * DecimalValue(s[..|s| - 1]) + DigitOf(s[|s| - 1])
  }

  /** Reading the digits back gives the number: decimal rendering loses nothing. */
  lemma {:induction false} DecimalRoundTrip(n: nat)
    ensures DecimalValue(NatToString(n)) == n
  {
    var s := NatToString(n);
    if n < 10 {
      assert s[..0] == [];
    } else {
      DecimalRoundTrip(n / 10);
      assert s[..|s| - 1] == NatToString(n / 10);
    }
  }

  /** Different numbers print differently. */
  lemma NatToStringInjective(a: nat, b: nat)
    requires NatToString(a) == NatToString(b)
    ensures a == b
  {
    DecimalRoundTrip(a);
    DecimalRoundTrip(b);
  }

  /** Different integers print differently. */
  lemma IntToStringInjective(a: int, b: int)
    requires IntToString(a) == IntToString(b)
    ensures a == b
  {
    var sa, sb := IntToString(a), IntToString(b);
    if a < 0 && b < 0 {
      assert sa[1..] == NatToString(-a) && sb[1..] == NatToString(-b);
      NatToStringInjective(-a, -b);
    } else if a >= 0 && b >= 0 {
      NatToStringInjective(a, b);
    } else {
      assert false;
    }
  }

  /** `n` has more than `k` decimal digits exactly when it is at least 10^k. */
  lemma {:induction false} NatToStringLength(n: nat, k: nat)
    requires k >= 1
    ensures |NatToString(n)| > k <==> n >= Pow10(k)
  {
    if n >= 10 && k > 1 {
      NatToStringLength(n / 10, k - 1);
      assert n / 10 >= Pow10(k - 1) <==> n >= 10 * Pow10(k - 1);
    } else if n < 10 {
      assert Pow10(k) == 10 * Pow10(k - 1);
    }
  }

  /** `substr($s, $offset)` with no length: a negative offset counts from the
      end and is clamped to the start, an offset past the end gives "". */
  function Substr(s: string, offset: int): (r: string)
    ensures |r| <= |s| && r == s[|s| - |r|..]
    ensures 0 <= offset <= |s| ==> r == s[offset..]
    ensures -|s| <= offset < 0 ==> r == s[|s| + offset..]
    ensures offset < -|s| ==> r == s
  {
    var start := if offset >= 0 then offset else if |s| + offset >= 0 then |s| + offset else 0;
    if start > |s| then "" else s[start..]
  }

  /** `(string)$v`, the conversion PHP applies when `.` concatenates a value.
      Arrays convert to the word "Array" (with a warning). */
  function Stringify(v: Value): string
  {
    match v
    case Null => ""
    case Bool(b) => if b then "1" else ""
    case Int(i) => IntToString(i)
    case Float(w) => IntToString(w)
    case Str(s) => s
    case Arr(_) => "Array"
  }

  predicate IsSpace(c: char)
  {
    c == ' ' || c == '\t' || c == '\n' || c == '\r' || c == '\U{B}' || c == '\U{C}'
  }

  function SkipSpaces(s: string): string
  {
    if s != [] && IsSpace(s[0]) then SkipSpaces(s[1..]) else s
  }

  /** The longest prefix of `s` made of decimal digits. */
  function DigitPrefix(s: string): (p: string)
    ensures AllDigits(p) && p <= s
  {
    if s != [] && IsDigit(s[0]) then [s[0]] + DigitPrefix(s[1..]) else ""
  }

  /** `(int)$s` for a string of digits: leading white space, an optional
      sign, then as many digits as there are; no digits at all gives 0. The
      exponent and fraction forms PHP also reads (`"1e3"` is 1000) are not
      modelled: the SDK only ever converts the empty string. */
  function StringToInt(s: string): int
  {
    var t := SkipSpaces(s);
    if t != [] && t[0] == '-' then 0 - DecimalValue(DigitPrefix(t[1..]))
    else if t != [] && t[0] == '+' then DecimalValue(DigitPrefix(t[1..]))
    else DecimalValue(DigitPrefix(t))
  }

  /** `(int)$v`, the conversion `sprintf('%d', $v)` applies to its argument. */
  function ToInt(v: Value): int
  {
    match v
    case Null => 0
    case Bool(b) => if b then 1 else 0
    case Int(i) => i
    case Float(w) => w
    case Str(s) => StringToInt(s)
    case Arr(a) => if |a.keys| == 0 then 0 else 1
  }

  /** `sprintf('%d', $v)`. */
  function FormatD(v: Value): string
  {
    IntToString(ToInt(v))
  }
}
