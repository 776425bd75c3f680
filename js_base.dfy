/** The pieces of JavaScript's built-in behaviour that the modelled files rely on:
    null/undefined as Option, Math.round, Math.min/Math.max clamping, Array#reduce
    sums and means, Number#toString on integers, String#padStart, String#split,
    String#toLowerCase on ASCII letters and the global parseInt with no radix. */
module JsBase {

  /** A JavaScript value that may be null or undefined. */
  datatype Option<+T> = None | Some(value: T)

  /** `x || 0` for a number that may be missing or NaN (None). */
  function OrZero(o: Option<int>): int
  {
    match o
    case Some(v) => v
    case None => 0
  }

  function OrZeroReal(o: Option<real>): real
  {
    match o
    case Some(v) => v
    case None => 0.0
  }

  function Abs(x: real): (r: real)
    ensures r >= 0.0 && (r == x || r == -x)
  {
    if x < 0.0 then -x else x
  }

  function Min(a: real, b: real): (r: real)
    ensures r <= a && r <= b && (r == a || r == b)
  {
    if a <= b then a else b
  }

  function Max(a: real, b: real): (r: real)
    ensures r >= a && r >= b && (r == a || r == b)
  {
    if a >= b then a else b
  }

  /** Math.round: the nearest integer, a half rounded towards +infinity. */
  function Round(x: real): (r: int)
    ensures x - 0.5 < r as real <= x + 0.5
  {
    (x + 0.5).Floor
  }

  lemma RoundMonotone(x: real, y: real)
    requires x <= y
    ensures Round(x) <= Round(y)
  {
  }

  lemma RoundOfInt(n: int)
    ensures Round(n as real) == n
  {
  }

  /** Math.max(lo, Math.min(hi, v)). */
  function Clamp(lo: real, hi: real, v: real): (r: real)
    ensures lo <= hi ==> lo <= r <= hi
    ensures lo <= v <= hi ==> r == v
    ensures v < lo ==> r == lo
    ensures lo <= hi && hi < v ==> r == hi
  {
    Max(lo, Min(hi, v))
  }

  /** `xs.reduce((a, b) => a + b, 0)`: a left fold over the sequence. */
  function Sum(xs: seq<real>): real
  {
    if |xs| == 0 then 0.0 else Sum(xs[..|xs| - 1]) + xs[|xs| - 1]
  }

  /** The arithmetic mean, 0 for an empty sequence (the source's `length > 0 ? ... : 0`). */
  function Mean(xs: seq<real>): real
  {
    if |xs| == 0 then 0.0 else Sum(xs) / (|xs| as real)
  }

  lemma {:induction false} SumBounds(xs: seq<real>, lo: real, hi: real)
    requires forall i :: 0 <= i < |xs| ==> lo <= xs[i] <= hi
    ensures (|xs| as real) * lo <= Sum(xs) <= (|xs| as real) * hi
  {
    if |xs| > 0 {
      SumBounds(xs[..|xs| - 1], lo, hi);
    }
  }

  lemma {:induction false} SumNonNegative(xs: seq<real>)
    requires forall i :: 0 <= i < |xs| ==> xs[i] >= 0.0
    ensures Sum(xs) >= 0.0
  {
    if |xs| > 0 {
      SumNonNegative(xs[..|xs| - 1]);
    }
  }

  /** The mean lies between the least and the greatest bound of the elements. */
  lemma MeanBounds(xs: seq<real>, lo: real, hi: real)
    requires |xs| > 0
    requires forall i :: 0 <= i < |xs| ==> lo <= xs[i] <= hi
    ensures lo <= Mean(xs) <= hi
  {
    SumBounds(xs, lo, hi);
    var n := |xs| as real;
    assert n * lo <= Sum(xs) <= n * hi;
    assert Sum(xs) / n >= lo by {
      assert Sum(xs) / n * n == Sum(xs);
    }
    assert Sum(xs) / n <= hi by {
      assert Sum(xs) / n * n == Sum(xs);
    }
  }

  lemma {:induction false} SumAppend(xs: seq<real>, ys: seq<real>)
    ensures Sum(xs + ys) == Sum(xs) + Sum(ys)
  {
    if |ys| == 0 {
      assert xs + ys == xs;
    } else {
      assert (xs + ys)[..|xs + ys| - 1] == xs + ys[..|ys| - 1];
      SumAppend(xs, ys[..|ys| - 1]);
    }
  }

  // ---------------------------------------------------------------------------
  // Strings

  function DigitChar(d: nat): (c: char)
    requires d < 10
    ensures '0' <= c <= '9' && c as int - '0' as int == d
  {
    ('0' as int + d) as char
  }

  predicate IsDecimalDigits(s: string)
  {
    forall i :: 0 <= i < |s| ==> '0' <= s[i] <= '9'
  }

  /** Number#toString() of a non-negative integer: its decimal digits, no leading zero. */
  function NatToString(n: nat): (r: string)
    ensures |r| >= 1 && IsDecimalDigits(r)
    ensures r[0] == '0' ==> n == 0 && |r| == 1
    decreases n
  {
    if n < 10 then [DigitChar(n)] else NatToString(n / 10) + [DigitChar(n % 10)]
  }

  /** Number#toString() of an integer: a minus sign before the digits of a negative one. */
  function IntToString(i: int): (r: string)
    ensures |r| >= 1
    ensures i >= 0 ==> r == NatToString(i)
    ensures i < 0 ==> r[0] == '-'
  {
    if i < 0 then "-" + NatToString(-i) else NatToString(i)
  }

  /** String#padStart(width, fill) with a one-character fill. */
  function PadStart(s: string, width: nat, fill: char): (r: string)
    ensures |r| == if |s| >= width then |s| else width
    decreases width - |s|
  {
    if |s| >= width then s else PadStart([fill] + s, width, fill)
  }

  /** padStart keeps the text as the tail and puts only fill characters in front of it. */
  lemma {:induction false} PadStartRule(s: string, width: nat, fill: char)
    ensures var r := PadStart(s, width, fill);
      r[|r| - |s|..] == s && forall i :: 0 <= i < |r| - |s| ==> r[i] == fill
    decreases width - |s|
  {
    if |s| < width {
      PadStartRule([fill] + s, width, fill);
    }
  }

  /** String#startsWith. */
  predicate StartsWith(s: string, prefix: string)
  {
    |prefix| <= |s| && s[..|prefix|] == prefix
  }

  /** String#includes. */
  predicate Contains(s: string, part: string)
    decreases |s|
  {
    StartsWith(s, part) || (|s| > 0 && Contains(s[1..], part))
  }

  function LowerChar(c: char): char
  {
    if 'A' <= c <= 'Z' then (c as int + 32) as char else c
  }

  /** String#toLowerCase, on the ASCII letters. */
  function ToLower(s: string): (r: string)
    ensures |r| == |s|
    ensures forall i :: 0 <= i < |s| ==> r[i] == LowerChar(s[i])
  {
    seq(|s|, i requires 0 <= i < |s| => LowerChar(s[i]))
  }

  /** The index of the first `c` in `s`, or |s| when there is none. */
  function IndexOf(s: string, c: char): (i: nat)
    ensures i <= |s|
    ensures i < |s| ==> s[i] == c
    ensures forall j :: 0 <= j < i ==> s[j] != c
  {
    if |s| == 0 then 0 else if s[0] == c then 0 else 1 + IndexOf(s[1..], c)
  }

  /** String#split with a one-character separator. */
  function Split(s: string, sep: char): (parts: seq<string>)
    ensures |parts| >= 1
    ensures forall k, j :: 0 <= k < |parts| && 0 <= j < |parts[k]| ==> parts[k][j] != sep
    decreases |s|
  {
    var i := IndexOf(s, sep);
    if i == |s| then [s] else [s[..i]] + Split(s[i + 1..], sep)
  }

  lemma SplitNoSeparator(s: string, sep: char)
    requires forall j :: 0 <= j < |s| ==> s[j] != sep
    ensures Split(s, sep) == [s]
  {
  }

  lemma SplitFirst(a: string, sep: char, b: string)
    requires forall j :: 0 <= j < |a| ==> a[j] != sep
    ensures Split(a + [sep] + b, sep) == [a] + Split(b, sep)
  {
    var s := a + [sep] + b;
    assert s[|a|] == sep;
    assert IndexOf(s, sep) == |a|;
    assert s[..|a|] == a;
    assert s[|a| + 1..] == b;
  }

  // ---------------------------------------------------------------------------
  // parseInt with the radix left out

  /** The characters that parseInt skips at the front (WhiteSpace and LineTerminator). */
  predicate IsJsSpace(c: char)
  {
    c == ' ' || c == '\t' || c == '\n' || c == '\r' || c == '\U{B}' || c == '\U{C}'
    || c == '\U{A0}' || c == '\U{1680}' || ('\U{2000}' <= c <= '\U{200A}')
    || c == '\U{2028}' || c == '\U{2029}' || c == '\U{202F}' || c == '\U{205F}'
    || c == '\U{3000}' || c == '\U{FEFF}'
  }

  function TrimStart(s: string): (r: string)
    ensures |r| <= |s| && r == s[|s| - |r|..]
    ensures |r| > 0 ==> !IsJsSpace(r[0])
  {
    if |s| > 0 && IsJsSpace(s[0]) then TrimStart(s[1..]) else s
  }

  /** The value of `c` as a digit in base `radix`, or -1. */
  function DigitValue(c: char, radix: nat): (d: int)
    requires radix == 10 || radix == 16
    ensures -1 <= d < radix
  {
    if '0' <= c <= '9' then c as int - '0' as int
    else if radix == 16 && 'a' <= c <= 'f' then c as int - 'a' as int + 10
    else if radix == 16 && 'A' <= c <= 'F' then c as int - 'A' as int + 10
    else -1
  }

  /** The longest prefix of `s` made of base-`radix` digits. */
  function DigitPrefix(s: string, radix: nat): (r: string)
    requires radix == 10 || radix == 16
    ensures |r| <= |s| && r == s[..|r|]
    ensures forall i :: 0 <= i < |r| ==> DigitValue(r[i], radix) >= 0
    ensures |r| < |s| ==> DigitValue(s[|r|], radix) < 0
  {
    if |s| > 0 && DigitValue(s[0], radix) >= 0 then [s[0]] + DigitPrefix(s[1..], radix) else []
  }

  function DigitsValue(ds: string, radix: nat): nat
    requires radix == 10 || radix == 16
    requires forall i :: 0 <= i < |ds| ==> DigitValue(ds[i], radix) >= 0
  {
    if |ds| == 0 then 0
    else DigitsValue(ds[..|ds| - 1], radix) * radix + DigitValue(ds[|ds| - 1], radix)
  }

  /** parseInt(s): skip leading white space, read an optional sign, switch to base 16
      after "0x" or "0X", and read the longest run of digits; None stands for NaN,
      which parseInt returns when there are no digits. */
  function ParseInt(s: string): (r: Option<int>)
    ensures |s| == 0 ==> r == None
  {
    var t := TrimStart(s);
    var sign := if |t| > 0 && t[0] == '-' then -1 else 1;
    var u := if |t| > 0 && (t[0] == '-' || t[0] == '+') then t[1..] else t;
    var hex := |u| >= 2 && u[0] == '0' && (u[1] == 'x' || u[1] == 'X');
    var radix := if hex then 16 else 10;
    var digits := DigitPrefix(if hex then u[2..] else u, radix);
    if |digits| == 0 then None else Some(sign * DigitsValue(digits, radix))
  }

  lemma {:induction false} DigitPrefixOfDigits(s: string)
    requires IsDecimalDigits(s)
    ensures DigitPrefix(s, 10) == s
  {
    if |s| > 0 {
      DigitPrefixOfDigits(s[1..]);
    }
  }

  lemma {:induction false} NatToStringValue(n: nat)
    ensures DigitsValue(NatToString(n), 10) == n
    decreases n
  {
    var s := NatToString(n);
    if n >= 10 {
      assert s[..|s| - 1] == NatToString(n / 10);
      NatToStringValue(n / 10);
    }
  }

  /** parseInt of a non-empty run of decimal digits is their value: no white space, no
      sign and no "0x" prefix is found in front of them. */
  lemma ParseIntOfDigits(s: string)
    requires |s| > 0 && IsDecimalDigits(s)
    ensures ParseInt(s) == Some(DigitsValue(s, 10))
  {
    assert '0' <= s[0] <= '9';
    assert |s| >= 2 ==> '0' <= s[1] <= '9';
    ParseIntUnsigned(s);
    DigitPrefixOfDigits(s);
  }

  /** parseInt of a text that starts with neither white space, nor a sign, nor "0x"
      reads the decimal digits at its start. */
  lemma ParseIntUnsigned(s: string)
    requires |s| > 0 && '0' <= s[0] <= '9'
    requires |s| >= 2 ==> '0' <= s[1] <= '9'
    ensures var digits := DigitPrefix(s, 10);
      ParseInt(s) == if |digits| == 0 then None else Some(DigitsValue(digits, 10))
  {
    DigitIsNotSpace(s[0]);
    TrimStartUnspaced(s);
    var t := TrimStart(s);
    assert t == s;
    assert t[0] != '-' && t[0] != '+';
    assert !(|t| >= 2 && t[0] == '0' && (t[1] == 'x' || t[1] == 'X'));
  }

  lemma DigitIsNotSpace(c: char)
    requires '0' <= c <= '9'
    ensures !IsJsSpace(c)
  {
  }

  lemma TrimStartUnspaced(s: string)
    requires |s| > 0 && !IsJsSpace(s[0])
    ensures TrimStart(s) == s
  {
  }

  /** Reading back the decimal text of a non-negative integer gives the integer. */
  lemma ParseIntOfNatToString(n: nat)
    ensures ParseInt(NatToString(n)) == Some(n)
  {
    ParseIntOfDigits(NatToString(n));
    NatToStringValue(n);
  }

  /** A single leading zero does not change what parseInt reads. */
  lemma ParseIntOfPaddedDigit(d: nat)
    requires d < 10
    ensures ParseInt("0" + NatToString(d)) == Some(d)
  {
    var s := ['0', DigitChar(d)];
    assert "0" + NatToString(d) == s;
    PaddedDigitValue(d);
    ParseIntOfDigits(s);
  }

  lemma PaddedDigitValue(d: nat)
    requires d < 10
    ensures IsDecimalDigits(['0', DigitChar(d)]) && DigitsValue(['0', DigitChar(d)], 10) == d
  {
    var s := ['0', DigitChar(d)];
    assert s[..1] == ['0'] && ['0'][..0] == [];
  }
}
