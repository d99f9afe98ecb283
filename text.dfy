/** Strings as the modelled Python code builds them: decimal rendering of
    integers (`str(n)`, `f"{n:02}"`), `"sep".join(...)`, `str.split(c)`,
    `str.upper()` and `str.startswith(...)`.  Only ASCII is modelled:
    `upper` maps 'a'..'z' and leaves every other character alone. */
module Text {

  predicate IsDigit(c: char) {
    '0' <= c <= '9'
  }

  predicate AllDigits(s: string) {
    forall i :: 0 <= i < |s| ==> IsDigit(s[i])
  }

  function Digit(d: nat): (c: char)
    requires d < 10
    ensures IsDigit(c)
  {
    "0123456789"[d]
  }

  function DigitValue(c: char): (d: nat)
    requires IsDigit(c)
    ensures d < 10
  {
    (c as int - '0' as int) as nat
  }

  lemma DigitRoundTrip(d: nat)
    requires d < 10
    ensures DigitValue(Digit(d)) == d
  {
  }

  function Pow10(w: nat): (p: nat)
    ensures p >= 1
  {
    if w == 0 then 1 else 10 * Pow10(w - 1)
  }

  /** `str(n)` for a non-negative integer: no leading zeros, "0" for zero. */
  function NatToString(n: nat): (s: string)
    ensures |s| >= 1 && AllDigits(s)
  {
    if n < 10 then [Digit(n)] else NatToString(n / 10) + [Digit(n % 10)]
  }

  /** `str(i)` for any integer. */
  function IntToString(i: int): (s: string)
    ensures |s| >= 1
  {
    if i < 0 then "-" + NatToString(-i) else NatToString(i)
  }

  function Zeros(k: nat): (s: string)
    ensures |s| == k && AllDigits(s)
    ensures forall j :: 0 <= j < k ==> s[j] == '0'
  {
    if k == 0 then "" else "0" + Zeros(k - 1)
  }

  /** `f"{n:0{w}}"` for n >= 0 (also `%0{w}d` and `strftime`'s `%m`, `%d`, `%H`):
      the decimal digits, left-padded with zeros to at least w characters. */
  function ZeroPadded(n: nat, w: nat): (s: string)
    ensures AllDigits(s)
  {
    PadZeros(NatToString(n), w)
  }

  /** Digits left-padded with zeros to at least w characters. */
  function PadZeros(digits: string, w: nat): (s: string)
    requires AllDigits(digits)
    ensures AllDigits(s)
  {
    if |digits| >= w then digits else Zeros(w - |digits|) + digits
  }

  /** `f"{i:02}"`: the sign counts towards the width, so a negative number is
      its sign and its digits, and a non-negative one is zero-padded to 2. */
  function Format02(i: int): (s: string)
    ensures |s| >= 2
  {
    if i < 0 then "-" + NatToString(-i) else ZeroPadded(i, 2)
  }

  /** The value of a string of decimal digits; leading zeros do not count. */
  function DigitsValue(s: string): nat
    requires AllDigits(s)
  {
    if s == [] then 0 else DigitsValue(s[..|s| - 1]) * 10 + DigitValue(s[|s| - 1])
  }

  lemma {:induction false} NatToStringRoundTrip(n: nat)
    ensures DigitsValue(NatToString(n)) == n
  {
    if n >= 10 {
      var s := NatToString(n);
      assert s[..|s| - 1] == NatToString(n / 10);
      NatToStringRoundTrip(n / 10);
    }
  }

  lemma {:induction false} NatToStringLength(n: nat, w: nat)
    requires 1 <= w && n < Pow10(w)
    ensures |NatToString(n)| <= w
  {
    if n >= 10 {
      assert w >= 2;
      NatToStringLength(n / 10, w - 1);
    }
  }

  lemma {:induction false} LeadingZerosValue(k: nat, s: string)
    requires AllDigits(s)
    ensures DigitsValue(Zeros(k) + s) == DigitsValue(s)
  {
    if s == [] {
      assert Zeros(k) + s == Zeros(k);
      ZerosValue(k);
    } else {
      var t := Zeros(k) + s;
      assert t[..|t| - 1] == Zeros(k) + s[..|s| - 1];
      LeadingZerosValue(k, s[..|s| - 1]);
    }
  }

  lemma {:induction false} ZerosValue(k: nat)
    ensures DigitsValue(Zeros(k)) == 0
  {
    if k > 0 {
      assert Zeros(k)[..k - 1] == Zeros(k - 1);
      ZerosValue(k - 1);
    }
  }

  /** Zero padding to a fixed width is undone by reading the digits back, and
      a number below 10^w pads to exactly w characters. */
  lemma ZeroPaddedRoundTrip(n: nat, w: nat)
    requires 1 <= w && n < Pow10(w)
    ensures |ZeroPadded(n, w)| == w
    ensures DigitsValue(ZeroPadded(n, w)) == n
  {
    NatToStringLength(n, w);
    ZeroPaddedValue(n, w);
  }

  /** Reading the digits of a zero-padded number gives the number back. */
  lemma ZeroPaddedValue(n: nat, w: nat)
    ensures DigitsValue(ZeroPadded(n, w)) == n
  {
    NatToStringRoundTrip(n);
    PadZerosValue(NatToString(n), w);
  }

  lemma PadZerosValue(digits: string, w: nat)
    requires AllDigits(digits)
    ensures DigitsValue(PadZeros(digits, w)) == DigitsValue(digits)
  {
    if |digits| < w {
      LeadingZerosValue(w - |digits|, digits);
      assert PadZeros(digits, w) == Zeros(w - |digits|) + digits;
    } else {
      assert PadZeros(digits, w) == digits;
    }
  }

  /** `sep.join(parts)`. */
  function Join(parts: seq<string>, sep: string): string {
    if |parts| == 0 then ""
    else if |parts| == 1 then parts[0]
    else parts[0] + sep + Join(parts[1..], sep)
  }

  function FirstIndexOf(s: string, c: char): (i: nat)
    requires c in s
    ensures i < |s| && s[i] == c && c !in s[..i]
  {
    if s[0] == c then 0 else 1 + FirstIndexOf(s[1..], c)
  }

  /** `s.split(c)` for a one-character separator. */
  function Split(s: string, c: char): (parts: seq<string>)
    ensures |parts| >= 1
    decreases |s|
  {
    if c !in s then [s]
    else
      var i := FirstIndexOf(s, c);
      [s[..i]] + Split(s[i + 1..], c)
  }

  /** Splitting a joined text on its separator gives the parts back, as long
      as no part contains the separator. */
  lemma {:induction false} SplitJoin(parts: seq<string>, c: char)
    requires |parts| >= 1
    requires forall k :: 0 <= k < |parts| ==> c !in parts[k]
    ensures Split(Join(parts, [c]), c) == parts
  {
    if |parts| > 1 {
      var text := Join(parts, [c]);
      var rest := Join(parts[1..], [c]);
      assert text == parts[0] + [c] + rest;
      assert text[|parts[0]|] == c;
      assert text[..|parts[0]|] == parts[0];
      assert c !in text[..|parts[0]|];
      assert FirstIndexOf(text, c) == |parts[0]|;
      assert text[|parts[0]| + 1..] == rest;
      SplitJoin(parts[1..], c);
    }
  }

  lemma {:induction false} JoinSnoc(parts: seq<string>, x: string, sep: string)
    requires |parts| >= 1
    ensures Join(parts + [x], sep) == Join(parts, sep) + sep + x
  {
    if |parts| > 1 {
      assert (parts + [x])[1..] == parts[1..] + [x];
      JoinSnoc(parts[1..], x, sep);
    }
  }

  /** A joined text ends with its last part. */
  lemma {:induction false} JoinEndsWith(parts: seq<string>, sep: string)
    requires |parts| >= 1
    ensures var j := Join(parts, sep); var last := parts[|parts| - 1];
      |last| <= |j| && j[|j| - |last|..] == last
  {
    if |parts| > 1 {
      JoinEndsWith(parts[1..], sep);
      var j := Join(parts, sep);
      var rest := Join(parts[1..], sep);
      assert j == parts[0] + sep + rest;
      assert j[|j| - |rest|..] == rest;
    }
  }

  lemma {:induction false} JoinContains(parts: seq<string>, c: char)
    requires forall k :: 0 <= k < |parts| ==> c !in parts[k]
    ensures |parts| == 1 ==> c !in Join(parts, [c])
    ensures |parts| >= 2 ==> c in Join(parts, [c])
  {
    if |parts| >= 2 {
      assert Join(parts, [c]) == parts[0] + [c] + Join(parts[1..], [c]);
      assert Join(parts, [c])[|parts[0]|] == c;
    }
  }

  function UpperChar(c: char): (u: char)
    ensures !('a' <= u <= 'z')
  {
    if 'a' <= c <= 'z' then (c as int - 'a' as int + 'A' as int) as char else c
  }

  /** `s.upper()` restricted to ASCII letters. */
  function Upper(s: string): (u: string)
    ensures |u| == |s|
    ensures forall i :: 0 <= i < |s| ==> u[i] == UpperChar(s[i])
  {
    if s == [] then [] else [UpperChar(s[0])] + Upper(s[1..])
  }

  predicate StartsWith(s: string, prefix: string) {
    |prefix| <= |s| && s[..|prefix|] == prefix
  }
}
