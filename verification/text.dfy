/**
 * Decimal text as Java writes and reads it: `String.valueOf(int)`, `%0Nd` in
 * `String.format`, Java's truncating `/` and `%`, `String.trim` and
 * `Character.isWhitespace`.
 */
module Text {

  predicate IsDigit(c: char) {
    '0' <= c <= '9'
  }

  predicate AllDigits(s: string) {
    forall i :: 0 <= i < |s| ==> IsDigit(s[i])
  }

  function DigitChar(k: int): (c: char)
    requires 0 <= k < 10
    ensures IsDigit(c)
  {
    (('0' as int) + k) as char
  }

  function DigitValue(c: char): (k: int)
    requires IsDigit(c)
    ensures 0 <= k < 10
  {
    (c as int) - ('0' as int)
  }

  lemma DigitRoundTrip(k: int, c: char)
    requires 0 <= k < 10 && IsDigit(c)
    ensures DigitValue(DigitChar(k)) == k
    ensures DigitChar(DigitValue(c)) == c
  {
  }

  function Pow10(k: nat): (p: nat)
    ensures p >= 1
  {
    if k == 0 then 1 else 10 * Pow10(k - 1)
  }

  /** The number a string of decimal digits denotes. */
  function DigitsValue(s: string): (v: nat)
    requires AllDigits(s)
    ensures v < Pow10(|s|)
  {
    if s == [] then 0 else DigitsValue(s[..|s| - 1]) * 10 + DigitValue(s[|s| - 1])
  }

  /**
   * `String.format("%0" + w + "d", n)` for n >= 0: the decimal digits of n,
   * padded on the left with zeros to at least w characters.
   */
  function Decimal(n: nat, w: nat): (r: string)
    ensures AllDigits(r) && |r| >= 1 && |r| >= w
    ensures DigitsValue(r) == n
    ensures w >= 1 && n < Pow10(w) ==> |r| == w
    ensures n >= Pow10(w) ==> r[0] != '0'
    decreases n + w
  {
    if n < 10 && w <= 1 then
      [DigitChar(n)]
    else
      var w' := if w == 0 then 0 else w - 1;
      var prefix := Decimal(n / 10, w');
      var r := prefix + [DigitChar(n % 10)];
      DecimalStep(n, w, prefix, r);
      r
  }

  /** One more digit on the right of the rendering of n / 10. */
  lemma DecimalStep(n: nat, w: nat, prefix: string, r: string)
    requires n >= 10 || w >= 2
    requires AllDigits(prefix) && |prefix| >= 1 && |prefix| >= (if w == 0 then 0 else w - 1)
    requires DigitsValue(prefix) == n / 10
    requires w >= 2 && n / 10 < Pow10(w - 1) ==> |prefix| == w - 1
    requires n / 10 >= Pow10(if w == 0 then 0 else w - 1) ==> prefix[0] != '0'
    requires r == prefix + [DigitChar(n % 10)]
    ensures AllDigits(r) && |r| >= 1 && |r| >= w
    ensures DigitsValue(r) == n
    ensures w >= 1 && n < Pow10(w) ==> |r| == w
    ensures n >= Pow10(w) ==> r[0] != '0'
  {
    assert r[..|r| - 1] == prefix;
    TenthAbove(n, w);
    if w >= 1 {
      assert Pow10(w) == 10 * Pow10(w - 1);
    }
  }

  lemma TenthAbove(n: nat, w: nat)
    requires n >= 10 || w >= 2
    ensures n >= Pow10(w) ==> n / 10 >= Pow10(if w == 0 then 0 else w - 1)
  {
  }

  /** A fixed-width digit string is the padded rendering of its own value. */
  lemma {:induction false} DecimalOfDigits(s: string)
    requires AllDigits(s) && |s| >= 1
    ensures Decimal(DigitsValue(s), |s|) == s
  {
    var p := s[..|s| - 1];
    if |s| == 1 {
      assert p == [];
    } else {
      DecimalOfDigits(p);
      var n := DigitsValue(s);
      assert n / 10 == DigitsValue(p) && n % 10 == DigitValue(s[|s| - 1]);
      assert s == p + [s[|s| - 1]];
    }
  }

  /** `String.valueOf(int)` and `StringBuilder.append(int)`. */
  function IntToString(i: int): (r: string)
    ensures |r| >= 1
    ensures i >= 0 ==> AllDigits(r) && DigitsValue(r) == i
    ensures i < 0 ==> r[0] == '-' && AllDigits(r[1..]) && DigitsValue(r[1..]) == -i
    ensures i == 0 ==> r == "0"
    ensures i > 0 ==> r[0] != '0'
    ensures i < 0 ==> |r| >= 2 && r[1] != '0'
  {
    if i == 0 then
      Decimal(i, 1)
    else
      var d := Decimal(if i < 0 then -i else i, 1);
      assert d[0] != '0' by {
        if |d| == 1 {
          assert d[..0] == [];
        }
      }
      if i < 0 then "-" + d else d
  }

  /** Java's `a / b` for b > 0: the quotient truncated toward zero. */
  function Quot(a: int, b: int): (q: int)
    requires b > 0
    ensures a >= 0 ==> q == a / b
    ensures a <= 0 ==> q <= 0 && a <= q * b < a + b
  {
    if a >= 0 then
      a / b
    else
      var p := (-a) / b;
      assert -a == p * b + (-a) % b;
      assert -p * b == -(p * b);
      -p
  }

  /** `Character.isWhitespace`: the Unicode space, line and paragraph separators other than the no-break spaces, and the ASCII controls U+0009..U+000D and U+001C..U+001F. */
  predicate IsJavaWhitespace(c: char) {
    || c == ' ' || ('\t' <= c <= '\r') || ('\U{1C}' <= c <= '\U{1F}')
    || c == '\U{1680}' || ('\U{2000}' <= c <= '\U{2006}') || ('\U{2008}' <= c <= '\U{200A}')
    || c == '\U{2028}' || c == '\U{2029}' || c == '\U{205F}' || c == '\U{3000}'
  }

  /** `String.isBlank`: empty or only whitespace. */
  predicate IsBlank(s: string) {
    forall i :: 0 <= i < |s| ==> IsJavaWhitespace(s[i])
  }

  /** The characters `String.trim` removes from both ends: every code point up to U+0020. */
  predicate IsTrimmed(c: char) {
    c <= ' '
  }

  function TrimStart(s: string): (r: string)
    ensures |r| <= |s| && r == s[|s| - |r|..]
    ensures r == [] || !IsTrimmed(r[0])
    ensures forall i :: 0 <= i < |s| - |r| ==> IsTrimmed(s[i])
  {
    if s != [] && IsTrimmed(s[0]) then TrimStart(s[1..]) else s
  }

  function TrimEnd(s: string): (r: string)
    ensures |r| <= |s| && r == s[..|r|]
    ensures r == [] || !IsTrimmed(r[|r| - 1])
    ensures forall i :: |r| <= i < |s| ==> IsTrimmed(s[i])
  {
    if s != [] && IsTrimmed(s[|s| - 1]) then TrimEnd(s[..|s| - 1]) else s
  }

  /**
   * `String.trim`: the slice of s left once every character up to U+0020 is
   * removed from both ends.
   */
  function Trim(s: string): (r: string)
    ensures r == [] || (!IsTrimmed(r[0]) && !IsTrimmed(r[|r| - 1]))
    ensures r == [] <==> forall i :: 0 <= i < |s| ==> IsTrimmed(s[i])
    ensures TrimmedSliceAt(s, r, Leading(s))
  {
    var t := TrimStart(s);
    var r := TrimEnd(t);
    TrimmedSliceOf(s, t, r);
    r
  }

  lemma TrimmedSliceOf(s: string, t: string, r: string)
    requires |t| <= |s| && t == s[|s| - |t|..]
    requires forall i :: 0 <= i < |s| - |t| ==> IsTrimmed(s[i])
    requires |r| <= |t| && r == t[..|r|]
    requires forall i :: |r| <= i < |t| ==> IsTrimmed(t[i])
    ensures TrimmedSliceAt(s, r, |s| - |t|)
  {
    var i := |s| - |t|;
    forall k | i + |r| <= k < |s|
      ensures IsTrimmed(s[k])
    {
      assert s[k] == t[k - i];
    }
  }

  /** How many characters `String.trim` drops from the front of s. */
  function Leading(s: string): (i: nat)
    ensures i <= |s| && (i == |s| || !IsTrimmed(s[i]))
  {
    |s| - |TrimStart(s)|
  }

  /** r is s[i..i + |r|], and everything of s before and after it is trimmable. */
  predicate TrimmedSliceAt(s: string, r: string, i: int) {
    && 0 <= i <= |s| - |r| && r == s[i..i + |r|]
    && (forall k :: 0 <= k < i ==> IsTrimmed(s[k]))
    && (forall k :: i + |r| <= k < |s| ==> IsTrimmed(s[k]))
  }
}
