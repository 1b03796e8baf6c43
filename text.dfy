/**
 * The string operations of the Java standard library that the bridge relies on, over
 * `seq<char>`: `Character.isWhitespace`, `String.stripLeading`, `String.trim`,
 * `String.toLowerCase`, `String.startsWith`, `Long.toString` and `Long.parseLong`.
 * Whitespace is classified for the code points 0..255 only. `ToLower` lowers the ASCII
 * letters only: Java's `toLowerCase` also lowers U+00C0..U+00DE (except U+00D7) and the
 * rest of Unicode, and follows the default locale (in a Turkish locale 'I' becomes a
 * dotless i). `ParseLong` accepts the ASCII digits only, where Java's `parseLong` also
 * accepts the decimal digits of other scripts.
 */
module Text {
  import opened Wrappers

  const LONG_MIN: int := -0x8000_0000_0000_0000
  const LONG_MAX: int := 0x7FFF_FFFF_FFFF_FFFF

  /** `Character.isWhitespace` on the code points 0..255: space, U+0009..U+000D and U+001C..U+001F. */
  predicate IsWhitespace(c: char) {
    var n := c as int;
    n == 32 || (9 <= n <= 13) || (28 <= n <= 31)
  }

  /** `String.isBlank`: empty or whitespace only. */
  predicate IsBlank(s: string) {
    forall i :: 0 <= i < |s| ==> IsWhitespace(s[i])
  }

  /** `String.stripLeading`: drops the leading whitespace and nothing else. */
  function StripLeading(s: string): (r: string)
    ensures |r| <= |s| && r == s[|s| - |r|..]
    ensures IsBlank(s[..|s| - |r|])
    ensures r == [] || !IsWhitespace(r[0])
  {
    if s == [] then []
    else if IsWhitespace(s[0]) then StripLeading(s[1..])
    else s
  }

  lemma StripLeadingEmptyIffBlank(s: string)
    ensures StripLeading(s) == [] <==> IsBlank(s)
  {
    var r := StripLeading(s);
    if r == [] {
      assert s[..|s|] == s;
    } else {
      assert r[0] == s[|s| - |r|];
    }
  }

  /** `String.trim` treats every character up to U+0020 as trimmable (unlike `isBlank`). */
  predicate Trimmable(c: char) {
    c as int <= 32
  }

  /** The first position from `i` on that `String.trim` keeps, or `|s|`. */
  function FirstKept(s: string, i: nat): (k: nat)
    requires i <= |s|
    ensures i <= k <= |s|
    ensures forall m :: i <= m < k ==> Trimmable(s[m])
    ensures k == |s| || !Trimmable(s[k])
    decreases |s| - i
  {
    if i == |s| || !Trimmable(s[i]) then i else FirstKept(s, i + 1)
  }

  /** The end of what `String.trim` keeps of `s[i..j]`: everything from it up to `j` is trimmable. */
  function LastKept(s: string, i: nat, j: nat): (k: nat)
    requires i <= j <= |s|
    ensures i <= k <= j
    ensures forall m :: k <= m < j ==> Trimmable(s[m])
    ensures k == i || !Trimmable(s[k - 1])
    decreases j - i
  {
    if j == i || !Trimmable(s[j - 1]) then j else LastKept(s, i, j - 1)
  }

  /** `r` is `s[i..j]`, and everything before `i` and from `j` on is trimmable. */
  predicate TrimmedSlice(s: string, r: string, i: int, j: int) {
    && 0 <= i <= j <= |s| && r == s[i..j]
    && (forall k :: 0 <= k < i ==> Trimmable(s[k]))
    && (forall k :: j <= k < |s| ==> Trimmable(s[k]))
  }

  /**
   * `String.trim`: what is left of `s` once the characters up to U+0020 are dropped from both
   * ends; it neither starts nor ends with one.
   */
  function Trim(s: string): (r: string)
    ensures |r| <= |s|
    ensures exists i, j :: TrimmedSlice(s, r, i, j)
    ensures r == [] || (!Trimmable(r[0]) && !Trimmable(r[|r| - 1]))
    ensures s == [] || (!Trimmable(s[0]) && !Trimmable(s[|s| - 1])) ==> r == s
  {
    var i := FirstKept(s, 0);
    var j := LastKept(s, i, |s|);
    assert TrimmedSlice(s, s[i..j], i, j);
    s[i..j]
  }

  /** `String.toLowerCase` on ASCII: upper-case letters move down by 32, everything else stays. */
  function ToLower(s: string): (r: string)
    ensures |r| == |s|
    ensures forall i :: 0 <= i < |s| ==> ('A' <= s[i] <= 'Z' ==> r[i] as int == s[i] as int + 32)
    ensures forall i :: 0 <= i < |s| ==> (!('A' <= s[i] <= 'Z') ==> r[i] == s[i])
  {
    seq(|s|, i requires 0 <= i < |s| => if 'A' <= s[i] <= 'Z' then (s[i] as int + 32) as char else s[i])
  }

  predicate StartsWith(s: string, prefix: string) {
    |prefix| <= |s| && s[..|prefix|] == prefix
  }

  predicate IsDigit(c: char) {
    '0' <= c <= '9'
  }

  predicate AllDigits(s: string) {
    forall i :: 0 <= i < |s| ==> IsDigit(s[i])
  }

  function Digit(d: nat): (c: char)
    requires d < 10
    ensures IsDigit(c) && c as int - '0' as int == d
  {
    (d + '0' as int) as char
  }

  /** Decimal rendering of a natural number, most significant digit first, with no leading zeros. */
  function NatToDecimal(n: nat): (s: string)
    ensures |s| > 0 && AllDigits(s)
    ensures n > 0 ==> s[0] != '0'
  {
    if n < 10 then [Digit(n)] else NatToDecimal(n / 10) + [Digit(n % 10)]
  }

  /** The value of a string of decimal digits. */
  function DecimalValue(s: string): nat
    requires AllDigits(s)
  {
    if s == [] then 0 else DecimalValue(s[..|s| - 1]) * 10 + (s[|s| - 1] as int - '0' as int)
  }

  lemma {:induction false} DecimalRoundTrip(n: nat)
    ensures DecimalValue(NatToDecimal(n)) == n
  {
    if n >= 10 {
      var s := NatToDecimal(n);
      var front := NatToDecimal(n / 10);
      assert s[..|s| - 1] == front;
      DecimalRoundTrip(n / 10);
    }
  }

  /** `Long.toString`. */
  function LongToString(v: int): (s: string)
    ensures |s| > 0
    ensures v >= 0 ==> AllDigits(s)
  {
    if v < 0 then "-" + NatToDecimal(-v) else NatToDecimal(v)
  }

  /**
   * `Long.parseLong` on ASCII: an optional '+' or '-', then one or more decimal digits,
   * and the value must fit in a signed 64-bit integer; anything else is a
   * `NumberFormatException`, here `None`.
   */
  function ParseLong(s: string): (r: Option<int>)
    ensures r.Some? ==> LONG_MIN <= r.value <= LONG_MAX
    ensures r.Some? ==> s != [] && (s[0] == '-' || s[0] == '+' || IsDigit(s[0])) && AllDigits(s[1..])
    ensures r.Some? ==> |s| > 1 || IsDigit(s[0])
    ensures s == "-" || s == "+" ==> r.None?
    ensures s != [] && AllDigits(s) ==> r == (if DecimalValue(s) <= LONG_MAX then Some(DecimalValue(s)) else None)
    ensures |s| > 1 && s[0] == '-' && AllDigits(s[1..]) ==>
              r == (if DecimalValue(s[1..]) <= -LONG_MIN then Some(-(DecimalValue(s[1..]) as int)) else None)
    ensures |s| > 1 && s[0] == '+' && AllDigits(s[1..]) ==>
              r == (if DecimalValue(s[1..]) <= LONG_MAX then Some(DecimalValue(s[1..])) else None)
  {
    if s == [] then None
    else
      var signed := s[0] == '-' || s[0] == '+';
      var digits := if signed then s[1..] else s;
      if digits == [] || !AllDigits(digits) then None
      else
        var magnitude: int := DecimalValue(digits);
        var v: int := if s[0] == '-' then -magnitude else magnitude;
        if LONG_MIN <= v <= LONG_MAX then Some(v) else None
  }

  /** `Long.parseLong(Long.toString(v)) == v` for every 64-bit value. */
  lemma ParseLongRoundTrip(v: int)
    requires LONG_MIN <= v <= LONG_MAX
    ensures ParseLong(LongToString(v)) == Some(v)
  {
    var s := LongToString(v);
    if v < 0 {
      DecimalRoundTrip(-v);
      assert s[1..] == NatToDecimal(-v);
    } else {
      DecimalRoundTrip(v);
      assert IsDigit(s[0]);
    }
  }
}
