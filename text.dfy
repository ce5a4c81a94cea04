/** String helpers shared by the frontend (TypeScript) and backend (Python) models.
    Strings are `seq<char>` over Unicode scalar values, so `|s|` is Python's `len`;
    JavaScript's `.length` counts UTF-16 code units and is `Utf16Length`. */
module Text {

  /** WhiteSpace and LineTerminator code points, the characters JavaScript's `trim` removes. */
  predicate IsJsSpace(c: char) {
    || c == '\t' || c == '\n' || c == '\U{000B}' || c == '\U{000C}' || c == '\r' || c == ' '
    || c == '\U{00A0}' || c == '\U{1680}' || ('\U{2000}' <= c <= '\U{200A}')
    || c == '\U{2028}' || c == '\U{2029}' || c == '\U{202F}' || c == '\U{205F}'
    || c == '\U{3000}' || c == '\U{FEFF}'
  }

  /** Characters for which Python's `str.isspace` holds, the characters `str.strip()` removes. */
  predicate IsPySpace(c: char) {
    || ('\t' <= c <= '\r') || ('\U{001C}' <= c <= '\U{001F}') || c == ' '
    || c == '\U{0085}' || c == '\U{00A0}' || c == '\U{1680}' || ('\U{2000}' <= c <= '\U{200A}')
    || c == '\U{2028}' || c == '\U{2029}' || c == '\U{202F}' || c == '\U{205F}' || c == '\U{3000}'
  }

  /** Length of the longest prefix of `s` whose characters all satisfy `p`. */
  function LeadingCount(s: string, p: char -> bool): (k: nat)
    ensures k <= |s| && (k == |s| || !p(s[k]))
    ensures forall i :: 0 <= i < k ==> p(s[i])
  {
    if |s| > 0 && p(s[0]) then 1 + LeadingCount(s[1..], p) else 0
  }

  /** Start of the longest suffix of `s` whose characters all satisfy `p`. */
  function TrailingStart(s: string, p: char -> bool): (k: nat)
    ensures k <= |s| && (k == 0 || !p(s[k - 1]))
    ensures forall i :: k <= i < |s| ==> p(s[i])
  {
    if |s| > 0 && p(s[|s| - 1]) then TrailingStart(s[..|s| - 1], p) else |s|
  }

  /** Removes the longest prefix whose characters all satisfy `p` (Python's `lstrip(chars)`). */
  function LStrip(s: string, p: char -> bool): string {
    s[LeadingCount(s, p)..]
  }

  /** Removes the longest suffix whose characters all satisfy `p` (Python's `rstrip(chars)`). */
  function RStrip(s: string, p: char -> bool): string {
    s[..TrailingStart(s, p)]
  }

  /** Removes both the longest prefix and the longest suffix of characters satisfying `p`. */
  function Strip(s: string, p: char -> bool): (r: string)
  {
    RStrip(LStrip(s, p), p)
  }

  /** JavaScript's `s.trim()`. */
  function Trim(s: string): string {
    Strip(s, IsJsSpace)
  }

  /** Python's `s.strip()` with no argument. */
  function PyStrip(s: string): string {
    Strip(s, IsPySpace)
  }

  /** `sub` occurs in `s` starting at position `k`. */
  predicate OccursAt(s: string, sub: string, k: int) {
    0 <= k <= |s| - |sub| && s[k..k + |sub|] == sub
  }

  /** What `Strip` returns is a contiguous piece of its argument, with every character
      around it satisfying `p`, and it neither starts nor ends with such a character. */
  lemma StripIsInfix(s: string, p: char -> bool)
    ensures var r := Strip(s, p);
      exists k :: OccursAt(s, r, k)
        && (forall i :: 0 <= i < k ==> p(s[i]))
        && (forall i :: k + |r| <= i < |s| ==> p(s[i]))
    ensures var r := Strip(s, p); r == [] || (!p(r[0]) && !p(r[|r| - 1]))
  {
    var k := LeadingCount(s, p);
    var l := s[k..];
    var r := RStrip(l, p);
    assert r == s[k..k + |r|];
    forall i | k + |r| <= i < |s| ensures p(s[i]) {
      assert s[i] == l[i - k];
    }
    assert r == Strip(s, p);
    assert OccursAt(s, r, k)
      && (forall i :: 0 <= i < k ==> p(s[i]))
      && (forall i :: k + |r| <= i < |s| ==> p(s[i]));
  }

  /** A string trims to the empty string exactly when every character of it is JavaScript
      whitespace, so `!s.trim()` is "blank". */
  lemma {:induction false} TrimEmptyIff(s: string)
    ensures Trim(s) == [] <==> forall i :: 0 <= i < |s| ==> IsJsSpace(s[i])
  {
    var k := LeadingCount(s, IsJsSpace);
    var l := s[k..];
    if !forall i :: 0 <= i < |s| ==> IsJsSpace(s[i]) {
      var i :| 0 <= i < |s| && !IsJsSpace(s[i]);
      assert i >= k;
      assert l[i - k] == s[i];
    }
  }

  /** Python's `s[:n]` for a non-negative `n`. */
  function Take(s: string, n: nat): (r: string)
    ensures |r| == if n < |s| then n else |s|
    ensures r == s[..|r|]
  {
    if n < |s| then s[..n] else s
  }

  /** JavaScript's `s.length`: code points outside the Basic Multilingual Plane take two
      UTF-16 code units. */
  function Utf16Length(s: string): (n: nat)
    ensures |s| <= n <= 2 * |s|
  {
    if s == [] then 0 else (if s[0] as int >= 0x1_0000 then 2 else 1) + Utf16Length(s[1..])
  }

  /** Over the Basic Multilingual Plane the two notions of length agree. */
  lemma {:induction false} Utf16LengthBmp(s: string)
    requires forall i :: 0 <= i < |s| ==> s[i] as int < 0x1_0000
    ensures Utf16Length(s) == |s|
  {
    if s != [] {
      assert s[0] as int < 0x1_0000;
      Utf16LengthBmp(s[1..]);
    }
  }

  /** Substring test, Python's `sub in s`. */
  predicate Contains(s: string, sub: string)
    decreases |s|
  {
    |sub| <= |s| && (s[..|sub|] == sub || Contains(s[1..], sub))
  }

  /** `Contains` holds exactly when `sub` occurs at some position of `s`. */
  lemma {:induction false} ContainsIff(s: string, sub: string)
    ensures Contains(s, sub) <==> exists i :: OccursAt(s, sub, i)
    decreases |s|
  {
    if |sub| <= |s| && s[..|sub|] != sub {
      ContainsIff(s[1..], sub);
      if exists i :: OccursAt(s, sub, i) {
        var i :| OccursAt(s, sub, i);
        assert i != 0;
        assert s[1..][i - 1..i - 1 + |sub|] == s[i..i + |sub|];
        assert OccursAt(s[1..], sub, i - 1);
      }
      if exists i :: OccursAt(s[1..], sub, i) {
        var i :| OccursAt(s[1..], sub, i);
        assert s[i + 1..i + 1 + |sub|] == s[1..][i..i + |sub|];
        assert OccursAt(s, sub, i + 1);
      }
    } else if |sub| <= |s| {
      assert OccursAt(s, sub, 0);
    }
  }

  /** Lower-cases the ASCII letters A-Z and leaves every other character alone. */
  function AsciiLower(s: string): (r: string)
    ensures |r| == |s|
  {
    seq(|s|, i requires 0 <= i < |s| => if 'A' <= s[i] <= 'Z' then (s[i] as int + 32) as char else s[i])
  }

  predicate IsDigit(c: char) {
    '0' <= c <= '9'
  }

  predicate IsUpper(c: char) {
    'A' <= c <= 'Z'
  }

  predicate IsLower(c: char) {
    'a' <= c <= 'z'
  }

  /** Some character of `s` satisfies `p` (a one-class regular expression test such as `/[A-Z]/`). */
  predicate Any(s: string, p: char -> bool) {
    exists i :: 0 <= i < |s| && p(s[i])
  }

  /** Decimal rendering of a natural number, as `n.toString()` and `str(n)` produce it. */
  function Decimal(n: nat): (r: string)
    ensures |r| > 0
    ensures forall i :: 0 <= i < |r| ==> IsDigit(r[i])
  {
    if n < 10 then [('0' as int + n) as char] else Decimal(n / 10) + [('0' as int + n % 10) as char]
  }

  function DigitValue(c: char): nat
    requires IsDigit(c)
  {
    c as int - '0' as int
  }

  /** Reads a string of decimal digits back into a number. */
  function ParseDecimal(s: string): nat
    requires forall i :: 0 <= i < |s| ==> IsDigit(s[i])
  {
    if s == [] then 0 else 10 * ParseDecimal(s[..|s| - 1]) + DigitValue(s[|s| - 1])
  }

  /** Reading back a rendered number gives the number: rendering is a round trip. */
  lemma {:induction false} DecimalRoundTrip(n: nat)
    ensures ParseDecimal(Decimal(n)) == n
  {
    if n >= 10 {
      var d := Decimal(n);
      assert d[..|d| - 1] == Decimal(n / 10);
      DecimalRoundTrip(n / 10);
    }
  }

  /** Distinct numbers render to distinct strings. */
  lemma DecimalInjective(m: nat, n: nat)
    requires Decimal(m) == Decimal(n)
    ensures m == n
  {
    DecimalRoundTrip(m);
    DecimalRoundTrip(n);
  }
}
