/** C-level text as the harness sees it: the characters behind a `const char *`,
    what `.c_str()` makes of a `std::string`, `strcmp`, the decimal text that
    `operator<<` writes for a number, and the small string helpers the message
    decoder is built from. */
module CText {

  datatype Option<T> = None | Some(value: T)

  /** The characters a `const char *` points to before its terminating NUL. */
  type CString = s: string | '\0' !in s witness ""

  /** `s.c_str()` read back as a C string: everything before the first NUL. */
  function CStr(s: string): (r: CString)
    ensures r <= s
    ensures |r| < |s| ==> s[|r|] == '\0'
    ensures '\0' !in s ==> r == s
  {
    if s == [] || s[0] == '\0' then "" else [s[0]] + CStr(s[1..])
  }

  /** Truncating at the first NUL keeps a NUL-free prefix intact. */
  lemma {:induction false} CStrKeepsCleanPrefix(p: CString, s: string)
    ensures p <= CStr(p + s)
  {
    if p != [] {
      assert (p + s)[0] == p[0];
      assert (p + s)[1..] == p[1..] + s;
      CStrKeepsCleanPrefix(p[1..], s);
    }
  }

  /** The code `strcmp` reads at the head of a C string; the terminator reads as 0. */
  function Head(s: CString): int
  {
    if s == [] then 0 else s[0] as int
  }

  /** `strcmp`: walk both strings while their codes agree; the result is the
      difference of the first codes that do not (the terminator included). */
  function Strcmp(a: CString, b: CString): int
  {
    if a == [] || b == [] || a[0] != b[0] then Head(a) - Head(b)
    else Strcmp(a[1..], b[1..])
  }

  /** `strcmp` reports 0 exactly for strings with the same characters. */
  lemma {:induction false} StrcmpZeroIffEqual(a: CString, b: CString)
    ensures Strcmp(a, b) == 0 <==> a == b
  {
    if a == [] && b == [] {
    } else if a == [] {
      assert b[0] in b;
    } else if b == [] {
      assert a[0] in a;
    } else if a[0] != b[0] {
    } else {
      assert a == [a[0]] + a[1..];
      assert b == [b[0]] + b[1..];
      StrcmpZeroIffEqual(a[1..], b[1..]);
    }
  }

  predicate IsDigit(c: char)
  {
    '0' <= c <= '9'
  }

  predicate AllDigits(s: string)
  {
    forall i :: 0 <= i < |s| ==> IsDigit(s[i])
  }

  function DigitChar(d: nat): (c: char)
    requires d < 10
    ensures IsDigit(c)
  {
    ('0' as int + d) as char
  }

  function DigitValue(c: char): nat
    requires IsDigit(c)
  {
    c as int - '0' as int
  }

  /** A string of digits holds no character that is not a digit. */
  lemma DigitsExclude(s: string, c: char)
    requires AllDigits(s) && !IsDigit(c)
    ensures c !in s
  {
  }

  /** The text `operator<<` writes for an `unsigned long`: the shortest decimal numeral. */
  function NatToDecimal(n: nat): (r: CString)
    ensures r != [] && AllDigits(r)
    ensures r[0] == '0' <==> n == 0
    ensures n == 0 ==> r == "0"
  {
    if n < 10 then [DigitChar(n)] else NatToDecimal(n / 10) + [DigitChar(n % 10)]
  }

  /** The value of a decimal numeral. */
  function ParseDecimal(s: string): nat
    requires AllDigits(s)
  {
    if s == [] then 0 else 10 * ParseDecimal(s[..|s| - 1]) + DigitValue(s[|s| - 1])
  }

  /** Reading back the numeral written for n gives n. */
  lemma {:induction false} DecimalRoundTrip(n: nat)
    ensures ParseDecimal(NatToDecimal(n)) == n
  {
    if n >= 10 {
      var s := NatToDecimal(n / 10);
      assert (s + [DigitChar(n % 10)])[..|s|] == s;
      DecimalRoundTrip(n / 10);
    }
  }

  /** The text `operator<<` writes for an `int`: a minus sign for negatives, then the magnitude. */
  function IntToDecimal(i: int): (r: CString)
    ensures r != [] && (r[0] == '-' <==> i < 0)
    ensures IsIntNumeral(r)
    ensures var d := if i < 0 then r[1..] else r; d != [] && (d[0] == '0' ==> d == "0")
  {
    if i < 0 then "-" + NatToDecimal(-i) else NatToDecimal(i)
  }

  predicate IsIntNumeral(s: string)
  {
    (s != [] && s[0] == '-' && AllDigits(s[1..])) || AllDigits(s)
  }

  /** The value of a possibly negative decimal numeral. */
  function ParseInt(s: string): int
    requires IsIntNumeral(s)
  {
    if s != [] && s[0] == '-' then -(ParseDecimal(s[1..]) as int) else ParseDecimal(s)
  }

  /** Reading back the numeral written for i gives i. */
  lemma IntRoundTrip(i: int)
    ensures ParseInt(IntToDecimal(i)) == i
  {
    if i < 0 {
      var d := NatToDecimal(-i);
      assert ("-" + d)[0] == '-';
      assert ("-" + d)[1..] == d;
      DecimalRoundTrip(-i);
    } else {
      assert IsDigit(NatToDecimal(i)[0]);
      DecimalRoundTrip(i);
    }
  }

  /** Index of the first c in s, or |s| when s has none. */
  function IndexOf(s: string, c: char): (k: nat)
    ensures k <= |s|
    ensures k < |s| ==> s[k] == c
    ensures c !in s[..k]
  {
    if s == [] || s[0] == c then 0
    else
      assert s[..1 + IndexOf(s[1..], c)] == [s[0]] + s[1..][..IndexOf(s[1..], c)];
      1 + IndexOf(s[1..], c)
  }

  lemma IndexOfAfter(a: string, c: char, b: string)
    requires c !in a
    ensures IndexOf(a + [c] + b, c) == |a|
  {
    assert (a + [c] + b)[|a|] == c;
  }

  /** The number of digits s starts with. */
  function DigitRun(s: string): (k: nat)
    ensures k <= |s| && AllDigits(s[..k])
    ensures k < |s| ==> !IsDigit(s[k])
  {
    if s == [] || !IsDigit(s[0]) then 0
    else
      assert s[..1 + DigitRun(s[1..])] == [s[0]] + s[1..][..DigitRun(s[1..])];
      1 + DigitRun(s[1..])
  }

  lemma DigitRunOf(d: string, r: string)
    requires AllDigits(d)
    requires r != [] && !IsDigit(r[0])
    ensures DigitRun(d + r) == |d|
  {
    assert (d + r)[|d|] == r[0];
  }

  /** The rest of s after the prefix p, if s starts with p. */
  function StripPrefix(s: string, p: string): Option<string>
  {
    if p <= s then Some(s[|p|..]) else None
  }

  /** The part of s before the suffix q, if s ends with q. */
  function StripSuffix(s: string, q: string): Option<string>
  {
    if EndsWith(s, q) then Some(s[..|s| - |q|]) else None
  }

  predicate EndsWith(s: string, q: string)
  {
    |q| <= |s| && s[|s| - |q|..] == q
  }

  /** t occurs somewhere in s. */
  predicate Contains(s: string, t: string)
  {
    exists i :: 0 <= i <= |s| && t <= s[i..]
  }

  lemma Associative(a: string, b: string, c: string)
    ensures a + b + c == a + (b + c)
  {
  }

  lemma PrefixOfAppend(p: string, d: string)
    ensures p <= p + d
  {
    assert (p + d)[..|p|] == p;
  }

  lemma SuffixOfAppend(p: string, d: string)
    ensures EndsWith(p + d, d)
  {
    assert (p + d)[|p|..] == d;
  }

  lemma StripPrefixOf(p: string, r: string)
    ensures StripPrefix(p + r, p) == Some(r)
  {
    assert p <= p + r;
    assert (p + r)[|p|..] == r;
  }

  lemma StripSuffixOf(r: string, q: string)
    ensures StripSuffix(r + q, q) == Some(r)
  {
    assert (r + q)[|r|..] == q;
    assert (r + q)[..|r|] == r;
  }
}
