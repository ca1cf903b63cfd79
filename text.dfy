/** Character and string operations the application relies on: case folding (Python's
    `str.upper()`, PostgreSQL's case-insensitive `ILIKE`), substring search, `", ".join(...)`
    and the decimal text of an integer in an f-string.

    Case folding covers the ASCII letters and the Latin-1 letters U+00C0..U+00DE with their
    lower-case partners U+00E0..U+00FE (the multiplication and division signs excepted), which
    is what Portuguese product and role names use. */
module Text {

  predicate IsUpperLetter(c: char) {
    ('A' <= c <= 'Z') || ('\U{00C0}' <= c <= '\U{00DE}' && c != '\U{00D7}')
  }

  predicate IsLowerLetter(c: char) {
    ('a' <= c <= 'z') || ('\U{00E0}' <= c <= '\U{00FE}' && c != '\U{00F7}')
  }

  function ToLowerChar(c: char): char {
    if IsUpperLetter(c) then (c as int + 32) as char else c
  }

  function ToUpperChar(c: char): char {
    if IsLowerLetter(c) then (c as int - 32) as char else c
  }

  /** Upper-casing and lower-casing are inverse on letters and leave every other character alone. */
  lemma CharCaseRoundTrip(c: char)
    ensures IsUpperLetter(c) ==> IsLowerLetter(ToLowerChar(c)) && ToUpperChar(ToLowerChar(c)) == c
    ensures IsLowerLetter(c) ==> IsUpperLetter(ToUpperChar(c)) && ToLowerChar(ToUpperChar(c)) == c
    ensures !IsUpperLetter(c) && !IsLowerLetter(c) ==> ToLowerChar(c) == c && ToUpperChar(c) == c
  {
  }

  /** Python's `s.upper()` on the modelled alphabet. */
  function Upper(s: string): (r: string)
    ensures |r| == |s|
    ensures forall i :: 0 <= i < |s| ==> r[i] == ToUpperChar(s[i])
    ensures forall i :: 0 <= i < |r| ==> !IsLowerLetter(r[i])
  {
    seq(|s|, i requires 0 <= i < |s| => ToUpperChar(s[i]))
  }

  /** The lower-cased text PostgreSQL compares in `ILIKE`. */
  function Lower(s: string): (r: string)
    ensures |r| == |s|
    ensures forall i :: 0 <= i < |s| ==> r[i] == ToLowerChar(s[i])
    ensures forall i :: 0 <= i < |r| ==> !IsUpperLetter(r[i])
  {
    seq(|s|, i requires 0 <= i < |s| => ToLowerChar(s[i]))
  }

  /** Upper-casing twice is upper-casing once. */
  lemma UpperIdempotent(s: string)
    ensures Upper(Upper(s)) == Upper(s)
  {
  }

  /** Upper-casing ignores how the input was cased: two strings equal up to case upper-case alike. */
  lemma UpperIgnoresCase(a: string, b: string)
    requires Lower(a) == Lower(b)
    ensures Upper(a) == Upper(b)
  {
  }

  /** Lower-casing the upper-cased text gives the lower-cased text: `ILIKE` cannot tell them apart. */
  lemma LowerOfUpper(s: string)
    ensures Lower(Upper(s)) == Lower(s)
  {
  }

  /** `t` occurs in `s` starting at position `k`. */
  predicate OccursAt(s: string, t: string, k: int) {
    0 <= k && k + |t| <= |s| && s[k..k + |t|] == t
  }

  /** `t` is a substring of `s` (Python's `t in s`, SQL's `LIKE '%t%'` without wildcards). */
  predicate Contains(s: string, t: string)
    decreases |s|
  {
    t <= s || (|s| > 0 && Contains(s[1..], t))
  }

  /** `Contains` holds exactly when the text occurs at some position. */
  lemma {:induction false} ContainsOccurs(s: string, t: string)
    ensures Contains(s, t) <==> exists k :: OccursAt(s, t, k)
    decreases |s|
  {
    if t <= s {
      assert OccursAt(s, t, 0);
    } else if |s| == 0 {
      assert forall k :: !OccursAt(s, t, k);
    } else {
      ContainsOccurs(s[1..], t);
      if Contains(s[1..], t) {
        var k :| OccursAt(s[1..], t, k);
        assert s[k + 1..k + 1 + |t|] == s[1..][k..k + |t|];
        assert OccursAt(s, t, k + 1);
      } else {
        forall k
          ensures !OccursAt(s, t, k)
        {
          if k == 0 && |t| <= |s| {
            assert s[0..|t|] == s[..|t|];
          } else if 1 <= k && k + |t| <= |s| {
            assert s[1..][k - 1..k - 1 + |t|] == s[k..k + |t|];
            assert !OccursAt(s[1..], t, k - 1);
          }
        }
      }
    }
  }

  /** The parts joined with `sep` between consecutive parts (Python's `sep.join(parts)`). */
  function Join(parts: seq<string>, sep: string): string
    decreases |parts|
  {
    if |parts| == 0 then ""
    else if |parts| == 1 then parts[0]
    else parts[0] + sep + Join(parts[1..], sep)
  }

  /** A join of parts ends with the last part's last character. */
  lemma {:induction false} JoinEndsWithLast(parts: seq<string>, sep: string)
    requires |parts| > 0 && |parts[|parts| - 1]| > 0
    ensures var j := Join(parts, sep);
      |j| > 0 && j[|j| - 1] == parts[|parts| - 1][|parts[|parts| - 1]| - 1]
    decreases |parts|
  {
    if |parts| > 1 {
      JoinEndsWithLast(parts[1..], sep);
    }
  }

  /** A join starts with its first part. */
  lemma JoinStartsWithFirst(parts: seq<string>, sep: string)
    requires |parts| > 0
    ensures parts[0] <= Join(parts, sep)
  {
  }

  /** An occurrence stays an occurrence when text is added on either side. */
  lemma OccursInConcat(a: string, b: string, t: string, k: int)
    ensures OccursAt(a, t, k) ==> OccursAt(a + b, t, k)
    ensures OccursAt(b, t, k) ==> OccursAt(a + b, t, |a| + k)
  {
  }

  /** An occurrence inside the second of four concatenated texts is an occurrence in the whole. */
  lemma OccursInSecond(a: string, b: string, c: string, d: string, t: string, k: int)
    requires OccursAt(b, t, k)
    ensures OccursAt(a + b + c + d, t, |a| + k)
  {
    OccursInConcat(a, b, t, k);
    OccursInConcat(a + b, c, t, |a| + k);
    OccursInConcat(a + b + c, d, t, |a| + k);
  }

  /** Every part occurs in the join. */
  lemma {:induction false} JoinHasPart(parts: seq<string>, sep: string, k: int)
    requires 0 <= k < |parts|
    ensures exists pos :: OccursAt(Join(parts, sep), parts[k], pos)
    decreases |parts|
  {
    if |parts| == 1 {
      assert Join(parts, sep)[0..|parts[0]|] == parts[0];
      assert OccursAt(Join(parts, sep), parts[k], 0);
    } else if k == 0 {
      assert Join(parts, sep)[0..|parts[0]|] == parts[0];
      assert OccursAt(Join(parts, sep), parts[k], 0);
    } else {
      JoinHasPart(parts[1..], sep, k - 1);
      var pos :| OccursAt(Join(parts[1..], sep), parts[1..][k - 1], pos);
      OccursInConcat(parts[0] + sep, Join(parts[1..], sep), parts[k], pos);
      assert OccursAt(Join(parts, sep), parts[k], |parts[0] + sep| + pos);
    }
  }

  predicate IsDigit(c: char) {
    '0' <= c <= '9'
  }

  function DigitChar(d: nat): (c: char)
    requires d < 10
    ensures IsDigit(c) && c as int - '0' as int == d
  {
    ('0' as int + d) as char
  }

  /** The decimal digits of `n`, most significant first, with no leading zero. */
  function NatText(n: nat): (r: string)
    ensures |r| > 0
    ensures forall i :: 0 <= i < |r| ==> IsDigit(r[i])
    ensures r[0] == '0' ==> n == 0
    decreases n
  {
    if n < 10 then [DigitChar(n)] else NatText(n / 10) + [DigitChar(n % 10)]
  }

  /** Python's `str(n)` for an integer, as an f-string prints it. */
  function IntText(n: int): (r: string)
    ensures |r| > 0
    ensures r[0] == '-' <==> n < 0
    ensures forall i :: 1 <= i < |r| ==> IsDigit(r[i])
  {
    if n < 0 then "-" + NatText(-n) else NatText(n)
  }

  /** The number a string of decimal digits denotes. */
  function DigitsValue(s: string): int
    decreases |s|
  {
    if |s| == 0 then 0
    else DigitsValue(s[..|s| - 1]) * 10 + (s[|s| - 1] as int - '0' as int)
  }

  /** The number an integer's text denotes (what Python's `int(...)` reads back). */
  function IntValue(s: string): int {
    if |s| > 0 && s[0] == '-' then -DigitsValue(s[1..]) else DigitsValue(s)
  }

  lemma {:induction false} NatTextRoundTrip(n: nat)
    ensures DigitsValue(NatText(n)) == n
    decreases n
  {
    if n >= 10 {
      NatTextRoundTrip(n / 10);
      var r := NatText(n);
      assert r[..|r| - 1] == NatText(n / 10);
    }
  }

  /** Reading back an integer's printed text gives the integer. */
  lemma IntTextRoundTrip(n: int)
    ensures IntValue(IntText(n)) == n
  {
    if n < 0 {
      NatTextRoundTrip(-n);
      assert IntText(n)[1..] == NatText(-n);
    } else {
      NatTextRoundTrip(n);
    }
  }
}
