/**
 * String operations the TypeScript sources rely on: `trim`, the regex class `\s`,
 * `toUpperCase`/`toLowerCase` (on ASCII letters), `startsWith`, `includes`,
 * `split` on one character, and decimal rendering of numbers.
 */
module Text {
  import opened Wrappers

  /** The characters ECMAScript counts as white space or line terminators
      (what `trim` removes and what `\s` matches). */
  const WhiteSpaceChars: seq<char> := [
    '\t', '\n', '\U{000B}', '\U{000C}', '\r', ' ', '\U{00A0}', '\U{1680}',
    '\U{2000}', '\U{2001}', '\U{2002}', '\U{2003}', '\U{2004}', '\U{2005}',
    '\U{2006}', '\U{2007}', '\U{2008}', '\U{2009}', '\U{200A}',
    '\U{2028}', '\U{2029}', '\U{202F}', '\U{205F}', '\U{3000}', '\U{FEFF}'
  ]

  predicate IsWhiteSpace(c: char) {
    c in WhiteSpaceChars
  }

  predicate HasWhiteSpace(s: string) {
    exists i :: 0 <= i < |s| && IsWhiteSpace(s[i])
  }

  predicate IsDigit(c: char) { '0' <= c <= '9' }

  predicate IsAsciiUpper(c: char) { 'A' <= c <= 'Z' }

  predicate IsAsciiLower(c: char) { 'a' <= c <= 'z' }

  predicate IsAsciiLetter(c: char) { IsAsciiUpper(c) || IsAsciiLower(c) }

  predicate AllDigits(s: string) {
    forall i :: 0 <= i < |s| ==> IsDigit(s[i])
  }

  /** The end of the run of white space that starts at `k`. */
  function LeadingEnd(s: string, k: nat): (e: nat)
    requires k <= |s|
    ensures k <= e <= |s|
    ensures forall i :: k <= i < e ==> IsWhiteSpace(s[i])
    ensures e < |s| ==> !IsWhiteSpace(s[e])
    decreases |s| - k
  {
    if k == |s| || !IsWhiteSpace(s[k]) then k else LeadingEnd(s, k + 1)
  }

  /** The start of the run of white space that ends just before `k`. */
  function TrailingStart(s: string, k: nat): (b: nat)
    requires k <= |s|
    ensures b <= k
    ensures forall i :: b <= i < k ==> IsWhiteSpace(s[i])
    ensures b > 0 ==> !IsWhiteSpace(s[b - 1])
  {
    if k == 0 || !IsWhiteSpace(s[k - 1]) then k else TrailingStart(s, k - 1)
  }

  /** `s.trim()`: the part between the leading and the trailing white space. */
  function Trim(s: string): (r: string)
    ensures |r| <= |s|
  {
    var first := LeadingEnd(s, 0);
    var last := TrailingStart(s, |s|);
    if first < last then s[first..last] else ""
  }

  /** The trimmed string starts and ends with a non-white character, and it is
      empty exactly when the whole string is white space. */
  lemma TrimProperties(s: string)
    ensures var r := Trim(s);
      && (r != [] ==> !IsWhiteSpace(r[0]) && !IsWhiteSpace(r[|r| - 1]))
      && (r == [] <==> forall i :: 0 <= i < |s| ==> IsWhiteSpace(s[i]))
  {
    var first := LeadingEnd(s, 0);
    var last := TrailingStart(s, |s|);
    if first < last {
      var r := s[first..last];
      assert r[0] == s[first] && r[|r| - 1] == s[last - 1];
      assert !IsWhiteSpace(s[first]);
    } else {
      assert forall i :: 0 <= i < |s| ==> IsWhiteSpace(s[i]);
    }
  }

  /** A string that is empty after `trim()`: what the sources test with `!value.trim()`. */
  predicate IsBlank(s: string) {
    Trim(s) == []
  }

  lemma TrimIdempotent(s: string)
    ensures Trim(Trim(s)) == Trim(s)
  {
    var r := Trim(s);
    TrimProperties(s);
    if r != [] {
      assert LeadingEnd(r, 0) == 0;
      assert TrailingStart(r, |r|) == |r|;
      assert r[0..|r|] == r;
    }
  }

  /** A string with no white space anywhere is its own trim. */
  lemma TrimWithoutWhiteSpace(s: string)
    requires !HasWhiteSpace(s)
    ensures Trim(s) == s
  {
    if s != [] {
      assert !IsWhiteSpace(s[0]);
      assert !IsWhiteSpace(s[|s| - 1]);
      assert LeadingEnd(s, 0) == 0;
      assert TrailingStart(s, |s|) == |s|;
      assert s[0..|s|] == s;
    }
  }

  /** `Some(s)` with `s` non-empty: the truthiness test `if (value)` on `string | null`. */
  predicate Present(o: Option<string>) {
    o.Some? && o.value != ""
  }

  /** `toUpperCase` on one character (ASCII letters only). */
  function UpperChar(c: char): char {
    if IsAsciiLower(c) then (c as int - 32) as char else c
  }

  /** `toLowerCase` on one character (ASCII letters only). */
  function LowerChar(c: char): char {
    if IsAsciiUpper(c) then (c as int + 32) as char else c
  }

  /** `s.toUpperCase()` */
  function Upper(s: string): (r: string)
    ensures |r| == |s| && forall i :: 0 <= i < |s| ==> r[i] == UpperChar(s[i])
  {
    if s == [] then [] else [UpperChar(s[0])] + Upper(s[1..])
  }

  /** `s.toLowerCase()` */
  function Lower(s: string): (r: string)
    ensures |r| == |s| && forall i :: 0 <= i < |s| ==> r[i] == LowerChar(s[i])
  {
    if s == [] then [] else [LowerChar(s[0])] + Lower(s[1..])
  }

  /** A string that neither starts nor ends with white space is its own trim. */
  lemma TrimOfTrimmed(s: string)
    requires s != [] ==> !IsWhiteSpace(s[0]) && !IsWhiteSpace(s[|s| - 1])
    ensures Trim(s) == s
  {
    if s != [] {
      assert LeadingEnd(s, 0) == 0;
      assert TrailingStart(s, |s|) == |s|;
      assert s[0..|s|] == s;
    }
  }

  /** No ASCII letter is white space. */
  lemma WhiteSpaceIsNoLetter(c: char)
    requires IsWhiteSpace(c)
    ensures !IsAsciiLetter(c)
  {
    var i :| 0 <= i < |WhiteSpaceChars| && WhiteSpaceChars[i] == c;
  }

  /** Lowercasing neither makes nor removes white space. */
  lemma LowerCharWhiteSpace(c: char)
    ensures IsWhiteSpace(LowerChar(c)) <==> IsWhiteSpace(c)
  {
    if IsAsciiUpper(c) {
      if IsWhiteSpace(c) { WhiteSpaceIsNoLetter(c); }
      if IsWhiteSpace(LowerChar(c)) { WhiteSpaceIsNoLetter(LowerChar(c)); }
    }
  }

  /** `s.trim().toLowerCase()`: how the sources normalise an email address. */
  function LowerTrim(s: string): (r: string)
    ensures |r| <= |s|
    ensures r == [] <==> IsBlank(s)
  {
    Lower(Trim(s))
  }

  /** Normalising twice is normalising once. */
  lemma LowerTrimIdempotent(s: string)
    ensures LowerTrim(LowerTrim(s)) == LowerTrim(s)
  {
    var r := Trim(s);
    var l := Lower(r);
    TrimProperties(s);
    if l != [] {
      LowerCharWhiteSpace(r[0]);
      LowerCharWhiteSpace(r[|r| - 1]);
    }
    TrimOfTrimmed(l);
    assert Lower(l) == l;
  }

  /** `s.startsWith(prefix)` */
  predicate StartsWith(s: string, prefix: string) {
    |prefix| <= |s| && s[..|prefix|] == prefix
  }

  /** `s.includes(part)` */
  predicate Contains(s: string, part: string)
    decreases |s|
  {
    StartsWith(s, part) || (|s| > 0 && Contains(s[1..], part))
  }

  lemma {:induction false} ContainsAt(s: string, part: string, k: nat)
    requires k + |part| <= |s| && s[k..k + |part|] == part
    ensures Contains(s, part)
    decreases k
  {
    if k > 0 {
      assert s[1..][k - 1..k - 1 + |part|] == s[k..k + |part|];
      ContainsAt(s[1..], part, k - 1);
    } else {
      assert s[..|part|] == s[0..|part|];
    }
  }

  /** `s.split(sep)` for a one-character separator. */
  function Split(s: string, sep: char): (parts: seq<string>)
    ensures |parts| >= 1
    ensures forall i :: 0 <= i < |parts| ==> sep !in parts[i]
    ensures |parts| == 1 <==> sep !in s
  {
    if s == [] then [""]
    else
      var rest := Split(s[1..], sep);
      if s[0] == sep then [""] + rest else [[s[0]] + rest[0]] + rest[1..]
  }

  /** `parts.join(sep)` */
  function Join(parts: seq<string>, sep: char): string {
    if parts == [] then ""
    else if |parts| == 1 then parts[0]
    else parts[0] + [sep] + Join(parts[1..], sep)
  }

  /** Splitting loses nothing: joining the parts again restores the string. */
  lemma {:induction false} JoinSplit(s: string, sep: char)
    ensures Join(Split(s, sep), sep) == s
  {
    if s != [] {
      var rest := Split(s[1..], sep);
      JoinSplit(s[1..], sep);
      if s[0] == sep {
        assert Split(s, sep) == [""] + rest;
        assert Split(s, sep)[1..] == rest;
        assert [s[0]] + s[1..] == s;
      } else if |rest| == 1 {
        assert Split(s, sep) == [[s[0]] + rest[0]];
        assert [s[0]] + s[1..] == s;
      } else {
        var parts := Split(s, sep);
        assert parts == [[s[0]] + rest[0]] + rest[1..];
        assert parts[1..] == rest[1..];
        calc {
          Join(parts, sep);
          ([s[0]] + rest[0]) + [sep] + Join(rest[1..], sep);
          [s[0]] + (rest[0] + [sep] + Join(rest[1..], sep));
          [s[0]] + Join(rest, sep);
          [s[0]] + s[1..];
          s;
        }
      }
    }
  }

  lemma {:induction false} SplitWithoutSep(s: string, sep: char)
    requires sep !in s
    ensures Split(s, sep) == [s]
  {
    if s != [] {
      SplitWithoutSep(s[1..], sep);
      assert [s[0]] + s[1..] == s;
    }
  }

  lemma {:induction false} SplitAtFirstSep(p: string, sep: char, r: string)
    requires sep !in p
    ensures Split(p + [sep] + r, sep) == [p] + Split(r, sep)
    decreases |p|
  {
    var s := p + [sep] + r;
    if p == [] {
      assert s[0] == sep && s[1..] == r;
    } else {
      SplitAtFirstSep(p[1..], sep, r);
      assert s[0] == p[0] && s[1..] == p[1..] + [sep] + r;
      assert [p[0]] + p[1..] == p;
    }
  }

  /** Joining loses nothing either: parts without the separator split back out. */
  lemma {:induction false} SplitJoin(parts: seq<string>, sep: char)
    requires |parts| >= 1
    requires forall i :: 0 <= i < |parts| ==> sep !in parts[i]
    ensures Split(Join(parts, sep), sep) == parts
    decreases |parts|
  {
    if |parts| == 1 {
      SplitWithoutSep(parts[0], sep);
    } else {
      SplitJoin(parts[1..], sep);
      SplitAtFirstSep(parts[0], sep, Join(parts[1..], sep));
      assert [parts[0]] + parts[1..] == parts;
    }
  }

  /** The part before the first `sep`: `s.split(sep)[0]`. */
  lemma {:induction false} FirstPartIsPrefix(s: string, sep: char)
    ensures StartsWith(s, Split(s, sep)[0])
  {
    if s != [] && s[0] != sep {
      FirstPartIsPrefix(s[1..], sep);
    }
  }

  function DigitChar(d: nat): (c: char)
    requires d < 10
    ensures IsDigit(c)
  {
    ('0' as int + d) as char
  }

  /** `String(n)` for a non-negative integer. */
  function NatToDecimal(n: nat): (r: string)
    ensures |r| >= 1 && AllDigits(r)
    ensures |r| > 1 ==> r[0] != '0'
  {
    if n < 10 then [DigitChar(n)] else NatToDecimal(n / 10) + [DigitChar(n % 10)]
  }

  /** `String(n)` for an integer. */
  function IntToDecimal(n: int): string {
    if n < 0 then "-" + NatToDecimal(-n) else NatToDecimal(n)
  }

  /** The value of a string of decimal digits: the partner of NatToDecimal. */
  function DecimalValue(s: string): nat
    requires AllDigits(s)
  {
    if s == [] then 0 else DecimalValue(s[..|s| - 1]) * 10 + (s[|s| - 1] as int - '0' as int)
  }

  lemma {:induction false} DecimalRoundTrip(n: nat)
    ensures DecimalValue(NatToDecimal(n)) == n
  {
    if n >= 10 {
      var r := NatToDecimal(n);
      DecimalRoundTrip(n / 10);
      assert r[..|r| - 1] == NatToDecimal(n / 10);
    }
  }

  /** Distinct numbers render differently. */
  lemma NatToDecimalInjective(m: nat, n: nat)
    requires NatToDecimal(m) == NatToDecimal(n)
    ensures m == n
  {
    DecimalRoundTrip(m);
    DecimalRoundTrip(n);
  }

  // ---------------------------------------------------------------------------
  // Filtering

  /** `.filter((item) => item.length > 0)`: the non-empty strings, in order. */
  function NonEmpty(items: seq<string>): (r: seq<string>)
    ensures |r| <= |items|
    ensures forall i :: 0 <= i < |r| ==> r[i] != ""
    ensures forall x :: x in r <==> x in items && x != ""
  {
    if items == [] then []
    else (if items[0] == "" then [] else [items[0]]) + NonEmpty(items[1..])
  }

  /** Filtering keeps the order: it distributes over concatenation. */
  lemma {:induction false} NonEmptyConcat(a: seq<string>, b: seq<string>)
    ensures NonEmpty(a + b) == NonEmpty(a) + NonEmpty(b)
    decreases |a|
  {
    if a == [] {
      assert a + b == b;
    } else {
      NonEmptyConcat(a[1..], b);
      assert (a + b)[0] == a[0];
      assert (a + b)[1..] == a[1..] + b;
    }
  }
}
