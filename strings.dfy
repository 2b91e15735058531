/** The JavaScript string operations the client relies on: `trim`, `indexOf`,
    `includes`, `split` with a non-empty separator, `join`, `toUpperCase` on
    ASCII text, `String(n)` for integers and `parseInt` without a radix. */
module Strings {
  import opened Wrappers

  // ---------------------------------------------------------------------------
  // Whitespace and trim
  // ---------------------------------------------------------------------------

  /** The characters `String.prototype.trim` and `parseInt` strip: the
      ECMAScript WhiteSpace and LineTerminator code points. */
  predicate IsSpace(c: char) {
    || c == ' ' || c == '\t' || c == '\n' || c == '\U{0B}' || c == '\U{0C}' || c == '\r'
    || c == '\U{A0}' || c == '\U{1680}' || ('\U{2000}' <= c <= '\U{200A}')
    || c == '\U{2028}' || c == '\U{2029}' || c == '\U{202F}' || c == '\U{205F}'
    || c == '\U{3000}' || c == '\U{FEFF}'
  }

  predicate AllSpace(s: string) {
    forall i :: 0 <= i < |s| ==> IsSpace(s[i])
  }

  /** The number of whitespace characters `s` starts with. */
  function LeadingSpace(s: string): (n: nat)
    ensures n <= |s|
    decreases |s|
  {
    if s != [] && IsSpace(s[0]) then 1 + LeadingSpace(s[1..]) else 0
  }

  /** The number of whitespace characters `s` ends with. */
  function TrailingSpace(s: string): (n: nat)
    ensures n <= |s|
    decreases |s|
  {
    if s != [] && IsSpace(s[|s| - 1]) then 1 + TrailingSpace(s[..|s| - 1]) else 0
  }

  /** `LeadingSpace(s)` counts whitespace up to the first other character. */
  lemma {:induction false} LeadingSpaceIsMaximal(s: string)
    ensures var n := LeadingSpace(s);
            AllSpace(s[..n]) && (n < |s| ==> !IsSpace(s[n]))
    decreases |s|
  {
    if s != [] && IsSpace(s[0]) {
      var rest := s[1..];
      LeadingSpaceIsMaximal(rest);
      var m := LeadingSpace(rest);
      PrefixCons(s, m);
      AllSpaceCons(s[0], rest[..m]);
    }
  }

  /** `TrailingSpace(s)` counts whitespace back to the last other character. */
  lemma {:induction false} TrailingSpaceIsMaximal(s: string)
    ensures var n := TrailingSpace(s);
            AllSpace(s[|s| - n..]) && (n < |s| ==> !IsSpace(s[|s| - 1 - n]))
    decreases |s|
  {
    if s != [] && IsSpace(s[|s| - 1]) {
      var front := s[..|s| - 1];
      TrailingSpaceIsMaximal(front);
      var m := TrailingSpace(front);
      SuffixSnoc(s, m);
      AllSpaceSnoc(front[|front| - m..], s[|s| - 1]);
    }
  }

  lemma PrefixCons(s: string, m: nat)
    requires m < |s|
    ensures s[..m + 1] == [s[0]] + s[1..][..m]
    ensures m + 1 < |s| ==> s[m + 1] == s[1..][m]
  {
  }

  lemma SuffixSnoc(s: string, m: nat)
    requires m < |s|
    ensures s[|s| - (m + 1)..] == s[..|s| - 1][|s| - 1 - m..] + [s[|s| - 1]]
    ensures m + 1 < |s| ==> s[|s| - 2 - m] == s[..|s| - 1][|s| - 2 - m]
  {
  }

  lemma AllSpaceCons(c: char, s: string)
    requires IsSpace(c) && AllSpace(s)
    ensures AllSpace([c] + s)
  {
    assert forall i :: 1 <= i < |s| + 1 ==> ([c] + s)[i] == s[i - 1];
  }

  lemma AllSpaceSnoc(s: string, c: char)
    requires AllSpace(s) && IsSpace(c)
    ensures AllSpace(s + [c])
  {
    assert forall i :: 0 <= i < |s| ==> (s + [c])[i] == s[i];
  }

  /** `s.trimStart()`. */
  function TrimStart(s: string): string {
    s[LeadingSpace(s)..]
  }

  /** `s.trimEnd()`. */
  function TrimEnd(s: string): string {
    s[..|s| - TrailingSpace(s)]
  }

  /** `s.trim()`. */
  function Trim(s: string): string {
    TrimEnd(TrimStart(s))
  }

  /** What `trim` keeps is the middle of `s`: it is preceded and followed by
      whitespace only, and neither starts nor ends with whitespace. */
  lemma TrimIsMiddle(s: string)
    ensures LeadingSpace(s) + |Trim(s)| <= |s|
    ensures Trim(s) == s[LeadingSpace(s)..LeadingSpace(s) + |Trim(s)|]
    ensures AllSpace(s[..LeadingSpace(s)]) && AllSpace(s[LeadingSpace(s) + |Trim(s)|..])
    ensures Trim(s) != [] ==> !IsSpace(Trim(s)[0]) && !IsSpace(Trim(s)[|Trim(s)| - 1])
  {
    TrimSlice(s);
    TrimSurround(s);
    TrimBorders(s);
  }

  /** Where `trim` cuts: the kept part is a slice of `s` after its leading
      whitespace. */
  lemma TrimSlice(s: string)
    ensures LeadingSpace(s) + |Trim(s)| <= |s|
    ensures Trim(s) == s[LeadingSpace(s)..LeadingSpace(s) + |Trim(s)|]
  {
    var a := LeadingSpace(s);
    var t := s[a..];
    var b := TrailingSpace(t);
    assert Trim(s) == t[..|t| - b];
  }

  /** What `trim` removes is whitespace. */
  lemma TrimSurround(s: string)
    ensures LeadingSpace(s) + |Trim(s)| <= |s|
    ensures AllSpace(s[..LeadingSpace(s)]) && AllSpace(s[LeadingSpace(s) + |Trim(s)|..])
  {
    var a := LeadingSpace(s);
    var t := s[a..];
    var b := TrailingSpace(t);
    var r := t[..|t| - b];
    assert Trim(s) == r;
    LeadingSpaceIsMaximal(s);
    TrailingSpaceIsMaximal(t);
    TrailingCut(s, a, t, b, r);
  }

  /** Cutting `a` characters from the front and then `b` from the back leaves
      after the kept part exactly the `b` characters cut from the back. */
  lemma TrailingCut(s: string, a: nat, t: string, b: nat, r: string)
    requires a <= |s| && t == s[a..] && b <= |t| && r == t[..|t| - b]
    requires AllSpace(t[|t| - b..])
    ensures a + |r| <= |s| && AllSpace(s[a + |r|..])
  {
    assert s[a + |r|..] == t[|t| - b..];
  }

  /** What `trim` keeps neither starts nor ends with whitespace. */
  lemma TrimBorders(s: string)
    ensures Trim(s) != [] ==> !IsSpace(Trim(s)[0]) && !IsSpace(Trim(s)[|Trim(s)| - 1])
  {
    var a := LeadingSpace(s);
    var t := s[a..];
    var b := TrailingSpace(t);
    var r := t[..|t| - b];
    assert Trim(s) == r;
    if r != [] {
      LeadingSpaceIsMaximal(s);
      TrailingSpaceIsMaximal(t);
      assert r[0] == s[a];
      assert r[|r| - 1] == t[|t| - 1 - b];
    }
  }

  /** A string trims to nothing exactly when it is whitespace only: the test
      `!part.trim()` singles out whitespace-only frames. */
  lemma TrimEmptyIff(s: string)
    ensures Trim(s) == [] <==> AllSpace(s)
  {
    TrimIsMiddle(s);
    var a := LeadingSpace(s);
    if AllSpace(s) {
      LeadingSpaceIsMaximal(s);
      assert a == |s|;
    }
  }

  // ---------------------------------------------------------------------------
  // Searching
  // ---------------------------------------------------------------------------

  ghost predicate OccursAt(s: string, pat: string, i: nat) {
    i + |pat| <= |s| && s[i..i + |pat|] == pat
  }

  /** An occurrence past the first character is an occurrence in the tail. */
  lemma OccursShift(s: string, pat: string)
    requires s != []
    ensures forall k: nat :: 1 <= k ==> (OccursAt(s, pat, k) <==> OccursAt(s[1..], pat, k - 1))
  {
    forall k: nat | 1 <= k ensures OccursAt(s, pat, k) <==> OccursAt(s[1..], pat, k - 1) {
      if k + |pat| <= |s| {
        SliceOfTail(s, k, k + |pat|);
      }
    }
  }

  lemma SliceOfTail(s: string, i: nat, j: nat)
    requires 1 <= i <= j <= |s|
    ensures s[i..j] == s[1..][i - 1..j - 1]
  {
    forall k | 0 <= k < j - i ensures s[i..j][k] == s[1..][i - 1..j - 1][k] {
      assert s[i..j][k] == s[i + k];
    }
  }

  /** `s.indexOf(pat)`: the first position where `pat` occurs, if any. */
  function Find(s: string, pat: string): (r: Option<nat>)
    ensures r.Some? ==> OccursAt(s, pat, r.value)
    ensures r.Some? ==> forall k: nat :: k < r.value ==> !OccursAt(s, pat, k)
    ensures r.None? ==> forall k: nat :: !OccursAt(s, pat, k)
    decreases |s|
  {
    if |s| < |pat| then None
    else if s[..|pat|] == pat then Some(0)
    else
      OccursShift(s, pat);
      match Find(s[1..], pat)
      case None => None
      case Some(i) => Some(i + 1)
  }

  /** The first occurrence is what `Find` reports. */
  lemma FindIsFirst(s: string, pat: string, i: nat)
    requires OccursAt(s, pat, i)
    requires forall k: nat :: k < i ==> !OccursAt(s, pat, k)
    ensures Find(s, pat) == Some(i)
  {
  }

  /** `s.includes(pat)`. */
  predicate Contains(s: string, pat: string) {
    Find(s, pat).Some?
  }

  lemma ContainsIff(s: string, pat: string)
    ensures Contains(s, pat) <==> exists k: nat :: OccursAt(s, pat, k)
  {
    if Contains(s, pat) {
      assert OccursAt(s, pat, Find(s, pat).value);
    }
  }

  // ---------------------------------------------------------------------------
  // Split and join
  // ---------------------------------------------------------------------------

  lemma NoOccurrenceInPrefix(s: string, pat: string, i: nat)
    requires |pat| > 0 && i <= |s|
    requires forall k: nat :: k < i ==> !OccursAt(s, pat, k)
    ensures !Contains(s[..i], pat)
  {
    var f := Find(s[..i], pat);
    if f.Some? {
      var k := f.value;
      assert s[..i][k..k + |pat|] == s[k..k + |pat|];
      assert OccursAt(s, pat, k);
      assert false;
    }
  }

  /** `s.split(sep)` for a non-empty separator: the text between successive
      left-to-right, non-overlapping occurrences of `sep`. There is always at
      least one part. */
  function Split(s: string, sep: string): (parts: seq<string>)
    requires |sep| > 0
    ensures |parts| >= 1
    decreases |s|
  {
    match Find(s, sep)
    case None => [s]
    case Some(i) => [s[..i]] + Split(s[i + |sep|..], sep)
  }

  /** No part of a split contains the separator. */
  lemma {:induction false} SplitPartsFree(s: string, sep: string)
    requires |sep| > 0
    ensures forall i :: 0 <= i < |Split(s, sep)| ==> !Contains(Split(s, sep)[i], sep)
    decreases |s|
  {
    match Find(s, sep)
    case None =>
    case Some(i) =>
      NoOccurrenceInPrefix(s, sep, i);
      SplitPartsFree(s[i + |sep|..], sep);
  }

  /** `parts.join(sep)`. */
  function Join(parts: seq<string>, sep: string): string
    decreases |parts|
  {
    if |parts| == 0 then ""
    else if |parts| == 1 then parts[0]
    else parts[0] + sep + Join(parts[1..], sep)
  }

  /** One step of `Split` where the separator occurs. */
  lemma SplitUnfold(s: string, sep: string, i: nat, head: string, tail: string)
    requires |sep| > 0 && Find(s, sep) == Some(i)
    requires head == s[..i] && tail == s[i + |sep|..]
    ensures Split(s, sep) == [head] + Split(tail, sep)
  {
  }

  /** Splitting loses nothing: joining the parts with the separator gives the
      string back. */
  lemma {:induction false} JoinSplit(s: string, sep: string)
    requires |sep| > 0
    ensures Join(Split(s, sep), sep) == s
    decreases |s|
  {
    var f := Find(s, sep);
    if f.Some? {
      var i := f.value;
      var head := s[..i];
      var rest := s[i + |sep|..];
      JoinSplit(rest, sep);
      SplitUnfold(s, sep, i, head, rest);
      JoinCons(Split(s, sep), head, Split(rest, sep), sep);
      assert s[i..i + |sep|] == sep;
      Reassemble(s, i, i + |sep|);
    }
  }

  lemma Reassemble(s: string, i: nat, j: nat)
    requires i <= j <= |s|
    ensures s == s[..i] + s[i..j] + s[j..]
  {
  }

  /** Joining two non-empty lists of parts puts one separator between them. */
  lemma {:induction false} JoinAppend(a: seq<string>, b: seq<string>, sep: string)
    requires |a| > 0 && |b| > 0
    ensures Join(a + b, sep) == Join(a, sep) + sep + Join(b, sep)
    decreases |a|
  {
    var rest := a[1..];
    assert a == [a[0]] + rest;
    if |a| == 1 {
      assert a + b == [a[0]] + b;
      JoinCons(a + b, a[0], b, sep);
    } else {
      JoinAppend(rest, b, sep);
      assert a + b == [a[0]] + (rest + b);
      JoinCons(a + b, a[0], rest + b, sep);
      JoinCons(a, a[0], rest, sep);
    }
  }

  lemma JoinCons(p: seq<string>, x: string, rest: seq<string>, sep: string)
    requires p == [x] + rest && |rest| > 0
    ensures Join(p, sep) == x + sep + Join(rest, sep)
  {
    assert p[0] == x && p[1..] == rest;
  }

  /** The concatenation of a list of chunks. */
  function Concat(chunks: seq<string>): string
    decreases |chunks|
  {
    if chunks == [] then "" else Concat(chunks[..|chunks| - 1]) + chunks[|chunks| - 1]
  }

  // ---------------------------------------------------------------------------
  // Decimal text: String(n) for integers
  // ---------------------------------------------------------------------------

  predicate IsDecimalDigit(c: char) {
    '0' <= c <= '9'
  }

  function DigitChar(d: nat): (c: char)
    requires d < 10
    ensures IsDecimalDigit(c)
  {
    ('0' as int + d) as char
  }

  /** The decimal numeral of a natural number, most significant digit first,
      without leading zeros. */
  function NatText(n: nat): (r: string)
    ensures |r| >= 1
    ensures forall i :: 0 <= i < |r| ==> IsDecimalDigit(r[i])
    ensures r[0] == '0' ==> n == 0
    decreases n
  {
    if n < 10 then [DigitChar(n)] else NatText(n / 10) + [DigitChar(n % 10)]
  }

  /** `String(n)` for an integer: a '-' sign in front of negative numbers. */
  function IntText(n: int): (r: string)
    ensures |r| >= 1
    ensures n < 0 <==> r[0] == '-'
  {
    if n < 0 then "-" + NatText(-n) else NatText(n)
  }

  // ---------------------------------------------------------------------------
  // parseInt(s) with no radix argument
  // ---------------------------------------------------------------------------

  predicate IsRadixDigit(c: char, radix: nat) {
    if radix == 16 then IsDecimalDigit(c) || 'a' <= c <= 'f' || 'A' <= c <= 'F'
    else IsDecimalDigit(c)
  }

  function DigitValue(c: char): nat {
    if IsDecimalDigit(c) then c as nat - '0' as nat
    else if 'a' <= c <= 'f' then c as nat - 'a' as nat + 10
    else if 'A' <= c <= 'F' then c as nat - 'A' as nat + 10
    else 0
  }

  /** The longest prefix of `s` made of digits of the radix. */
  function LeadingDigits(s: string, radix: nat): (r: string)
    ensures |r| <= |s| && r == s[..|r|]
    ensures forall i :: 0 <= i < |r| ==> IsRadixDigit(r[i], radix)
    ensures |r| < |s| ==> !IsRadixDigit(s[|r|], radix)
    decreases |s|
  {
    if s == [] || !IsRadixDigit(s[0], radix) then [] else [s[0]] + LeadingDigits(s[1..], radix)
  }

  /** The value of a numeral in the given radix, read most significant first. */
  function NumeralValue(ds: string, radix: nat): nat
    decreases |ds|
  {
    if ds == [] then 0 else NumeralValue(ds[..|ds| - 1], radix) * radix + DigitValue(ds[|ds| - 1])
  }

  /** The digits of the numeral at the start of `u`, a text whose sign has
      been taken off, read in the radix `Radix(u)`. */
  function Digits(u: string): string {
    var radix := Radix(u);
    LeadingDigits(if radix == 16 then u[2..] else u, radix)
  }

  /** `parseInt` of a text without leading whitespace. */
  function SignedValue(t: string): Option<int> {
    var u := Unsigned(t);
    var ds := Digits(u);
    if ds == [] then None
    else if t != [] && t[0] == '-' then Some(0 - NumeralValue(ds, Radix(u)) as int)
    else Some(NumeralValue(ds, Radix(u)))
  }

  /** `parseInt(s)`: skip leading whitespace, take an optional sign, read a
      hexadecimal numeral after "0x"/"0X" and a decimal one otherwise, stopping
      at the first character that is not a digit; `None` stands for NaN
      (no digit at all). */
  function ParseInt(s: string): Option<int> {
    SignedValue(TrimStart(s))
  }

  /** The numeral after an optional leading sign. */
  function Unsigned(t: string): string {
    if t != [] && (t[0] == '-' || t[0] == '+') then t[1..] else t
  }

  /** 16 when the numeral starts with "0x" or "0X", 10 otherwise. */
  function Radix(u: string): nat {
    if |u| >= 2 && u[0] == '0' && (u[1] == 'x' || u[1] == 'X') then 16 else 10
  }

  lemma {:induction false} NatTextValue(n: nat)
    ensures NumeralValue(NatText(n), 10) == n
    decreases n
  {
    if n >= 10 {
      NatTextValue(n / 10);
      var t := NatText(n);
      assert t[..|t| - 1] == NatText(n / 10);
    }
  }

  lemma {:induction false} LeadingDigitsOf(ds: string, rest: string, radix: nat)
    requires forall i :: 0 <= i < |ds| ==> IsRadixDigit(ds[i], radix)
    requires rest == [] || !IsRadixDigit(rest[0], radix)
    ensures LeadingDigits(ds + rest, radix) == ds
    decreases |ds|
  {
    if ds != [] {
      LeadingDigitsOf(ds[1..], rest, radix);
      assert (ds + rest)[1..] == ds[1..] + rest;
    }
  }

  lemma TextIsTrimmed(n: int, rest: string)
    ensures TrimStart(IntText(n) + rest) == IntText(n) + rest
  {
    var s := IntText(n) + rest;
    assert s[0] == IntText(n)[0];
    assert s[0] == '-' || IsDecimalDigit(s[0]);
  }

  lemma UnsignedOfText(n: int, rest: string)
    ensures Unsigned(IntText(n) + rest) == NatText(if n < 0 then -n else n) + rest
  {
    var s := IntText(n) + rest;
    var u := NatText(if n < 0 then -n else n) + rest;
    if n < 0 {
      assert s == "-" + u;
    } else {
      assert s == u;
      assert s[0] == NatText(n)[0];
    }
  }

  lemma DigitsOfText(m: nat, rest: string)
    requires rest == [] || (!IsDecimalDigit(rest[0]) && (m == 0 ==> rest[0] != 'x' && rest[0] != 'X'))
    ensures Radix(NatText(m) + rest) == 10 && Digits(NatText(m) + rest) == NatText(m)
  {
    var digits := NatText(m);
    var u := digits + rest;
    assert Radix(u) == 10 by {
      if m == 0 { assert |digits| == 1; } else { assert u[0] == digits[0] != '0'; }
    }
    LeadingDigitsOf(digits, rest, 10);
  }

  lemma SignedOfText(n: int, rest: string)
    requires rest == [] || (!IsDecimalDigit(rest[0]) && (n == 0 ==> rest[0] != 'x' && rest[0] != 'X'))
    ensures SignedValue(IntText(n) + rest) == Some(n)
  {
    var m: nat := if n < 0 then -n else n;
    var t := IntText(n) + rest;
    UnsignedOfText(n, rest);
    DigitsOfText(m, rest);
    NatTextValue(m);
    assert t[0] == IntText(n)[0];
  }

  /** `parseInt` reads back what `String(n)` writes, and stops at the first
      character that does not continue the numeral, so "12.5" reads as 12. */
  lemma ParseIntOfText(n: int, rest: string)
    requires rest == [] || (!IsDecimalDigit(rest[0]) && (n == 0 ==> rest[0] != 'x' && rest[0] != 'X'))
    ensures ParseInt(IntText(n) + rest) == Some(n)
  {
    TextIsTrimmed(n, rest);
    SignedOfText(n, rest);
  }

  lemma ParseIntRoundTrip(n: int)
    ensures ParseInt(IntText(n)) == Some(n)
  {
    ParseIntOfText(n, "");
    assert IntText(n) + "" == IntText(n);
  }

  // ---------------------------------------------------------------------------
  // Upper case and fractional decimal text
  // ---------------------------------------------------------------------------

  function UpperChar(c: char): char {
    if 'a' <= c <= 'z' then (c as int - 'a' as int + 'A' as int) as char else c
  }

  /** `s.toUpperCase()` on ASCII letters; other characters are kept. */
  function ToUpper(s: string): (r: string)
    ensures |r| == |s| && forall i :: 0 <= i < |s| ==> r[i] == UpperChar(s[i])
  {
    seq(|s|, i requires 0 <= i < |s| => UpperChar(s[i]))
  }

  function StripTrailingZeros(s: string): (r: string)
    ensures |r| <= |s| && r == s[..|r|]
    ensures r != [] ==> r[|r| - 1] != '0'
    ensures r == [] ==> forall i :: 0 <= i < |s| ==> s[i] == '0'
    decreases |s|
  {
    if s != [] && s[|s| - 1] == '0' then StripTrailingZeros(s[..|s| - 1]) else s
  }

  /** The three decimal digits of a number below one thousand. */
  function ThreeDigits(r: nat): (t: string)
    requires r < 1000
    ensures |t| == 3
  {
    [DigitChar(r / 100), DigitChar(r / 10 % 10), DigitChar(r % 10)]
  }

  /** A non-zero remainder leaves at least one fractional digit. */
  lemma FractionDigits(r: nat)
    requires 0 < r < 1000
    ensures StripTrailingZeros(ThreeDigits(r)) != []
  {
    var t := ThreeDigits(r);
    if r % 10 != 0 {
      assert t[2] != '0';
    } else if r / 10 % 10 != 0 {
      assert t[1] != '0';
    } else {
      assert t[0] != '0';
    }
  }

  /** The whole part of `n / 1000` as `String` writes it: truncated toward
      zero, with the sign of `n` kept even when the whole part is 0. */
  function WholeThousandsText(n: int): string {
    if n < 0 then "-" + NatText(-n / 1000) else NatText(n / 1000)
  }

  /** `String(n / 1000)` for an integer `n`: the quotient in decimal, followed
      by the fractional digits without trailing zeros when there are any. */
  function ThousandthsText(n: int): (t: string)
    ensures n % 1000 == 0 ==> t == IntText(n / 1000)
  {
    if n % 1000 == 0 then IntText(n / 1000)
    else WholeThousandsText(n) + "." + StripTrailingZeros(ThreeDigits((if n < 0 then -n else n) % 1000))
  }

  /** A whole part, a point and a fraction of one to three digits. */
  lemma PointJoin(w: string, f: string)
    requires 1 <= |f| <= 3 && f[|f| - 1] != '0'
    ensures var t := w + "." + f;
            && |w| + 2 <= |t| <= |w| + 4 && t[..|w|] == w && t[|w|] == '.'
            && t[|t| - 1] != '0'
  {
    var t := w + "." + f;
    assert t[|t| - 1] == f[|f| - 1];
  }

  /** A quotient with a fraction prints as its whole part, a point, and one
      to three fractional digits of which the last is not 0. */
  lemma ThousandthsFraction(n: int)
    requires n % 1000 != 0
    ensures var t := ThousandthsText(n);
            var w := WholeThousandsText(n);
            && |w| + 2 <= |t| <= |w| + 4 && t[..|w|] == w && t[|w|] == '.'
            && t[|t| - 1] != '0'
  {
    var m := if n < 0 then -n else n;
    assert m % 1000 != 0;
    FractionDigits(m % 1000);
    PointJoin(WholeThousandsText(n), StripTrailingZeros(ThreeDigits(m % 1000)));
  }

  /** The fractional text of two bounds, as `String` prints them. */
  lemma ThousandthsExamples()
    ensures ThousandthsText(1500) == "1.5"
    ensures ThousandthsText(1) == "0.001"
  {
    assert ThreeDigits(500) == "500";
    assert StripTrailingZeros("500") == "5";
    assert ThreeDigits(1) == "001";
  }

  /** A negative amount above -1000 keeps its sign: -500 prints as "-0.5". */
  lemma ThousandthsSignedZero()
    ensures ThousandthsText(-500) == "-0.5"
  {
    assert ThreeDigits(500) == "500";
    assert StripTrailingZeros("500") == "5";
  }
}
