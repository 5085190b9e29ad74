/** The JavaScript string operations the edge function and the two front ends rely
    on: `startsWith`, `indexOf`-style search, `trim`, `substring`, `split`, the
    decimal rendering of integers and `parseInt`. Strings are sequences of
    characters. */
module JsStrings {
  import opened Wrappers

  /** The WhiteSpace and LineTerminator code points of ECMAScript (sections 12.2 and
      12.3 of ECMA-262): the set matched by the regular expression class `\s` and
      skipped by `trim()` and `parseInt`. */
  predicate IsWhitespace(c: char) {
    || c == '\t' || c == '\n' || c == '\U{000B}' || c == '\U{000C}' || c == '\r' || c == ' '
    || c == '\U{00A0}' || c == '\U{1680}' || ('\U{2000}' <= c <= '\U{200A}')
    || c == '\U{2028}' || c == '\U{2029}' || c == '\U{202F}' || c == '\U{205F}'
    || c == '\U{3000}' || c == '\U{FEFF}'
  }

  ghost predicate AllWhitespace(s: string) {
    forall i :: 0 <= i < |s| ==> IsWhitespace(s[i])
  }

  predicate StartsWith(s: string, prefix: string) {
    |prefix| <= |s| && s[..|prefix|] == prefix
  }

  /** `pat` occurs in `s` starting at index `i`. */
  predicate OccursAt(s: string, pat: string, i: nat) {
    i + |pat| <= |s| && s[i..i + |pat|] == pat
  }

  /** The first index at or after `from` where `pat` occurs, if any. */
  function IndexOf(s: string, pat: string, from: nat): (r: Option<nat>)
    ensures r.Some? ==> from <= r.value && OccursAt(s, pat, r.value)
    ensures r.Some? ==> forall j: nat :: from <= j < r.value ==> !OccursAt(s, pat, j)
    ensures r.None? ==> forall j: nat :: from <= j ==> !OccursAt(s, pat, j)
    decreases |s| - from
  {
    if |s| < from + |pat| then None
    else if OccursAt(s, pat, from) then Some(from)
    else IndexOf(s, pat, from + 1)
  }

  /** `IndexOf` finds an occurrence exactly when it is the first one at or
      after `from`. */
  lemma IndexOfFirstOccurrence(s: string, pat: string, from: nat, x: nat)
    requires from <= x && OccursAt(s, pat, x)
    requires forall j: nat :: from <= j < x ==> !OccursAt(s, pat, j)
    ensures IndexOf(s, pat, from) == Some(x)
  {
  }

  /** The index of the first `c` in `s`, or `|s|` when there is none. */
  function IndexOfChar(s: string, c: char): (i: nat)
    ensures i <= |s| && c !in s[..i]
    ensures i < |s| ==> s[i] == c
  {
    if s == [] then 0
    else if s[0] == c then 0
    else
      var k := IndexOfChar(s[1..], c);
      assert s[..k + 1] == [s[0]] + s[1..][..k];
      k + 1
  }

  /** How many whitespace characters `s` starts with. */
  function LeadingWhitespace(s: string): (k: nat)
    ensures k <= |s|
    ensures forall i :: 0 <= i < k ==> IsWhitespace(s[i])
    ensures k < |s| ==> !IsWhitespace(s[k])
  {
    if |s| > 0 && IsWhitespace(s[0]) then 1 + LeadingWhitespace(s[1..]) else 0
  }

  /** Where the whitespace `s` ends with begins. */
  function TrailingWhitespace(s: string): (k: nat)
    ensures k <= |s|
    ensures forall i :: k <= i < |s| ==> IsWhitespace(s[i])
    ensures 0 < k ==> !IsWhitespace(s[k - 1])
  {
    if |s| > 0 && IsWhitespace(s[|s| - 1]) then TrailingWhitespace(s[..|s| - 1]) else |s|
  }

  /** Removal of leading whitespace, the first step of `parseInt` and of `trim()`. */
  function TrimStart(s: string): string {
    s[LeadingWhitespace(s)..]
  }

  /** Removal of trailing whitespace. */
  function TrimEnd(s: string): string {
    s[..TrailingWhitespace(s)]
  }

  /** `String.prototype.trim`. */
  function Trim(s: string): (r: string)
    ensures |r| <= |s|
    ensures IsTrimmed(r)
  {
    TrimEnd(TrimStart(s))
  }

  /** `r` neither starts nor ends with whitespace. */
  predicate IsTrimmed(r: string) {
    r == [] || (!IsWhitespace(r[0]) && !IsWhitespace(r[|r| - 1]))
  }

  /** Where `trim()` cuts: its result is the infix of `s` between the leading
      and the trailing whitespace. */
  function TrimBounds(s: string): (bounds: (nat, nat))
    ensures bounds.0 <= bounds.1 <= |s|
    ensures forall i :: 0 <= i < bounds.0 ==> IsWhitespace(s[i])
    ensures forall i :: bounds.1 <= i < |s| ==> IsWhitespace(s[i])
    ensures bounds.0 < bounds.1 ==> !IsWhitespace(s[bounds.0]) && !IsWhitespace(s[bounds.1 - 1])
  {
    var a := LeadingWhitespace(s);
    var b := TrailingWhitespace(s[a..]);
    assert forall i :: a + b <= i < |s| ==> s[i] == s[a..][i - a];
    (a, a + b)
  }

  /** `trim()` yields the infix of `s` that `TrimBounds` delimits, and it neither
      starts nor ends with whitespace. */
  lemma TrimIsInfix(s: string)
    ensures Trim(s) == s[TrimBounds(s).0..TrimBounds(s).1]
    ensures IsTrimmed(Trim(s))
  {
    var a := LeadingWhitespace(s);
    assert s[a..][..TrailingWhitespace(s[a..])] == s[TrimBounds(s).0..TrimBounds(s).1];
  }

  function Clamp(x: int, lo: int, hi: int): int
    requires lo <= hi
  {
    if x < lo then lo else if x > hi then hi else x
  }

  /** `String.prototype.substring(start, end)`: both bounds are clamped to the
      string and swapped when out of order. */
  function Substring(s: string, start: int, end: int): (r: string)
    ensures |r| <= |s|
    ensures 0 <= start <= end <= |s| ==> r == s[start..end]
    ensures 0 <= end <= start <= |s| ==> r == s[end..start]
  {
    var a := Clamp(start, 0, |s|);
    var b := Clamp(end, 0, |s|);
    if a <= b then s[a..b] else s[b..a]
  }

  /** `substring(0, n)` keeps exactly the first `min(n, |s|)` characters. */
  lemma SubstringFromZero(s: string, n: nat)
    ensures Substring(s, 0, n) == s[..if n < |s| then n else |s|]
  {
  }

  /** `String.prototype.split(sep)` for a one-character separator. */
  function Split(s: string, sep: char): (parts: seq<string>)
    ensures |parts| >= 1
    ensures forall i :: 0 <= i < |parts| ==> sep !in parts[i]
    ensures JoinWith(parts, sep) == s
    decreases |s|
  {
    var i := IndexOfChar(s, sep);
    if i == |s| then
      assert s[..i] == s;
      [s]
    else
      var rest := Split(s[i + 1..], sep);
      var parts := [s[..i]] + rest;
      assert parts[1..] == rest;
      assert s == s[..i] + [sep] + s[i + 1..];
      parts
  }

  /** `Array.prototype.join(sep)`, the inverse of `Split`. */
  function JoinWith(parts: seq<string>, sep: char): string
    requires |parts| >= 1
  {
    if |parts| == 1 then parts[0] else parts[0] + [sep] + JoinWith(parts[1..], sep)
  }

  /** Splitting `a + [sep] + b`, where neither side holds the separator, gives
      exactly the two sides. */
  lemma {:induction false} SplitAtOnlySeparator(a: string, sep: char, b: string)
    requires sep !in a && sep !in b
    ensures Split(a + [sep] + b, sep) == [a, b]
  {
    var s := a + [sep] + b;
    IndexOfCharAfter(a, sep, b);
    assert s[..|a|] == a;
    assert s[|a| + 1..] == b;
    IndexOfCharAfter(b, sep, []);
    assert b + [sep] + [] == b + [sep];
    assert IndexOfChar(b, sep) == |b|;
  }

  /** Splitting at the first separator: the separator-free text before it is the
      first part, and the rest is split on. */
  lemma {:induction false} SplitAtFirstSeparator(a: string, sep: char, rest: string)
    requires sep !in a
    ensures Split(a + [sep] + rest, sep) == [a] + Split(rest, sep)
  {
    var s := a + [sep] + rest;
    IndexOfCharAfter(a, sep, rest);
    assert s[..|a|] == a;
    assert s[|a| + 1..] == rest;
  }

  /** The first part of a split is the text before the first separator. */
  lemma SplitHead(s: string, sep: char)
    ensures Split(s, sep)[0] == s[..IndexOfChar(s, sep)]
  {
  }

  /** The first separator after a separator-free prefix is the one that ends it. */
  lemma {:induction false} IndexOfCharAfter(a: string, c: char, b: string)
    requires c !in a
    ensures IndexOfChar(a + [c] + b, c) == |a|
  {
    var s := a + [c] + b;
    if a != [] {
      assert s[0] == a[0];
      assert s[1..] == a[1..] + [c] + b;
      IndexOfCharAfter(a[1..], c, b);
    }
  }

  // ---- digits ----

  /** The value of a character as a digit in radix 36, the alphabet `parseInt`
      uses; 36 for anything that is no digit at all. */
  function DigitValue(c: char): (d: nat)
    ensures d <= 36
  {
    if '0' <= c <= '9' then c as int - '0' as int
    else if 'a' <= c <= 'z' then c as int - 'a' as int + 10
    else if 'A' <= c <= 'Z' then c as int - 'A' as int + 10
    else 36
  }

  predicate IsDecimalDigit(c: char) {
    '0' <= c <= '9'
  }

  /** The length of the longest prefix of `s` made of digits of `radix`. */
  function DigitRunLength(s: string, radix: nat): (k: nat)
    ensures k <= |s|
    ensures forall i :: 0 <= i < k ==> DigitValue(s[i]) < radix
    ensures k < |s| ==> DigitValue(s[k]) >= radix
  {
    if s == [] || DigitValue(s[0]) >= radix then 0
    else 1 + DigitRunLength(s[1..], radix)
  }

  /** The number a string of digits denotes in `radix`, most significant first. */
  function DigitsValue(s: string, radix: nat): nat {
    if s == [] then 0
    else DigitsValue(s[..|s| - 1], radix) * radix + DigitValue(s[|s| - 1])
  }

  function DigitChar(d: nat): (c: char)
    requires d < 10
    ensures IsDecimalDigit(c) && DigitValue(c) == d
  {
    "0123456789"[d]
  }

  /** The decimal rendering of a natural number, without leading zeros. */
  function NatToString(n: nat): (r: string)
    ensures |r| >= 1
    ensures forall i :: 0 <= i < |r| ==> IsDecimalDigit(r[i])
    ensures |r| > 1 ==> r[0] != '0'
  {
    if n < 10 then [DigitChar(n)]
    else NatToString(n / 10) + [DigitChar(n % 10)]
  }

  /** Number-to-string conversion of an integer, as JavaScript renders integral
      Numbers below 10^21. */
  function IntToString(n: int): (r: string)
    ensures |r| >= 1
  {
    if n < 0 then "-" + NatToString(-n) else NatToString(n)
  }

  lemma {:induction false} NatToStringValue(n: nat)
    ensures DigitsValue(NatToString(n), 10) == n
  {
    if n >= 10 {
      var s := NatToString(n);
      assert s[..|s| - 1] == NatToString(n / 10);
      NatToStringValue(n / 10);
    }
  }

  lemma DigitRunOfDecimal(s: string)
    requires forall i :: 0 <= i < |s| ==> IsDecimalDigit(s[i])
    ensures DigitRunLength(s, 10) == |s|
  {
    if s != [] {
      assert DigitValue(s[0]) < 10;
      DigitRunOfDecimal(s[1..]);
    }
  }

  // ---- parseInt ----

  /** `parseInt(s)` without a radix argument (section 19.2.5 of ECMA-262): leading
      whitespace is skipped, one `+` or `-` is taken as the sign, and the magnitude
      follows. `None` stands for NaN. */
  function ParseInt(s: string): (r: Option<int>)
    ensures r.Some? ==> TrimStart(s) != []
    ensures r.Some? && r.value < 0 ==> TrimStart(s)[0] == '-'
  {
    ParseSigned(TrimStart(s))
  }

  /** The sign, then the magnitude. */
  function ParseSigned(t: string): Option<int> {
    if |t| > 0 && t[0] == '-' then WithSign(ParseMagnitude(t[1..]), true)
    else if |t| > 0 && t[0] == '+' then WithSign(ParseMagnitude(t[1..]), false)
    else WithSign(ParseMagnitude(t), false)
  }

  function WithSign(m: Option<nat>, negative: bool): Option<int> {
    match m
    case None => None
    case Some(v) => Some(if negative then -(v as int) else v as int)
  }

  /** A `0x` or `0X` prefix selects radix 16, radix 10 applies otherwise. */
  function ParseMagnitude(u: string): Option<nat> {
    if |u| >= 2 && u[0] == '0' && (u[1] == 'x' || u[1] == 'X') then RunValue(u[2..], 16)
    else RunValue(u, 10)
  }

  /** The value of the longest run of `radix` digits at the start of `d`; NaN
      when that run is empty. */
  function RunValue(d: string, radix: nat): Option<nat> {
    var k := DigitRunLength(d, radix);
    if k == 0 then None else Some(DigitsValue(d[..k], radix))
  }

  /** `parseInt` reads back every integer from its decimal rendering. */
  lemma ParseIntOfIntString(n: int)
    ensures ParseInt(IntToString(n)) == Some(n)
  {
    var m: nat := if n < 0 then -n else n;
    var s := IntToString(n);
    TrimStartOfNonWhitespace(s);
    MagnitudeOfNatString(m);
    if n < 0 {
      assert s[1..] == NatToString(m);
    } else {
      assert s[0] != '-' && s[0] != '+';
    }
  }

  /** The magnitude read from a number's decimal rendering is that number. */
  lemma MagnitudeOfNatString(m: nat)
    ensures ParseMagnitude(NatToString(m)) == Some(m)
  {
    var d := NatToString(m);
    DecimalMagnitude(d);
    DigitRunOfDecimal(d);
    assert d[..|d|] == d;
    NatToStringValue(m);
  }

  /** A text that does not start with whitespace is its own `TrimStart`. */
  lemma TrimStartOfNonWhitespace(s: string)
    requires s == [] || !IsWhitespace(s[0])
    ensures TrimStart(s) == s
  {
  }

  /** A string that neither starts nor ends with whitespace is its own trim. */
  lemma TrimOfTrimmed(s: string)
    requires s == [] || (!IsWhitespace(s[0]) && !IsWhitespace(s[|s| - 1]))
    ensures Trim(s) == s
  {
    TrimStartOfNonWhitespace(s);
  }

  /** Without a `0x` prefix the magnitude is read in radix 10. */
  lemma DecimalMagnitude(u: string)
    requires !(|u| >= 2 && u[0] == '0' && (u[1] == 'x' || u[1] == 'X'))
    ensures ParseMagnitude(u) == RunValue(u, 10)
  {
  }

  /** `parseInt` stops at the first character that is not a digit: a run of
      decimal digits followed by anything else is read as that run. */
  lemma ParseIntOfDigitsThenRest(digits: string, rest: string)
    requires |digits| >= 1 && forall i :: 0 <= i < |digits| ==> IsDecimalDigit(digits[i])
    requires rest == [] || !IsDecimalDigit(rest[0])
    requires !(digits == "0" && |rest| >= 1 && (rest[0] == 'x' || rest[0] == 'X'))
    ensures ParseInt(digits + rest) == Some(DigitsValue(digits, 10))
  {
    var s := digits + rest;
    assert s[0] == digits[0];
    TrimStartOfNonWhitespace(s);
    assert ParseSigned(s) == WithSign(ParseMagnitude(s), false);
    assert |s| >= 2 ==> s[1] == if |digits| >= 2 then digits[1] else rest[0];
    DecimalMagnitude(s);
    DigitRunPrefix(digits, rest);
    assert s[..|digits|] == digits;
  }

  /** The digit run of a string of decimal digits followed by a non-digit is
      exactly those digits. */
  lemma DigitRunPrefix(digits: string, rest: string)
    requires forall i :: 0 <= i < |digits| ==> IsDecimalDigit(digits[i])
    requires rest == [] || !IsDecimalDigit(rest[0])
    ensures DigitRunLength(digits + rest, 10) == |digits|
  {
    var s := digits + rest;
    assert forall i :: 0 <= i < |digits| ==> s[i] == digits[i];
    assert |digits| < |s| ==> s[|digits|] == rest[0];
  }

  /** Leading whitespace never changes what `parseInt` reads. */
  lemma ParseIntSkipsWhitespace(w: string, s: string)
    requires AllWhitespace(w)
    requires s == [] || !IsWhitespace(s[0])
    ensures ParseInt(w + s) == ParseInt(s)
  {
    TrimStartOfWhitespacePrefix(w, s);
    TrimStartOfNonWhitespace(s);
  }

  lemma {:induction false} TrimStartOfWhitespacePrefix(w: string, s: string)
    requires AllWhitespace(w)
    requires s == [] || !IsWhitespace(s[0])
    ensures TrimStart(w + s) == s
  {
    if w == [] {
      assert w + s == s;
    } else {
      assert (w + s)[0] == w[0];
      assert (w + s)[1..] == w[1..] + s;
      TrimStartOfWhitespacePrefix(w[1..], s);
    }
  }
}
