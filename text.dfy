/**
 * The Python `str` operations the ETL code relies on (`strip`, `lower`,
 * `title`, `split`, `rfind`, `replace`, `int(...)`, `str(int)`, `format(n, "02d")`),
 * restricted to ASCII: Python's Unicode whitespace, Unicode case mapping and
 * Unicode digits are not modelled.
 */
module Text {
  import opened Wrappers

  // ---------------------------------------------------------------------------
  // Character classes
  // ---------------------------------------------------------------------------

  /** The whitespace `str.strip()` removes, restricted to space, \t, \n, \v,
      \f and \r: the separators \x1c to \x1f and non-ASCII spaces, which
      Python also strips, are not counted here. */
  predicate IsSpace(c: char) {
    c == ' ' || c == '\t' || c == '\n' || c == '\r' || c == '\U{0B}' || c == '\U{0C}'
  }

  predicate IsDigit(c: char) { '0' <= c <= '9' }

  predicate IsUpper(c: char) { 'A' <= c <= 'Z' }

  predicate IsLower(c: char) { 'a' <= c <= 'z' }

  /** An ASCII "cased" character in the sense of `str.title()`. */
  predicate IsLetter(c: char) { IsUpper(c) || IsLower(c) }

  function LowerChar(c: char): (r: char)
    ensures !IsUpper(r)
    ensures IsLetter(c) <==> IsLetter(r)
    ensures !IsLetter(c) ==> r == c
  {
    if IsUpper(c) then (c as int + 32) as char else c
  }

  function UpperChar(c: char): (r: char)
    ensures !IsLower(r)
    ensures IsLetter(c) <==> IsLetter(r)
    ensures !IsLetter(c) ==> r == c
    ensures LowerChar(r) == LowerChar(c)
  {
    if IsLower(c) then (c as int - 32) as char else c
  }

  // ---------------------------------------------------------------------------
  // strip / lower / title
  // ---------------------------------------------------------------------------

  /** `s.lstrip()` */
  function TrimStart(s: string): (r: string)
    ensures |r| <= |s|
    ensures r == [] || !IsSpace(r[0])
    ensures forall i :: 0 <= i < |s| - |r| ==> IsSpace(s[i])
  {
    if s != [] && IsSpace(s[0]) then TrimStart(s[1..]) else s
  }

  /** What `lstrip` keeps is a suffix of its input. */
  lemma {:induction false} TrimStartSuffix(s: string)
    ensures TrimStart(s) == s[|s| - |TrimStart(s)|..]
  {
    if s != [] && IsSpace(s[0]) {
      TrimStartSuffix(s[1..]);
    }
  }

  /** `s.rstrip()` */
  function TrimEnd(s: string): (r: string)
    ensures |r| <= |s|
    ensures r == [] || !IsSpace(r[|r| - 1])
    ensures forall i :: |r| <= i < |s| ==> IsSpace(s[i])
  {
    if s != [] && IsSpace(s[|s| - 1]) then TrimEnd(s[..|s| - 1]) else s
  }

  /** What `rstrip` keeps is a prefix of its input. */
  lemma {:induction false} TrimEndPrefix(s: string)
    ensures TrimEnd(s) == s[..|TrimEnd(s)|]
  {
    if s != [] && IsSpace(s[|s| - 1]) {
      TrimEndPrefix(s[..|s| - 1]);
    }
  }

  /** No whitespace at either end. */
  predicate Stripped(s: string) {
    s == [] || (!IsSpace(s[0]) && !IsSpace(s[|s| - 1]))
  }

  /** `s.strip()`: the result has no outer whitespace, and a string without
      outer whitespace is left alone. */
  function Strip(s: string): (r: string)
    ensures |r| <= |s|
    ensures Stripped(r)
    ensures Stripped(s) ==> r == s
  {
    TrimEndPrefix(TrimStart(s));
    TrimEnd(TrimStart(s))
  }

  /** Stripping removes the blank that separates a word from what follows it. */
  lemma {:induction false} StripTrailingSpace(a: string)
    requires Stripped(a) && a != []
    ensures Strip(a + " ") == a
  {
    var s := a + " ";
    assert s[0] == a[0] && !IsSpace(s[0]);
    assert TrimStart(s) == s;
    assert s[..|s| - 1] == a;
    assert TrimEnd(s) == TrimEnd(a);
  }

  /** A string of digits holds no other character. */
  lemma DigitsOnly(s: string, c: char)
    requires AllDigits(s) && !IsDigit(c)
    ensures c !in s
  {
  }

  /** `s.lower()` */
  function Lower(s: string): (r: string)
    ensures |r| == |s|
    ensures forall i :: 0 <= i < |s| ==> r[i] == LowerChar(s[i])
  {
    if s == [] then [] else [LowerChar(s[0])] + Lower(s[1..])
  }

  /** No upper-case letters. */
  predicate IsLowerCase(s: string) {
    forall i :: 0 <= i < |s| ==> !IsUpper(s[i])
  }

  /** Lower-casing leaves a string without capitals unchanged. */
  lemma {:induction false} LowerFixesLowerCase(s: string)
    requires IsLowerCase(s)
    ensures Lower(s) == s
  {
    forall i | 0 <= i < |s| ensures Lower(s)[i] == s[i] {
      assert !IsUpper(s[i]);
    }
  }

  /** Stripping only removes characters, so it keeps a string free of capitals. */
  lemma {:induction false} StripKeepsLowerCase(s: string)
    requires IsLowerCase(s)
    ensures IsLowerCase(Strip(s))
  {
    var t := TrimStart(s);
    TrimStartSuffix(s);
    TrimEndPrefix(t);
    forall i | 0 <= i < |t| ensures !IsUpper(t[i]) {
      assert t[i] == s[|s| - |t| + i];
    }
  }

  /** `lstrip` stops at the first character that is not whitespace. */
  lemma {:induction false} TrimStartAt(x: string, j: int)
    requires 0 <= j <= |x| && (forall i :: 0 <= i < j ==> IsSpace(x[i]))
    requires j == |x| || !IsSpace(x[j])
    ensures TrimStart(x) == x[j..]
  {
    var k := |x| - |TrimStart(x)|;
    TrimStartSuffix(x);
    assert k < |x| ==> TrimStart(x)[0] == x[k];
  }

  /** `rstrip` stops after the last character that is not whitespace. */
  lemma {:induction false} TrimEndAt(x: string, j: int)
    requires 0 <= j <= |x| && (forall i :: j <= i < |x| ==> IsSpace(x[i]))
    requires j == 0 || !IsSpace(x[j - 1])
    ensures TrimEnd(x) == x[..j]
  {
    var k := |TrimEnd(x)|;
    TrimEndPrefix(x);
    assert k > 0 ==> TrimEnd(x)[k - 1] == x[k - 1];
  }

  /** `x[k..k + m]` is what stripping `x` keeps: whitespace before and after
      it, and it neither starts nor ends with whitespace. */
  predicate StripBounds(x: string, k: int, m: int) {
    && 0 <= k && 0 <= m && k + m <= |x|
    && (forall i :: 0 <= i < k ==> IsSpace(x[i]))
    && (forall i :: k + m <= i < |x| ==> IsSpace(x[i]))
    && (m == 0 ==> k == |x|)
    && (m > 0 ==> !IsSpace(x[k]) && !IsSpace(x[k + m - 1]))
  }

  lemma {:induction false} StripAt(x: string, k: int, m: int)
    requires StripBounds(x, k, m)
    ensures Strip(x) == x[k..k + m]
  {
    TrimStartAt(x, k);
    TrimEndBound(x, k, m);
  }

  lemma {:induction false} TrimEndBound(x: string, k: int, m: int)
    requires StripBounds(x, k, m)
    ensures TrimEnd(x[k..]) == x[k..k + m]
  {
    var u := x[k..];
    assert forall i :: m <= i < |u| ==> u[i] == x[k + i];
    assert m > 0 ==> u[m - 1] == x[k + m - 1];
    TrimEndAt(u, m);
    assert u[..m] == x[k..k + m];
  }

  lemma {:induction false} StripHasBounds(x: string) returns (k: int, m: int)
    ensures StripBounds(x, k, m)
  {
    k := |x| - |TrimStart(x)|;
    m := |TrimEnd(TrimStart(x))|;
    var u := TrimStart(x);
    TrimStartSuffix(x);
    TrimEndPrefix(u);
    forall i | k + m <= i < |x| ensures IsSpace(x[i]) {
      assert x[i] == u[i - k];
    }
    if m > 0 {
      assert x[k] == u[0] && x[k + m - 1] == TrimEnd(u)[m - 1];
    }
    assert u != [] ==> !IsSpace(u[0]);
  }

  /** Characters equal up to case are both whitespace or both not. */
  lemma SpaceUpToCase(x: char, y: char)
    requires LowerChar(x) == LowerChar(y)
    ensures IsSpace(x) <==> IsSpace(y)
  {
  }

  /** Lower-casing works character by character, so it commutes with slicing. */
  lemma {:induction false} LowerSlice(s: string, i: int, j: int)
    requires 0 <= i <= j <= |s|
    ensures Lower(s[i..j]) == Lower(s)[i..j]
  {
    var l, r := Lower(s[i..j]), Lower(s)[i..j];
    forall n | 0 <= n < j - i ensures l[n] == r[n] {
      assert s[i..j][n] == s[i + n];
    }
  }

  /** Strings equal up to case have whitespace at the same places. */
  lemma {:induction false} SpacesAlike(a: string, b: string)
    requires Lower(a) == Lower(b)
    ensures |a| == |b| && forall i :: 0 <= i < |a| ==> (IsSpace(a[i]) <==> IsSpace(b[i]))
  {
    assert |a| == |Lower(a)| == |b|;
    forall i | 0 <= i < |a| ensures IsSpace(a[i]) <==> IsSpace(b[i]) {
      assert Lower(a)[i] == Lower(b)[i];
      SpaceUpToCase(a[i], b[i]);
    }
  }

  /** Whitespace is not a letter, so strings equal up to case lose the same
      outer whitespace when stripped: the results are still equal up to case. */
  lemma {:induction false} StripUpToCase(a: string, b: string)
    requires Lower(a) == Lower(b)
    ensures Lower(Strip(a)) == Lower(Strip(b))
  {
    SpacesAlike(a, b);
    var k, m := StripHasBounds(a);
    BoundsAlike(a, b, k, m);
    StripAt(a, k, m);
    StripAt(b, k, m);
    LowerSlice(a, k, k + m);
    LowerSlice(b, k, k + m);
  }

  /** Stripping bounds depend only on where the whitespace is. */
  lemma {:induction false} BoundsAlike(a: string, b: string, k: int, m: int)
    requires StripBounds(a, k, m)
    requires |a| == |b| && forall i :: 0 <= i < |a| ==> (IsSpace(a[i]) <==> IsSpace(b[i]))
    ensures StripBounds(b, k, m)
  {
  }

  /** Only whitespace. */
  predicate AllSpace(p: string) {
    forall i :: 0 <= i < |p| ==> IsSpace(p[i])
  }

  /** Whitespace added around a string is stripped off again. */
  lemma {:induction false} StripPadding(p: string, s: string, q: string)
    requires AllSpace(p) && AllSpace(q)
    ensures Strip(p + s + q) == Strip(s)
  {
    var t := p + s + q;
    var k, m := StripHasBounds(s);
    var k' := if m == 0 then |t| else |p| + k;
    PaddedBounds(p, s, q, k, m);
    StripAt(s, k, m);
    StripAt(t, k', m);
    SliceOfPadded(p, s, q, k, m);
  }

  lemma {:induction false} SliceOfPadded(p: string, s: string, q: string, k: int, m: int)
    requires 0 <= k && 0 <= m && k + m <= |s|
    ensures (p + s + q)[|p| + k..|p| + k + m] == s[k..k + m]
  {
    var u, v := (p + s + q)[|p| + k..|p| + k + m], s[k..k + m];
    forall i | 0 <= i < m ensures u[i] == v[i] {
    }
  }

  /** Whitespace added at both ends moves the stripping bounds, not the kept part. */
  lemma {:induction false} PaddedBounds(p: string, s: string, q: string, k: int, m: int)
    requires AllSpace(p) && AllSpace(q) && StripBounds(s, k, m)
    ensures StripBounds(p + s + q, if m == 0 then |p + s + q| else |p| + k, m)
  {
    var t := p + s + q;
    var k' := if m == 0 then |t| else |p| + k;
    forall i | 0 <= i < k' ensures IsSpace(t[i]) {
      if |p| <= i < |p| + |s| { assert t[i] == s[i - |p|]; }
    }
    forall i | k' + m <= i < |t| ensures IsSpace(t[i]) {
      if i < |p| + |s| { assert t[i] == s[i - |p|]; }
    }
    assert m > 0 ==> t[k'] == s[k] && t[k' + m - 1] == s[k + m - 1];
  }

  /** `s.title()`: a letter is upper-cased when it starts a run of letters and
      lower-cased otherwise; every other character is kept. */
  function Title(s: string): (r: string)
    ensures |r| == |s|
  {
    seq(|s|, i requires 0 <= i < |s| =>
      if i == 0 || !IsLetter(s[i - 1]) then UpperChar(s[i]) else LowerChar(s[i]))
  }

  /** Title-casing changes letters only, so lower-casing cannot tell its result
      from its argument, and whitespace stays where it was. */
  lemma {:induction false} TitleKeepsLetters(s: string)
    ensures Lower(Title(s)) == Lower(s)
    ensures Stripped(s) ==> Stripped(Title(s))
  {
    var t := Title(s);
    forall i | 0 <= i < |s| ensures Lower(t)[i] == Lower(s)[i] {
      assert t[i] == UpperChar(s[i]) || t[i] == LowerChar(s[i]);
    }
    if s != [] {
      assert IsSpace(t[0]) ==> IsSpace(s[0]);
      assert IsSpace(t[|t| - 1]) ==> IsSpace(s[|s| - 1]);
    }
  }

  // ---------------------------------------------------------------------------
  // Integers: `int(s)` and `str(n)`
  // ---------------------------------------------------------------------------

  predicate AllDigits(s: string) {
    forall i :: 0 <= i < |s| ==> IsDigit(s[i])
  }

  function DigitValue(c: char): int
    requires IsDigit(c)
  {
    c as int - '0' as int
  }

  function DigitChar(d: int): (c: char)
    requires 0 <= d < 10
    ensures IsDigit(c) && DigitValue(c) == d
  {
    ('0' as int + d) as char
  }

  /** The value of a string of decimal digits, most significant first. */
  function DigitsValue(s: string): nat
    requires AllDigits(s)
  {
    if s == [] then 0 else DigitsValue(s[..|s| - 1]) * 10 + DigitValue(s[|s| - 1])
  }

  function Pow10(n: nat): (p: nat)
    ensures p >= 1
  {
    if n == 0 then 1 else 10 * Pow10(n - 1)
  }

  /** A numeral of `k` digits stays below 10^k. */
  lemma {:induction false} DigitsBound(s: string)
    requires AllDigits(s)
    ensures DigitsValue(s) < Pow10(|s|)
  {
    if s != [] {
      DigitsBound(s[..|s| - 1]);
    }
  }

  /** Python's `int(s)` for a string, `None` where it raises `ValueError`:
      optional surrounding whitespace, an optional sign and at least one ASCII
      digit. Underscore separators and non-ASCII digits are not modelled. */
  function ParseInt(s: string): Option<int>
  {
    ParseSigned(Strip(s))
  }

  /** The sign-and-digits part of `int(s)`, once the whitespace is gone. */
  function ParseSigned(t: string): Option<int>
  {
    if |t| > 0 && (t[0] == '+' || t[0] == '-') then
      var digits := t[1..];
      if |digits| > 0 && AllDigits(digits) then
        var v: int := DigitsValue(digits);
        Some(if t[0] == '-' then -v else v)
      else None
    else if |t| > 0 && AllDigits(t) then Some(DigitsValue(t))
    else None
  }

  /** `int` ignores surrounding whitespace, so stripping first changes nothing. */
  lemma ParseIntStripped(s: string)
    ensures ParseInt(Strip(s)) == ParseInt(s)
  {
    assert Strip(Strip(s)) == Strip(s);
  }

  /** Decimal digits of a natural number without leading zeros (`str(n)`, n >= 0). */
  function Natural(n: nat): (s: string)
    ensures |s| >= 1 && AllDigits(s) && DigitsValue(s) == n
    ensures |s| > 1 ==> s[0] != '0'
    ensures n < 10 ==> |s| == 1
    ensures n < 100 ==> |s| <= 2
    ensures n < 10000 ==> |s| <= 4
    decreases n
  {
    if n < 10 then [DigitChar(n)]
    else
      var prefix := Natural(n / 10);
      var s := prefix + [DigitChar(n % 10)];
      assert s[..|s| - 1] == prefix;
      s
  }

  /** `str(n)` for a Python int. */
  function Decimal(n: int): (s: string)
    ensures |s| >= 1 && Stripped(s)
    ensures '(' !in s && ')' !in s && '/' !in s && ' ' !in s
    ensures n >= 0 ==> AllDigits(s) && DigitsValue(s) == n
  {
    if n < 0 then "-" + Natural(-n) else Natural(n)
  }

  /** `int(str(n)) == n`. */
  lemma {:induction false} DecimalRoundTrip(n: int)
    ensures ParseInt(Decimal(n)) == Some(n)
  {
    if n < 0 {
      NegativeParses(-n);
    } else {
      NaturalParses(n);
    }
    assert ParseSigned(Decimal(n)) == Some(n);
    assert ParseInt(Decimal(n)) == ParseSigned(Decimal(n));
  }

  lemma {:induction false} NaturalParses(n: nat)
    ensures ParseSigned(Natural(n)) == Some(n)
  {
    var d := Natural(n);
    assert IsDigit(d[0]);
  }

  lemma {:induction false} NegativeParses(n: nat)
    requires n > 0
    ensures ParseSigned("-" + Natural(n)) == Some(-(n as int))
  {
    var d := Natural(n);
    var s := "-" + d;
    assert s[0] == '-' && s[1..] == d;
  }

  /** `str` is injective on integers. */
  lemma DecimalInjective(m: int, n: int)
    requires Decimal(m) == Decimal(n)
    ensures m == n
  {
    DecimalRoundTrip(m);
    DecimalRoundTrip(n);
  }

  function Zeros(k: nat): (z: string)
    ensures |z| == k && AllDigits(z)
  {
    seq(k, _ => '0')
  }

  /** Leading zeros do not change the value of a digit string. */
  lemma {:induction false} LeadingZeros(k: nat, d: string)
    requires AllDigits(d)
    ensures AllDigits(Zeros(k) + d) && DigitsValue(Zeros(k) + d) == DigitsValue(d)
    decreases |d|
  {
    var s := Zeros(k) + d;
    if d == [] {
      assert s == Zeros(k);
      ZerosValue(k);
    } else {
      var d' := d[..|d| - 1];
      assert s[..|s| - 1] == Zeros(k) + d';
      LeadingZeros(k, d');
    }
  }

  lemma {:induction false} ZerosValue(k: nat)
    ensures DigitsValue(Zeros(k)) == 0
  {
    if k > 0 {
      assert Zeros(k)[..k - 1] == Zeros(k - 1);
      ZerosValue(k - 1);
    }
  }

  /** `format(n, "0<width>d")`: at least `width` digits, padded with zeros on
      the left, that still read back as `n`. */
  function ZeroPad(n: nat, width: nat): (s: string)
    ensures |s| >= width && AllDigits(s) && DigitsValue(s) == n
    ensures n < 100 && width == 2 ==> |s| == 2
    ensures n < 10000 && width == 4 ==> |s| == 4
    ensures Stripped(s) && '/' !in s && '-' !in s
  {
    var d := Natural(n);
    if |d| < width then
      LeadingZeros(width - |d|, d);
      Zeros(width - |d|) + d
    else d
  }

  // ---------------------------------------------------------------------------
  // split / join / rfind / replace
  // ---------------------------------------------------------------------------

  /** `sep.join(parts)` */
  function Join(parts: seq<string>, sep: char): string
    requires |parts| >= 1
  {
    if |parts| == 1 then parts[0] else parts[0] + [sep] + Join(parts[1..], sep)
  }

  /** `s.split(sep)` for a one-character separator: the pieces contain no
      separator and joining them back gives `s`. */
  function Split(s: string, sep: char): (parts: seq<string>)
    ensures |parts| >= 1
    ensures forall i :: 0 <= i < |parts| ==> sep !in parts[i]
    ensures Join(parts, sep) == s
  {
    if s == [] then [""]
    else
      var rest := Split(s[1..], sep);
      if s[0] == sep then
        [""] + rest
      else
        var parts := [[s[0]] + rest[0]] + rest[1..];
        assert parts[1..] == rest[1..];
        parts
  }

  /** Splitting at a separator that only occurs once, after `a`. */
  lemma {:induction false} SplitAfter(a: string, sep: char, b: string)
    requires sep !in a
    ensures Split(a + [sep] + b, sep) == [a] + Split(b, sep)
    decreases |a|
  {
    if a != [] {
      assert (a + [sep] + b)[1..] == a[1..] + [sep] + b;
      SplitAfter(a[1..], sep, b);
      assert a == [a[0]] + a[1..];
    } else {
      assert (a + [sep] + b)[1..] == b;
    }
  }

  /** Joining pieces free of the separator and splitting again gives the
      pieces back. */
  lemma {:induction false} SplitJoin(parts: seq<string>, sep: char)
    requires |parts| >= 1
    requires forall i :: 0 <= i < |parts| ==> sep !in parts[i]
    ensures Split(Join(parts, sep), sep) == parts
    decreases |parts|
  {
    if |parts| == 1 {
      SplitNone(parts[0], sep);
    } else {
      SplitJoin(parts[1..], sep);
      SplitAfter(parts[0], sep, Join(parts[1..], sep));
      assert parts == [parts[0]] + parts[1..];
    }
  }

  /** A string without the separator splits into itself. */
  lemma {:induction false} SplitNone(a: string, sep: char)
    requires sep !in a
    ensures Split(a, sep) == [a]
    decreases |a|
  {
    if a != [] {
      SplitNone(a[1..], sep);
    }
  }

  /** `s.rfind(c)`, with `None` for -1. */
  function RFind(s: string, c: char): (r: Option<nat>)
    ensures r.None? <==> c !in s
    ensures r.Some? ==> r.value < |s| && s[r.value] == c && c !in s[r.value + 1..]
  {
    if s == [] then None
    else if s[|s| - 1] == c then Some(|s| - 1)
    else
      assert s == s[..|s| - 1] + [s[|s| - 1]];
      RFind(s[..|s| - 1], c)
  }

  /** `s.endswith(c)` for one character. */
  predicate EndsWith(s: string, c: char) {
    |s| > 0 && s[|s| - 1] == c
  }

  /** `s.replace(c, "")` */
  function RemoveAll(s: string, c: char): (r: string)
    ensures c !in r && |r| <= |s|
    ensures forall x :: x != c ==> (x in r <==> x in s)
  {
    if s == [] then []
    else if s[0] == c then RemoveAll(s[1..], c)
    else [s[0]] + RemoveAll(s[1..], c)
  }

  /** One character: `c` itself is dropped and any other character kept. */
  lemma RemoveOne(x: char, c: char)
    ensures RemoveAll([x], c) == if x == c then [] else [x]
  {
  }

  /** Removal works piece by piece: together with `RemoveOne` this pins the
      result, every other character kept in its order. */
  lemma {:induction false} RemoveAllAppend(s: string, t: string, c: char)
    ensures RemoveAll(s + t, c) == RemoveAll(s, c) + RemoveAll(t, c)
  {
    if s != [] {
      assert (s + t)[0] == s[0];
      assert (s + t)[1..] == s[1..] + t;
      RemoveAllAppend(s[1..], t, c);
      if s[0] != c {
        assert [s[0]] + (RemoveAll(s[1..], c) + RemoveAll(t, c))
            == ([s[0]] + RemoveAll(s[1..], c)) + RemoveAll(t, c);
      }
    } else {
      assert s + t == t;
    }
  }

  /** Removing a character the string does not hold changes nothing. */
  lemma {:induction false} RemoveAbsent(s: string, c: char)
    requires c !in s
    ensures RemoveAll(s, c) == s
  {
    if s != [] {
      assert c !in s[1..];
      RemoveAbsent(s[1..], c);
      assert s == [s[0]] + s[1..];
    }
  }

  /** A trailing `c` is removed with the rest. */
  lemma {:induction false} RemoveTrailing(s: string, c: char)
    requires c !in s
    ensures RemoveAll(s + [c], c) == s
  {
    if s == [] {
      assert RemoveAll([c], c) == RemoveAll([], c);
    } else {
      assert (s + [c])[1..] == s[1..] + [c];
      assert c !in s[1..];
      RemoveTrailing(s[1..], c);
      assert s == [s[0]] + s[1..];
    }
  }

  /** `s.replace(c, d)` for one-character strings. */
  function ReplaceAll(s: string, c: char, d: char): (r: string)
    ensures |r| == |s|
    ensures forall i :: 0 <= i < |s| ==> r[i] == if s[i] == c then d else s[i]
  {
    if s == [] then [] else [if s[0] == c then d else s[0]] + ReplaceAll(s[1..], c, d)
  }

  // ---------------------------------------------------------------------------
  // Python's string order (code point by code point)
  // ---------------------------------------------------------------------------

  predicate StrLess(a: string, b: string) {
    if a == [] then b != []
    else if b == [] then false
    else a[0] < b[0] || (a[0] == b[0] && StrLess(a[1..], b[1..]))
  }

  lemma {:induction false} StrLessIrreflexive(a: string)
    ensures !StrLess(a, a)
  {
    if a != [] {
      StrLessIrreflexive(a[1..]);
    }
  }

  lemma {:induction false} StrLessTotal(a: string, b: string)
    ensures a == b || StrLess(a, b) || StrLess(b, a)
  {
    if a != [] && b != [] && a[0] == b[0] {
      StrLessTotal(a[1..], b[1..]);
      if a[1..] == b[1..] {
        assert a == [a[0]] + a[1..] && b == [b[0]] + b[1..];
      }
    }
  }

  lemma {:induction false} StrLessTransitive(a: string, b: string, c: string)
    requires StrLess(a, b) && StrLess(b, c)
    ensures StrLess(a, c)
  {
    if a != [] && a[0] == b[0] && b[0] == c[0] {
      StrLessTransitive(a[1..], b[1..], c[1..]);
    }
  }
}
