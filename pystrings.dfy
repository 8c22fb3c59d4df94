/** The parts of Python's string behaviour the two tasks rely on: `str.strip()`
    with no argument, and `str()` of an integer (used when a document field
    that holds a number is interpolated into a prompt). */
module PyStrings {

  /** The characters Python counts as whitespace for `str.isspace` and
      `str.strip()`: the ASCII controls TAB..CR, the separators U+001C..U+001F,
      SPACE, NEL, NO-BREAK SPACE and the Unicode space separators. */
  const WHITESPACE: set<char> :=
    {'\t', '\n', '\U{0B}', '\U{0C}', '\r', '\U{1C}', '\U{1D}', '\U{1E}', '\U{1F}', ' ',
     '\U{85}', '\U{A0}', '\U{1680}',
     '\U{2000}', '\U{2001}', '\U{2002}', '\U{2003}', '\U{2004}', '\U{2005}',
     '\U{2006}', '\U{2007}', '\U{2008}', '\U{2009}', '\U{200A}',
     '\U{2028}', '\U{2029}', '\U{202F}', '\U{205F}', '\U{3000}'}

  predicate IsSpace(c: char)
  {
    c in WHITESPACE
  }

  /** `s` is whitespace through and through. */
  predicate AllSpace(s: string)
  {
    forall i :: 0 <= i < |s| ==> IsSpace(s[i])
  }

  /** Neither end is whitespace: what `strip` leaves behind. */
  predicate Trimmed(s: string)
  {
    s == [] || (!IsSpace(s[0]) && !IsSpace(s[|s| - 1]))
  }

  /** The left scan of `strip`: from index `k`, the first index that is not
      whitespace, or `|s|`. */
  function SkipSpace(s: string, k: nat): (n: nat)
    requires k <= |s|
    ensures k <= n <= |s|
    ensures forall m :: k <= m < n ==> IsSpace(s[m])
    ensures n < |s| ==> !IsSpace(s[n])
    decreases |s| - k
  {
    if k < |s| && IsSpace(s[k]) then SkipSpace(s, k + 1) else k
  }

  /** The right scan of `strip`: moving left from the end index `k`, but not
      past `lo`, the first end index not preceded by whitespace. */
  function SkipSpaceBack(s: string, lo: nat, k: nat): (n: nat)
    requires lo <= k <= |s|
    ensures lo <= n <= k
    ensures forall m :: n <= m < k ==> IsSpace(s[m])
    ensures lo < n ==> !IsSpace(s[n - 1])
    decreases k
  {
    if lo < k && IsSpace(s[k - 1]) then SkipSpaceBack(s, lo, k - 1) else k
  }

  /** The postconditions of SkipSpace determine it. */
  lemma {:induction false} SkipSpaceIs(s: string, k: nat, n: nat)
    requires k <= n <= |s|
    requires forall m :: k <= m < n ==> IsSpace(s[m])
    requires n < |s| ==> !IsSpace(s[n])
    ensures SkipSpace(s, k) == n
  {
  }

  /** The postconditions of SkipSpaceBack determine it. */
  lemma {:induction false} SkipSpaceBackIs(s: string, lo: nat, k: nat, n: nat)
    requires lo <= n <= k <= |s|
    requires forall m :: n <= m < k ==> IsSpace(s[m])
    requires lo < n ==> !IsSpace(s[n - 1])
    ensures SkipSpaceBack(s, lo, k) == n
  {
  }

  /** Where `strip` cuts `s`: the start and end index of what it keeps. */
  function StripBounds(s: string): (b: (nat, nat))
    ensures b.0 <= b.1 <= |s|
  {
    var i := SkipSpace(s, 0);
    (i, SkipSpaceBack(s, i, |s|))
  }

  /** `s.strip()`: the slice between the bounds the two scans find. It has no
      whitespace at either end, and everything `strip` drops is whitespace. */
  function Strip(s: string): (r: string)
    ensures Trimmed(r)
    ensures var (i, j) := StripBounds(s);
      && r == s[i..j]
      && (forall m :: 0 <= m < i ==> IsSpace(s[m]))
      && (forall m :: j <= m < |s| ==> IsSpace(s[m]))
  {
    var (i, j) := StripBounds(s);
    s[i..j]
  }

  /** A string with no whitespace at its ends strips to itself. */
  lemma {:induction false} StripTrimmed(m: string)
    requires Trimmed(m)
    ensures Strip(m) == m
  {
    SkipSpaceIs(m, 0, 0);
    if m != [] {
      SkipSpaceBackIs(m, 0, |m|, |m|);
    }
    assert m[0..|m|] == m;
  }

  /** The characters of `w1 + s + w2`, position by position. */
  lemma {:induction false} PaddedIndex(w1: string, s: string, w2: string)
    ensures var x := w1 + s + w2;
      && (forall m :: 0 <= m < |w1| ==> x[m] == w1[m])
      && (forall m :: |w1| <= m < |w1| + |s| ==> x[m] == s[m - |w1|])
      && (forall m :: |w1| + |s| <= m < |x| ==> x[m] == w2[m - |w1| - |s|])
  {
  }

  /** When `s` has a character that is not whitespace, the scans of the padded
      string stop at the same characters of `s` as the scans of `s` itself. */
  lemma {:induction false} StripBoundsPadded(w1: string, s: string, w2: string)
    requires AllSpace(w1) && AllSpace(w2)
    requires StripBounds(s).0 < |s|
    ensures StripBounds(w1 + s + w2) == (|w1| + StripBounds(s).0, |w1| + StripBounds(s).1)
  {
    var x := w1 + s + w2;
    var (i, j) := StripBounds(s);
    PaddedIndex(w1, s, w2);
    SkipSpaceIs(x, 0, |w1| + i);
    assert i < j by {
      assert !IsSpace(s[i]);
    }
    SkipSpaceBackIs(x, |w1| + i, |x|, |w1| + j);
  }

  /** A padded string that is whitespace throughout is scanned to its end. */
  lemma {:induction false} StripBoundsBlank(w1: string, s: string, w2: string)
    requires AllSpace(w1) && AllSpace(w2)
    requires StripBounds(s).0 == |s|
    ensures StripBounds(w1 + s + w2) == (|w1 + s + w2|, |w1 + s + w2|)
  {
    var x := w1 + s + w2;
    PaddedIndex(w1, s, w2);
    SkipSpaceIs(x, 0, |x|);
    SkipSpaceBackIs(x, |x|, |x|, |x|);
  }

  /** Whitespace added at either end of a string never changes what `strip`
      returns. */
  lemma {:induction false} StripPadded(w1: string, s: string, w2: string)
    requires AllSpace(w1) && AllSpace(w2)
    ensures Strip(w1 + s + w2) == Strip(s)
  {
    var x := w1 + s + w2;
    var (i, j) := StripBounds(s);
    if i < |s| {
      StripBoundsPadded(w1, s, w2);
      PaddedIndex(w1, s, w2);
      assert x[|w1| + i..|w1| + j] == s[i..j];
    } else {
      StripBoundsBlank(w1, s, w2);
    }
  }

  /** `strip` is exactly the removal of padding: a string with no whitespace at
      its ends, surrounded by whitespace, strips to that string. With the
      postcondition of Strip this determines Strip completely. */
  lemma {:induction false} StripRemovesPadding(w1: string, m: string, w2: string)
    requires AllSpace(w1) && AllSpace(w2) && Trimmed(m)
    ensures Strip(w1 + m + w2) == m
  {
    StripPadded(w1, m, w2);
    StripTrimmed(m);
  }

  lemma {:induction false} StripIdempotent(s: string)
    ensures Strip(Strip(s)) == Strip(s)
  {
    StripTrimmed(Strip(s));
  }

  /** The character for a decimal digit. */
  function DigitChar(d: nat): (c: char)
    requires d < 10
    ensures '0' <= c <= '9' && c as int - '0' as int == d
  {
    ('0' as int + d) as char
  }

  predicate AllDigits(s: string)
  {
    forall i :: 0 <= i < |s| ==> '0' <= s[i] <= '9'
  }

  /** The number a string of decimal digits denotes. */
  function DigitsValue(s: string): nat
    requires AllDigits(s)
  {
    if s == [] then 0 else DigitsValue(s[..|s| - 1]) * 10 + (s[|s| - 1] as int - '0' as int)
  }

  /** `str(n)` for a natural number: decimal digits, no leading zero. */
  function NatToDecimal(n: nat): (r: string)
    ensures |r| > 0 && AllDigits(r)
    ensures r[0] == '0' ==> r == "0"
    ensures DigitsValue(r) == n
  {
    if n < 10 then [DigitChar(n)]
    else
      var prefix := NatToDecimal(n / 10);
      var r := prefix + [DigitChar(n % 10)];
      assert r[..|r| - 1] == prefix;
      r
  }

  /** `str(i)` for an integer: a minus sign before the digits of a negative
      number. */
  function IntToDecimal(i: int): (r: string)
    ensures |r| > 0
    ensures i < 0 <==> r[0] == '-'
    ensures i >= 0 ==> r == NatToDecimal(i)
    ensures i < 0 ==> r[1..] == NatToDecimal(-i)
  {
    if i < 0 then "-" + NatToDecimal(-i) else NatToDecimal(i)
  }
}
