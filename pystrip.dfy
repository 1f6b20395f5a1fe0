/**
 * Python's `str.strip`, over sequences of code points.
 *
 * `s.strip(chars)` removes the longest prefix and the longest suffix of `s` made only of
 * characters that occur in `chars`: the argument is read as a SET of characters, not as a
 * substring. `s.strip()` with no argument removes the characters for which `str.isspace()`
 * holds.
 */
module PyStrip {

  /**
   * The code points for which Python 3's `str.isspace()` is true, which `strip()` with no
   * argument removes: U+0009..U+000D, U+001C..U+001F, U+0020, U+0085, U+00A0, U+1680,
   * U+2000..U+200A, U+2028, U+2029, U+202F, U+205F and U+3000.
   */
  const Whitespace: set<char> := {
    '\t', '\n', '\U{0B}', '\U{0C}', '\r',
    '\U{1C}', '\U{1D}', '\U{1E}', '\U{1F}', ' ',
    '\U{85}', '\U{A0}', '\U{1680}',
    '\U{2000}', '\U{2001}', '\U{2002}', '\U{2003}', '\U{2004}', '\U{2005}',
    '\U{2006}', '\U{2007}', '\U{2008}', '\U{2009}', '\U{200A}',
    '\U{2028}', '\U{2029}', '\U{202F}', '\U{205F}', '\U{3000}'
  }

  /** The set of characters a `chars` argument names; order and repetition do not matter. */
  function CharSet(chars: string): set<char> {
    set c | c in chars
  }

  /** Length of the longest prefix of `s` made of characters of `cs`. */
  function LeadingRun(s: string, cs: set<char>): (n: nat)
    ensures n <= |s|
    ensures forall k :: 0 <= k < n ==> s[k] in cs
    ensures n < |s| ==> s[n] !in cs
  {
    if s == [] || s[0] !in cs then 0 else 1 + LeadingRun(s[1..], cs)
  }

  /** Length of the longest suffix of `s` made of characters of `cs`. */
  function TrailingRun(s: string, cs: set<char>): (n: nat)
    ensures n <= |s|
    ensures forall k :: |s| - n <= k < |s| ==> s[k] in cs
    ensures n < |s| ==> s[|s| - 1 - n] !in cs
  {
    if s == [] || s[|s| - 1] !in cs then 0 else 1 + TrailingRun(s[..|s| - 1], cs)
  }

  /** Every character of `s` outside the slice `s[i..j]` belongs to `cs`. */
  predicate DroppedIn(s: string, cs: set<char>, i: nat, j: nat)
    requires i <= j <= |s|
  {
    (forall k :: 0 <= k < i ==> s[k] in cs) && (forall k :: j <= k < |s| ==> s[k] in cs)
  }

  /** `s[i..j]` is what `strip` keeps: only `cs` characters are dropped, and the kept part is
      empty or starts and ends outside `cs`. */
  predicate StrippedAt(s: string, cs: set<char>, i: nat, j: nat)
    requires i <= j <= |s|
  {
    DroppedIn(s, cs, i, j) && (i < j ==> s[i] !in cs && s[j - 1] !in cs)
  }

  /** `r` is obtained from `s` by removing characters of `cs` at the two ends only. */
  ghost predicate IsTrimOf(r: string, s: string, cs: set<char>) {
    exists i: nat, j: nat :: i <= j <= |s| && r == s[i..j] && DroppedIn(s, cs, i, j)
  }

  /** Reference definition of `s.strip(chars)` with `cs == CharSet(chars)`. */
  ghost predicate IsStripOf(r: string, s: string, cs: set<char>) {
    exists i: nat, j: nat :: i <= j <= |s| && r == s[i..j] && StrippedAt(s, cs, i, j)
  }

  /** `s.strip(chars)` for `cs == CharSet(chars)`: the leading run is removed first, then the
      trailing run of what is left, as CPython does. */
  function Strip(s: string, cs: set<char>): (r: string)
    ensures IsStripOf(r, s, cs)
    ensures r == [] || (r[0] !in cs && r[|r| - 1] !in cs)
    ensures |r| <= |s|
  {
    var i := LeadingRun(s, cs);
    var n := TrailingRun(s[i..], cs);
    assert StrippedAt(s, cs, i, |s| - n) by {
      forall k | |s| - n <= k < |s| ensures s[k] in cs {
        assert s[k] == s[i..][k - i];
      }
      if i < |s| - n {
        assert s[|s| - n - 1] == s[i..][|s[i..]| - 1 - n];
      }
    }
    s[i..|s| - n]
  }

  /** Two slices that both satisfy the strip conditions are equal. */
  lemma StrippedAtUnique(s: string, cs: set<char>, i: nat, j: nat, a: nat, b: nat)
    requires i <= j <= |s| && StrippedAt(s, cs, i, j)
    requires a <= b <= |s| && StrippedAt(s, cs, a, b)
    ensures s[i..j] == s[a..b]
  {
  }

  /** The reference definition determines the result: `Strip` is the only function meeting it. */
  lemma StripUnique(r: string, s: string, cs: set<char>)
    requires IsStripOf(r, s, cs)
    ensures r == Strip(s, cs)
  {
    var i: nat, j: nat :| i <= j <= |s| && r == s[i..j] && StrippedAt(s, cs, i, j);
    var t := Strip(s, cs);
    var a: nat, b: nat :| a <= b <= |s| && t == s[a..b] && StrippedAt(s, cs, a, b);
    StrippedAtUnique(s, cs, i, j, a, b);
  }

  /** A string already clean at both ends is returned unchanged. */
  lemma StripClean(s: string, cs: set<char>)
    requires s == [] || (s[0] !in cs && s[|s| - 1] !in cs)
    ensures Strip(s, cs) == s
  {
    assert s == s[0..|s|];
    assert StrippedAt(s, cs, 0, |s|);
    StripUnique(s, s, cs);
  }

  /** `strip` only ever removes characters of `cs`, and only at the two ends. */
  lemma StripIsTrim(s: string, cs: set<char>)
    ensures IsTrimOf(Strip(s, cs), s, cs)
  {
    var r := Strip(s, cs);
    var i: nat, j: nat :| i <= j <= |s| && r == s[i..j] && StrippedAt(s, cs, i, j);
    assert DroppedIn(s, cs, i, j);
  }

  /** A slice of a slice is a slice of the original string. */
  lemma SliceOfSlice(s: string, i: nat, j: nat, a: nat, b: nat)
    requires i <= j <= |s| && a <= b <= j - i
    ensures s[i..j][a..b] == s[i + a..i + b]
  {
    var t := s[i..j];
    assert forall k :: 0 <= k < b - a ==> t[a..b][k] == t[a + k] == s[i + a + k];
  }

  /** Characters dropped by two nested trims are dropped by one trim with both sets. */
  lemma DroppedCompose(s: string, c1: set<char>, c2: set<char>, i: nat, j: nat, a: nat, b: nat)
    requires i <= j <= |s| && a <= b <= j - i
    requires DroppedIn(s, c1, i, j) && DroppedIn(s[i..j], c2, a, b)
    ensures DroppedIn(s, c1 + c2, i + a, i + b)
  {
    var t := s[i..j];
    forall k | 0 <= k < i + a ensures s[k] in c1 + c2 {
      if k >= i { assert s[k] == t[k - i]; }
    }
    forall k | i + b <= k < |s| ensures s[k] in c1 + c2 {
      if k < j { assert s[k] == t[k - i]; }
    }
  }

  /** Trimming twice is trimming once, by the union of the two character sets. */
  lemma TrimCompose(r: string, t: string, s: string, c1: set<char>, c2: set<char>)
    requires IsTrimOf(t, s, c1) && IsTrimOf(r, t, c2)
    ensures IsTrimOf(r, s, c1 + c2)
  {
    var i: nat, j: nat :| i <= j <= |s| && t == s[i..j] && DroppedIn(s, c1, i, j);
    var a: nat, b: nat :| a <= b <= |t| && r == t[a..b] && DroppedIn(t, c2, a, b);
    SliceOfSlice(s, i, j, a, b);
    DroppedCompose(s, c1, c2, i, j, a, b);
    assert i + a <= i + b <= |s| && r == s[i + a..i + b];
  }
}
