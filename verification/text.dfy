/** The string operations the app leans on: Kotlin's `isBlank`, `trim`,
    `equals(ignoreCase = true)` and `contains(ignoreCase = true)`.
    Whitespace is Kotlin's `Char.isWhitespace` restricted to the ASCII range;
    case folding covers ASCII and the Latin-1 letters (Á, É, Ñ, Ü, ...). */
module Text {
  import opened Wrappers

  /** Tab, line feed, vertical tab, form feed, carriage return,
      the four information separators and space. */
  predicate IsWs(c: char) {
    ('\t' <= c <= '\r') || ('\U{1C}' <= c <= ' ')
  }

  /** `isBlank()`: empty or whitespace only. */
  predicate IsBlank(s: string): (b: bool)
    ensures b <==> SkipWs(s, 0) == |s|
  {
    forall i :: 0 <= i < |s| ==> IsWs(s[i])
  }

  /** The index of the first non-whitespace character at or after `from`,
      or `|s|` when there is none. */
  function SkipWs(s: string, from: nat): (n: nat)
    requires from <= |s|
    decreases |s| - from
    ensures from <= n <= |s|
    ensures forall k :: from <= k < n ==> IsWs(s[k])
    ensures n < |s| ==> !IsWs(s[n])
  {
    if from < |s| && IsWs(s[from]) then SkipWs(s, from + 1) else from
  }

  /** The end of `s[lo..hi]` once its trailing whitespace is dropped. */
  function SkipWsBack(s: string, lo: nat, hi: nat): (m: nat)
    requires lo <= hi <= |s|
    decreases hi - lo
    ensures lo <= m <= hi
    ensures forall k :: m <= k < hi ==> IsWs(s[k])
    ensures lo < m ==> !IsWs(s[m - 1])
  {
    if lo < hi && IsWs(s[hi - 1]) then SkipWsBack(s, lo, hi - 1) else hi
  }

  /** `r` sits in `s` at `i` with only whitespace before and after it. */
  ghost predicate TrimmedAt(s: string, r: string, i: int) {
    && 0 <= i <= |s| - |r|
    && s[i..i + |r|] == r
    && (forall k :: 0 <= k < i ==> IsWs(s[k]))
    && (forall k :: i + |r| <= k < |s| ==> IsWs(s[k]))
  }

  /** `trim()`: the infix of `s` left after dropping whitespace at both ends;
      it is empty exactly when `s` is blank. */
  function Trim(s: string): (r: string)
    ensures |r| <= |s|
    ensures exists i :: TrimmedAt(s, r, i)
    ensures r == [] || (!IsWs(r[0]) && !IsWs(r[|r| - 1]))
    ensures r == [] <==> IsBlank(s)
  {
    var lo := SkipWs(s, 0);
    var hi := SkipWsBack(s, lo, |s|);
    assert lo < hi ==> !IsWs(s[lo]);
    assert TrimmedAt(s, s[lo..hi], lo);
    s[lo..hi]
  }

  /** A string with no whitespace at either end is its own trim. */
  lemma TrimFixed(s: string)
    requires s == [] || (!IsWs(s[0]) && !IsWs(s[|s| - 1]))
    ensures Trim(s) == s
  {
    if s != [] {
      assert SkipWs(s, 0) == 0;
      assert SkipWsBack(s, 0, |s|) == |s|;
    }
  }

  /** The trimmed string is blank exactly when the original is. */
  lemma TrimBlankIff(s: string)
    ensures IsBlank(Trim(s)) <==> IsBlank(s)
  {
    var r := Trim(s);
    if r != [] {
      assert !IsWs(r[0]);
    }
  }

  /** Trimming twice is trimming once. */
  lemma TrimIdempotent(s: string)
    ensures Trim(Trim(s)) == Trim(s)
  {
    TrimFixed(Trim(s));
  }

  /** The per-character case fold behind `ignoreCase = true`. */
  function Fold(c: char): char {
    if 'A' <= c <= 'Z' || ('À' <= c <= 'Þ' && c != '×') then (c as int + 32) as char else c
  }

  /** `a.equals(b, ignoreCase = true)`. */
  predicate EqualsIgnoreCase(a: string, b: string): (r: bool)
    ensures r <==> |a| == |b| && MatchesAt(a, b, 0)
    ensures r ==> ContainsIgnoreCase(a, b) && ContainsIgnoreCase(b, a)
  {
    |a| == |b| && forall i :: 0 <= i < |a| ==> Fold(a[i]) == Fold(b[i])
  }

  /** `needle` occurs in `hay` at position `i`, ignoring case. */
  predicate MatchesAt(hay: string, needle: string, i: int) {
    0 <= i && i + |needle| <= |hay| && forall k :: 0 <= k < |needle| ==> Fold(hay[i + k]) == Fold(needle[k])
  }

  /** `hay.indexOf(needle, from, ignoreCase = true)`: the first position at or
      after `from` where `needle` occurs, or None. */
  function IndexOfIgnoreCase(hay: string, needle: string, from: nat): (r: Option<nat>)
    decreases |hay| - from
    ensures r.Some? ==> from <= r.value && MatchesAt(hay, needle, r.value)
    ensures r.Some? ==> forall j :: from <= j < r.value ==> !MatchesAt(hay, needle, j)
    ensures r.None? ==> forall j :: from <= j ==> !MatchesAt(hay, needle, j)
  {
    if from + |needle| > |hay| then None
    else if MatchesAt(hay, needle, from) then Some(from)
    else IndexOfIgnoreCase(hay, needle, from + 1)
  }

  /** `hay.contains(needle, ignoreCase = true)`. */
  function ContainsIgnoreCase(hay: string, needle: string): (r: bool)
    ensures r <==> exists i :: MatchesAt(hay, needle, i)
  {
    IndexOfIgnoreCase(hay, needle, 0).Some?
  }
}
