/** The Kotlin collection operations the app composes (`filter`, `mapNotNull`),
    on sequences, with the order-preserving "subsequence" relation they share. */
module Seqs {
  import opened Wrappers

  /** `r` is `s` with some elements deleted and the rest kept in order. */
  ghost predicate IsSubsequence<T>(r: seq<T>, s: seq<T>)
    decreases |s|
  {
    if |r| == 0 then true
    else if |s| == 0 then false
    else (r[0] == s[0] && IsSubsequence(r[1..], s[1..])) || IsSubsequence(r, s[1..])
  }

  /** A subsequence of a subsequence is a subsequence. */
  lemma {:induction false} SubsequenceTransitive<T>(a: seq<T>, b: seq<T>, c: seq<T>)
    requires IsSubsequence(a, b) && IsSubsequence(b, c)
    ensures IsSubsequence(a, c)
    decreases |c|
  {
    if |a| == 0 {
    } else if IsSubsequence(b, c[1..]) {
      SubsequenceTransitive(a, b, c[1..]);
    } else if a[0] == b[0] && IsSubsequence(a[1..], b[1..]) {
      SubsequenceTransitive(a[1..], b[1..], c[1..]);
    } else {
      SubsequenceTransitive(a, b[1..], c[1..]);
    }
  }

  /** Everything a subsequence holds comes from the sequence it was taken from. */
  lemma {:induction false} SubsequenceMembers<T>(r: seq<T>, s: seq<T>)
    requires IsSubsequence(r, s)
    ensures forall i :: 0 <= i < |r| ==> r[i] in s
    decreases |s|
  {
    if |r| == 0 {
    } else if IsSubsequence(r, s[1..]) {
      SubsequenceMembers(r, s[1..]);
    } else {
      SubsequenceMembers(r[1..], s[1..]);
      assert r == [r[0]] + r[1..];
    }
  }

  /** `s.filter(p)`: the elements satisfying `p`, in their original order. */
  function Filter<T>(p: T -> bool, s: seq<T>): (r: seq<T>)
    ensures |r| <= |s|
    ensures forall i :: 0 <= i < |r| ==> r[i] in s && p(r[i])
    ensures forall j :: 0 <= j < |s| && p(s[j]) ==> s[j] in r
    ensures IsSubsequence(r, s)
  {
    if |s| == 0 then []
    else
      var rest := Filter(p, s[1..]);
      assert s == [s[0]] + s[1..];
      if p(s[0]) then
        var r := [s[0]] + rest;
        assert r[1..] == rest;
        r
      else
        rest
  }

  /** `filter` keeps every admitted element as often as it occurs, and no other. */
  lemma {:induction false} FilterCounts<T>(p: T -> bool, s: seq<T>)
    ensures forall y :: multiset(Filter(p, s))[y] == (if p(y) then multiset(s)[y] else 0)
  {
    if |s| > 0 {
      FilterCounts(p, s[1..]);
      assert s == [s[0]] + s[1..];
      assert multiset(s) == multiset{s[0]} + multiset(s[1..]);
      if p(s[0]) {
        assert Filter(p, s) == [s[0]] + Filter(p, s[1..]);
      }
    }
  }

  /** Two successive filters are one filter by the conjunction. */
  lemma {:induction false} FilterFilter<T>(p: T -> bool, q: T -> bool, both: T -> bool, s: seq<T>)
    requires forall x :: both(x) == (p(x) && q(x))
    ensures Filter(q, Filter(p, s)) == Filter(both, s)
  {
    if |s| > 0 {
      FilterFilter(p, q, both, s[1..]);
      if p(s[0]) {
        assert Filter(p, s)[1..] == Filter(p, s[1..]);
      }
    }
  }

  /** Filters by predicates that agree everywhere agree. */
  lemma {:induction false} FilterSame<T>(p: T -> bool, q: T -> bool, s: seq<T>)
    requires forall x :: p(x) == q(x)
    ensures Filter(p, s) == Filter(q, s)
  {
    if |s| > 0 {
      FilterSame(p, q, s[1..]);
    }
  }

  /** A filter whose predicate holds throughout keeps everything. */
  lemma {:induction false} FilterAll<T>(p: T -> bool, s: seq<T>)
    requires forall i :: 0 <= i < |s| ==> p(s[i])
    ensures Filter(p, s) == s
  {
    if |s| > 0 {
      FilterAll(p, s[1..]);
      assert s == [s[0]] + s[1..];
    }
  }

  /** `s.map(g)`. */
  function MapSeq<T, U>(g: T -> U, s: seq<T>): (r: seq<U>)
    ensures |r| == |s|
    ensures forall i :: 0 <= i < |s| ==> r[i] == g(s[i])
  {
    seq(|s|, i requires 0 <= i < |s| => g(s[i]))
  }

  /** `s.mapNotNull(f)`: the present results of `f`, in the order of `s`. */
  function MapNotNull<T, U>(f: T -> Option<U>, s: seq<T>): (r: seq<U>)
    ensures |r| <= |s|
    ensures forall i :: 0 <= i < |r| ==> exists j :: 0 <= j < |s| && f(s[j]) == Some(r[i])
    ensures forall j :: 0 <= j < |s| && f(s[j]).Some? ==> f(s[j]).value in r
  {
    if |s| == 0 then []
    else
      var rest := MapNotNull(f, s[1..]);
      assert s == [s[0]] + s[1..];
      match f(s[0])
      case Some(y) => [y] + rest
      case None => rest
  }

  /** `mapNotNull` is `map` followed by dropping the nulls: wrapped back into
      options, its results are exactly the present results of `s.map(f)`,
      in order and as often as they occur. */
  lemma {:induction false} MapNotNullIsMapThenFilter<T, U>(f: T -> Option<U>, s: seq<T>)
    ensures MapSeq((y: U) => Some(y), MapNotNull(f, s)) == Filter((o: Option<U>) => o.Some?, MapSeq(f, s))
  {
    if |s| > 0 {
      MapNotNullIsMapThenFilter(f, s[1..]);
      var rest := MapNotNull(f, s[1..]);
      assert MapSeq(f, s)[1..] == MapSeq(f, s[1..]);
      match f(s[0])
      case Some(y) =>
        assert MapSeq((y: U) => Some(y), [y] + rest)[1..] == MapSeq((y: U) => Some(y), rest);
      case None =>
    }
  }

  /** When every produced value keeps the key of the element it came from,
      the keys of `s.mapNotNull(f)` are an order-preserving subsequence of
      the keys of `s`. */
  lemma {:induction false} MapNotNullKeysInOrder<T, U, K>(f: T -> Option<U>, s: seq<T>, key: T -> K, keyOut: U -> K)
    requires forall x :: f(x).Some? ==> keyOut(f(x).value) == key(x)
    ensures IsSubsequence(MapSeq(keyOut, MapNotNull(f, s)), MapSeq(key, s))
  {
    if |s| > 0 {
      var rest := MapNotNull(f, s[1..]);
      MapNotNullKeysInOrder(f, s[1..], key, keyOut);
      var b := MapSeq(key, s);
      assert b[1..] == MapSeq(key, s[1..]);
      match f(s[0])
      case Some(y) =>
        var a := MapSeq(keyOut, [y] + rest);
        assert a[1..] == MapSeq(keyOut, rest);
      case None =>
    }
  }
}
