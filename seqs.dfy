/** Sequence helpers shared by the components: list comprehensions with a
    filter, Python's `s[:n]` slice, and occurrence counts. */
module Seqs {

  /** `[x for x in s if keep(x)]`. */
  function Filter<T>(s: seq<T>, keep: T -> bool): (r: seq<T>)
    ensures |r| <= |s|
    ensures forall i :: 0 <= i < |r| ==> keep(r[i])
    ensures forall i :: 0 <= i < |s| && keep(s[i]) ==> s[i] in r
    ensures forall i :: 0 <= i < |r| ==> r[i] in s
    decreases |s|
  {
    if s == [] then []
    else (if keep(s[0]) then [s[0]] else []) + Filter(s[1..], keep)
  }

  /** Filtering distributes over concatenation: appending to the source list
      appends to the filtered view, so results stay in source order. */
  lemma {:induction false} FilterAppend<T>(a: seq<T>, b: seq<T>, keep: T -> bool)
    ensures Filter(a + b, keep) == Filter(a, keep) + Filter(b, keep)
    decreases |a|
  {
    if a == [] {
      assert a + b == b;
    } else {
      assert (a + b)[0] == a[0];
      assert (a + b)[1..] == a[1..] + b;
      FilterAppend(a[1..], b, keep);
    }
  }

  /** A filter that keeps everything is the identity. */
  lemma {:induction false} FilterAll<T>(s: seq<T>, keep: T -> bool)
    requires forall x :: x in s ==> keep(x)
    ensures Filter(s, keep) == s
    decreases |s|
  {
    if s != [] {
      FilterAll(s[1..], keep);
    }
  }

  /** Filtering twice is filtering by the conjunction, in either order. */
  lemma {:induction false} FilterFilter<T>(s: seq<T>, p: T -> bool, q: T -> bool)
    ensures Filter(Filter(s, p), q) == Filter(s, x => p(x) && q(x))
    decreases |s|
  {
    if s != [] {
      FilterFilter(s[1..], p, q);
      var head := if p(s[0]) then [s[0]] else [];
      FilterAppend(head, Filter(s[1..], p), q);
    }
  }

  /** A slice of a slice is a slice of the original. */
  lemma SliceOfSlice<T>(s: seq<T>, a: int, b: int, i: int, n: int)
    requires 0 <= a <= b <= |s|
    requires 0 <= i && 0 <= n && i + n <= b - a
    ensures s[a..b][i..i + n] == s[a + i..a + i + n]
  {
    var u, v := s[a..b][i..i + n], s[a + i..a + i + n];
    assert forall k | 0 <= k < n :: u[k] == v[k];
  }

  /** Python's `s[:n]` for any integer `n`: a negative `n` drops the last `-n` elements. */
  function PyPrefix<T>(s: seq<T>, n: int): (r: seq<T>)
    ensures |r| <= |s|
    ensures 0 <= n ==> |r| == if n <= |s| then n else |s|
    ensures r == s[..|r|]
  {
    if 0 <= n then (if n <= |s| then s[..n] else s)
    else (if |s| + n <= 0 then [] else s[..|s| + n])
  }

  /** Number of occurrences of `x` in `s`. */
  function Count<T(==)>(s: seq<T>, x: T): (n: nat)
    ensures n <= |s|
    ensures n == 0 <==> x !in s
    decreases |s|
  {
    if s == [] then 0 else (if s[0] == x then 1 else 0) + Count(s[1..], x)
  }

  /** Slicing a concatenation at the seam gives back its two parts. */
  lemma SliceAtSeam<T>(a: seq<T>, b: seq<T>)
    ensures (a + b)[..|a|] == a && (a + b)[|a|..] == b
  {
  }

  /** A non-empty sequence is its front followed by its last element. */
  lemma SplitLast<T>(s: seq<T>)
    requires s != []
    ensures s == s[..|s| - 1] + [s[|s| - 1]]
  {
  }

  /** Two pieces of which one is empty can be appended in either order. */
  lemma SwapEmpty<T>(a: seq<T>, b: seq<T>, c: seq<T>)
    requires b == [] || c == []
    ensures (a + b) + c == (a + c) + b
  {
    if b == [] {
      assert a + b == a;
      assert (a + c) + b == a + c;
    } else {
      assert a + c == a;
      assert (a + b) + c == a + b;
    }
  }

  lemma {:induction false} CountAppend<T>(a: seq<T>, b: seq<T>, x: T)
    ensures Count(a + b, x) == Count(a, x) + Count(b, x)
    decreases |a|
  {
    if a == [] {
      assert a + b == b;
    } else {
      assert (a + b)[1..] == a[1..] + b;
      CountAppend(a[1..], b, x);
    }
  }

  /** `counter.get(t, 0)`: a missing key counts as zero. */
  function Tally(m: map<string, nat>, t: string): nat {
    if t in m then m[t] else 0
  }

  /** Bumping one counter leaves the others alone. */
  lemma TallyBump(m: map<string, nat>, t: string)
    ensures forall u :: Tally(m[t := Tally(m, t) + 1], u) == Tally(m, u) + (if u == t then 1 else 0)
  {
  }
}
