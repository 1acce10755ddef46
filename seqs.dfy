/** `Array.prototype.filter` on sequences, and what it preserves. */
module Seqs {

  /** The order-preserving sub-list of `s` whose elements satisfy `f`. */
  function Filter<T>(f: T -> bool, s: seq<T>): (r: seq<T>)
    ensures |r| <= |s|
    ensures forall i :: 0 <= i < |r| ==> f(r[i]) && r[i] in s
    ensures forall i :: 0 <= i < |s| && f(s[i]) ==> s[i] in r
  {
    if s == [] then []
    else if f(s[0]) then [s[0]] + Filter(f, s[1..])
    else Filter(f, s[1..])
  }

  /** `a` is obtained from `b` by deleting elements, keeping the order of the rest. */
  ghost predicate IsSubsequence<T>(a: seq<T>, b: seq<T>)
    decreases |b|
  {
    if a == [] then true
    else if b == [] then false
    else (a[0] == b[0] && IsSubsequence(a[1..], b[1..])) || IsSubsequence(a, b[1..])
  }

  lemma {:induction false} FilterIsSubsequence<T>(f: T -> bool, s: seq<T>)
    ensures IsSubsequence(Filter(f, s), s)
  {
    if s != [] {
      FilterIsSubsequence(f, s[1..]);
    }
  }

  /** Filtering by a stronger condition keeps a sub-list of filtering by a weaker one. */
  lemma {:induction false} FilterMonotone<T>(f: T -> bool, g: T -> bool, s: seq<T>)
    requires forall x :: f(x) ==> g(x)
    ensures IsSubsequence(Filter(f, s), Filter(g, s))
  {
    if s != [] {
      FilterMonotone(f, g, s[1..]);
      var a, b := Filter(f, s[1..]), Filter(g, s[1..]);
      if f(s[0]) {
        assert Filter(f, s) == [s[0]] + a && Filter(g, s) == [s[0]] + b;
        assert ([s[0]] + a)[1..] == a && ([s[0]] + b)[1..] == b;
      } else if g(s[0]) {
        assert Filter(g, s) == [s[0]] + b && ([s[0]] + b)[1..] == b;
      }
    }
  }

  /** Exact contents: every element satisfying `f` is kept as often as it occurs, the others vanish. */
  lemma {:induction false} FilterCount<T>(f: T -> bool, s: seq<T>, x: T)
    ensures multiset(Filter(f, s))[x] == if f(x) then multiset(s)[x] else 0
  {
    if s != [] {
      FilterCount(f, s[1..], x);
      assert s == [s[0]] + s[1..];
      assert multiset(s) == multiset([s[0]]) + multiset(s[1..]);
    }
  }

  /** Filtering changes nothing when every element already satisfies the condition. */
  lemma {:induction false} FilterKeepsAll<T>(f: T -> bool, s: seq<T>)
    requires forall i :: 0 <= i < |s| ==> f(s[i])
    ensures Filter(f, s) == s
  {
    if s != [] {
      FilterKeepsAll(f, s[1..]);
      assert s == [s[0]] + s[1..];
    }
  }

  /** Filtering twice by the same condition is filtering once. */
  lemma FilterIdempotent<T>(f: T -> bool, s: seq<T>)
    ensures Filter(f, Filter(f, s)) == Filter(f, s)
  {
    FilterKeepsAll(f, Filter(f, s));
  }

  /** Two sequences that agree position by position on `f` keep equally many elements. */
  lemma {:induction false} FilterLengthPointwise<T>(f: T -> bool, a: seq<T>, b: seq<T>)
    requires |a| == |b|
    requires forall i :: 0 <= i < |a| ==> f(a[i]) == f(b[i])
    ensures |Filter(f, a)| == |Filter(f, b)|
  {
    if a != [] {
      assert f(a[0]) == f(b[0]);
      FilterLengthPointwise(f, a[1..], b[1..]);
    }
  }
}
