/** Sequence facts shared by the list filters of the model (Array.prototype.filter and friends). */
module Sequences {

  /** `sub` can be obtained from `s` by deleting elements, keeping the order of the rest. */
  predicate IsSubsequence<T(==)>(sub: seq<T>, s: seq<T>)
    decreases |s|
  {
    if sub == [] then true
    else if s == [] then false
    else if sub[0] == s[0] then IsSubsequence(sub[1..], s[1..])
    else IsSubsequence(sub, s[1..])
  }

  lemma {:induction false} SubsequenceLength<T>(sub: seq<T>, s: seq<T>)
    requires IsSubsequence(sub, s)
    ensures |sub| <= |s|
    decreases |s|
  {
    if sub != [] {
      if sub[0] == s[0] {
        SubsequenceLength(sub[1..], s[1..]);
      } else {
        SubsequenceLength(sub, s[1..]);
      }
    }
  }

  /** Number of elements of `s` that satisfy `p`: `s.filter(p).length`. */
  function Count<T>(s: seq<T>, p: T -> bool): (n: nat)
    ensures n <= |s|
    ensures n == 0 <==> forall i :: 0 <= i < |s| ==> !p(s[i])
    ensures n == |s| <==> forall i :: 0 <= i < |s| ==> p(s[i])
  {
    if s == [] then 0
    else
      var rest := Count(s[1..], p);
      assert forall i :: 1 <= i < |s| ==> s[i] == s[1..][i - 1];
      (if p(s[0]) then 1 else 0) + rest
  }

  lemma {:induction false} CountAppend<T>(a: seq<T>, b: seq<T>, p: T -> bool)
    ensures Count(a + b, p) == Count(a, p) + Count(b, p)
  {
    if a != [] {
      assert (a + b)[1..] == a[1..] + b;
      CountAppend(a[1..], b, p);
    } else {
      assert a + b == b;
    }
  }

  /** `s.filter(p)`: the elements of `s` that satisfy `p`, in their original order. */
  function Filter<T(==,!new)>(s: seq<T>, p: T -> bool): (r: seq<T>)
    ensures |r| == Count(s, p)
    ensures forall x :: x in r <==> x in s && p(x)
    ensures IsSubsequence(r, s)
  {
    if s == [] then []
    else
      var rest := Filter(s[1..], p);
      assert s == [s[0]] + s[1..];
      if p(s[0]) then
        assert ([s[0]] + rest)[1..] == rest;
        [s[0]] + rest
      else
        assert rest != [] ==> rest[0] in rest && rest[0] != s[0];
        rest
  }

  /** A filter keeps every occurrence of the elements that pass and none of the others. */
  lemma {:induction false} FilterMultiset<T(!new)>(s: seq<T>, p: T -> bool, x: T)
    ensures multiset(Filter(s, p))[x] == if p(x) then multiset(s)[x] else 0
  {
    if s != [] {
      FilterMultiset(s[1..], p, x);
      HeadTail(s);
      assert multiset(s) == multiset([s[0]]) + multiset(s[1..]);
      if p(s[0]) {
        assert multiset(Filter(s, p)) == multiset([s[0]]) + multiset(Filter(s[1..], p));
      }
    }
  }

  /** Filtering distributes over concatenation. */
  lemma {:induction false} FilterAppend<T(!new)>(a: seq<T>, b: seq<T>, p: T -> bool)
    ensures Filter(a + b, p) == Filter(a, p) + Filter(b, p)
  {
    if a == [] {
      assert a + b == b;
    } else {
      assert (a + b)[1..] == a[1..] + b;
      FilterAppend(a[1..], b, p);
    }
  }

  /** A filter that every element passes gives the input back. */
  lemma {:induction false} FilterAll<T(!new)>(s: seq<T>, p: T -> bool)
    requires forall i :: 0 <= i < |s| ==> p(s[i])
    ensures Filter(s, p) == s
  {
    if s != [] {
      FilterAll(s[1..], p);
      HeadTail(s);
    }
  }

  /** A filter that no element passes gives the empty list. */
  lemma FilterNone<T(!new)>(s: seq<T>, p: T -> bool)
    requires forall i :: 0 <= i < |s| ==> !p(s[i])
    ensures Filter(s, p) == []
  {
  }

  predicate Distinct<T(==)>(s: seq<T>) {
    forall i, j :: 0 <= i < |s| && 0 <= j < |s| && i != j ==> s[i] != s[j]
  }

  /** A sequence without repetitions has as many distinct members as elements. */
  lemma {:induction false} DistinctCardinality<T>(s: seq<T>)
    requires Distinct(s)
    ensures |set x | x in s| == |s|
  {
    if s != [] {
      var rest := s[1..];
      assert Distinct(rest) by {
        forall i, j | 0 <= i < |rest| && 0 <= j < |rest| && i != j
          ensures rest[i] != rest[j]
        {
          assert rest[i] == s[i + 1] && rest[j] == s[j + 1];
        }
      }
      DistinctCardinality(rest);
      assert s[0] !in rest by {
        forall j | 0 <= j < |rest| ensures rest[j] != s[0] {
          assert rest[j] == s[j + 1];
        }
      }
      assert (set x | x in s) == {s[0]} + (set x | x in rest);
    }
  }

  /** `f` applied to consecutive, non-overlapping triples of `xs`; one or two leftover elements are dropped. */
  function MapTriples<T, R>(xs: seq<T>, f: (T, T, T) -> R): seq<R>
    decreases |xs|
  {
    if |xs| < 3 then [] else [f(xs[0], xs[1], xs[2])] + MapTriples(xs[3..], f)
  }

  lemma {:induction false} MapTriplesLength<T, R>(xs: seq<T>, f: (T, T, T) -> R)
    ensures |MapTriples(xs, f)| == |xs| / 3
    decreases |xs|
  {
    if |xs| >= 3 {
      MapTriplesLength(xs[3..], f);
      assert |xs[3..]| / 3 + 1 == |xs| / 3;
    }
  }

  lemma {:induction false} MapTriplesAt<T, R>(xs: seq<T>, f: (T, T, T) -> R, k: nat)
    requires 3 * k + 2 < |xs|
    ensures |MapTriples(xs, f)| > k
    ensures MapTriples(xs, f)[k] == f(xs[3 * k], xs[3 * k + 1], xs[3 * k + 2])
    decreases k
  {
    if k > 0 {
      var rest := xs[3..];
      MapTriplesAt(rest, f, k - 1);
      var j := 3 * (k - 1);
      assert j + 3 == 3 * k;
      assert MapTriples(xs, f)[k] == MapTriples(rest, f)[k - 1];
      assert rest[j] == xs[3 * k] && rest[j + 1] == xs[3 * k + 1] && rest[j + 2] == xs[3 * k + 2];
    }
  }

  lemma MapTriplesStep<T, R>(xs: seq<T>, f: (T, T, T) -> R)
    requires |xs| >= 3
    ensures MapTriples(xs, f) == [f(xs[0], xs[1], xs[2])] + MapTriples(xs[3..], f)
  {
  }

  lemma AppendAssociative<T>(a: seq<T>, b: seq<T>, c: seq<T>)
    ensures (a + b) + c == a + (b + c)
  {
  }

  lemma DropPrefix<T>(a: seq<T>, b: seq<T>)
    ensures (a + b)[|a|..] == b
  {
  }

  /** The values f(0), ..., f(n - 1) in order: what a loop pushing f(i) for i = 0 .. n - 1 builds. */
  function Block<T>(n: nat, f: nat --> T): (s: seq<T>)
    requires forall k :: 0 <= k < n ==> f.requires(k)
    ensures |s| == n && forall k :: 0 <= k < n ==> s[k] == f(k)
  {
    seq(n, (k: int) requires 0 <= k < n => f(k))
  }

  /** One more iteration pushes the next value. */
  lemma BlockStep<T>(n: nat, f: nat --> T)
    requires forall k :: 0 <= k < n + 1 ==> f.requires(k)
    ensures Block(n + 1, f) == Block(n, f) + [f(n)]
  {
  }

  /** Indexing a concatenation of five pieces: position `k` falls in exactly one of them. */
  lemma IndexOfFive<T>(a: seq<T>, b: seq<T>, c: seq<T>, d: seq<T>, e: seq<T>, k: nat)
    requires k < |a| + |b| + |c| + |d| + |e|
    ensures |a + b + c + d + e| == |a| + |b| + |c| + |d| + |e|
    ensures (a + b + c + d + e)[k]
      == if k < |a| then a[k]
         else if k < |a| + |b| then b[k - |a|]
         else if k < |a| + |b| + |c| then c[k - |a| - |b|]
         else if k < |a| + |b| + |c| + |d| then d[k - |a| - |b| - |c|]
         else e[k - |a| - |b| - |c| - |d|]
  {
    if k < |a| + |b| + |c| + |d| {
      assert (a + b + c + d + e)[k] == (a + b + c + d)[k];
      if k < |a| + |b| + |c| {
        assert (a + b + c + d)[k] == (a + b + c)[k];
        if k < |a| + |b| {
          assert (a + b + c)[k] == (a + b)[k];
        }
      }
    }
  }

  lemma PrefixOfPrefix<T>(s: seq<T>, n: nat, i: nat)
    requires i <= n <= |s|
    ensures s[..n][..i] == s[..i]
  {
  }

  lemma HeadTail<T>(s: seq<T>)
    requires s != []
    ensures [s[0]] + s[1..] == s
  {
  }
}
