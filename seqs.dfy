/**
 * Sequence helpers shared by the pipeline stages: the order-preserving filter
 * that a pandas boolean mask performs, counting, and the subsequence relation.
 */
module Seqs {

  /** `a` can be obtained from `b` by deleting elements, keeping the order. */
  ghost predicate IsSubsequence<T>(a: seq<T>, b: seq<T>)
    decreases |b|
  {
    if a == [] then true
    else if b == [] then false
    else if a[0] == b[0] then IsSubsequence(a[1..], b[1..])
    else IsSubsequence(a, b[1..])
  }

  /** The elements of `s` that satisfy `p`, in their original order. */
  function Filter<T>(p: T -> bool, s: seq<T>): (r: seq<T>)
    ensures |r| <= |s|
    ensures forall i :: 0 <= i < |r| ==> r[i] in s && p(r[i])
    ensures forall i :: 0 <= i < |s| && p(s[i]) ==> s[i] in r
    decreases |s|
  {
    if s == [] then []
    else if p(s[0]) then [s[0]] + Filter(p, s[1..])
    else Filter(p, s[1..])
  }

  /** Filtering distributes over concatenation. */
  lemma {:induction false} FilterAppend<T>(p: T -> bool, a: seq<T>, b: seq<T>)
    ensures Filter(p, a + b) == Filter(p, a) + Filter(p, b)
    decreases |a|
  {
    if a == [] {
      assert a + b == b;
    } else {
      assert (a + b)[1..] == a[1..] + b;
      FilterAppend(p, a[1..], b);
    }
  }

  /** A filter keeps every element exactly as often as the input holds it, when `p` accepts it. */
  lemma {:induction false} FilterMultiplicity<T>(p: T -> bool, s: seq<T>, x: T)
    ensures multiset(Filter(p, s))[x] == if p(x) then multiset(s)[x] else 0
    decreases |s|
  {
    if s != [] {
      FilterMultiplicity(p, s[1..], x);
      assert s == [s[0]] + s[1..];
    }
  }

  /** A filter drops elements but never reorders the ones it keeps. */
  lemma {:induction false} FilterIsSubsequence<T>(p: T -> bool, s: seq<T>)
    ensures IsSubsequence(Filter(p, s), s)
    decreases |s|
  {
    if s != [] {
      FilterIsSubsequence(p, s[1..]);
      var r := Filter(p, s[1..]);
      if p(s[0]) {
        assert Filter(p, s) == [s[0]] + r;
        assert ([s[0]] + r)[1..] == r;
      } else if Filter(p, s) != [] {
        SubsequenceOfTail(Filter(p, s), s);
      }
    }
  }

  /** Whatever is a subsequence of the tail is a subsequence of the whole. */
  lemma {:induction false} SubsequenceOfTail<T>(a: seq<T>, b: seq<T>)
    requires b != []
    requires IsSubsequence(a, b[1..])
    ensures IsSubsequence(a, b)
    decreases |b|, 1
  {
    if a != [] && a[0] == b[0] {
      SubsequenceDropHead(a, b[1..]);
    }
  }

  /** Dropping the first element of a subsequence leaves a subsequence. */
  lemma {:induction false} SubsequenceDropHead<T>(a: seq<T>, t: seq<T>)
    requires a != []
    requires IsSubsequence(a, t)
    ensures IsSubsequence(a[1..], t)
    decreases |t|, 2
  {
    if a[0] == t[0] {
      SubsequenceOfTail(a[1..], t);
    } else {
      SubsequenceDropHead(a, t[1..]);
      SubsequenceOfTail(a[1..], t);
    }
  }

  /** `f` applied to the elements of `s` that satisfy `p`, in their original order. */
  function MapFilter<T, U>(p: T -> bool, f: T --> U, s: seq<T>): seq<U>
    requires forall i :: 0 <= i < |s| ==> f.requires(s[i])
    decreases |s|
  {
    if s == [] then []
    else (if p(s[0]) then [f(s[0])] else []) + MapFilter(p, f, s[1..])
  }

  /** Mapping after filtering: one image per kept element, in order. */
  lemma {:induction false} MapFilterIsMapOfFilter<T, U>(p: T -> bool, f: T --> U, s: seq<T>)
    requires forall i :: 0 <= i < |s| ==> f.requires(s[i])
    ensures |MapFilter(p, f, s)| == |Filter(p, s)|
    ensures forall i :: 0 <= i < |Filter(p, s)| ==> f.requires(Filter(p, s)[i]) && MapFilter(p, f, s)[i] == f(Filter(p, s)[i])
    decreases |s|
  {
    if s != [] {
      MapFilterIsMapOfFilter(p, f, s[1..]);
      var r, k := MapFilter(p, f, s[1..]), Filter(p, s[1..]);
      if p(s[0]) {
        assert MapFilter(p, f, s) == [f(s[0])] + r;
        assert Filter(p, s) == [s[0]] + k;
        forall i | 1 <= i < |Filter(p, s)|
          ensures f.requires(Filter(p, s)[i]) && MapFilter(p, f, s)[i] == f(Filter(p, s)[i])
        {
          assert MapFilter(p, f, s)[i] == r[i - 1];
          assert Filter(p, s)[i] == k[i - 1];
        }
      } else {
        assert MapFilter(p, f, s) == r;
      }
    }
  }

  /** The number of elements of `s` that satisfy `p`. */
  function CountWhere<T>(p: T -> bool, s: seq<T>): (n: nat)
    ensures n <= |s|
    ensures n == |Filter(p, s)|
    decreases |s|
  {
    if s == [] then 0
    else (if p(s[0]) then 1 else 0) + CountWhere(p, s[1..])
  }

  /** Counting over a concatenation adds up. */
  lemma {:induction false} CountWhereAppend<T>(p: T -> bool, a: seq<T>, b: seq<T>)
    ensures CountWhere(p, a + b) == CountWhere(p, a) + CountWhere(p, b)
    decreases |a|
  {
    if a == [] {
      assert a + b == b;
    } else {
      assert (a + b)[1..] == a[1..] + b;
      CountWhereAppend(p, a[1..], b);
    }
  }

  /** The count depends only on which elements occur and how often, not on their order. */
  lemma {:induction false} CountWhereOrderIndependent<T>(p: T -> bool, a: seq<T>, b: seq<T>)
    requires multiset(a) == multiset(b)
    ensures CountWhere(p, a) == CountWhere(p, b)
    decreases |a|
  {
    if a != [] {
      assert a[0] in multiset(b);
      var k :| 0 <= k < |b| && b[k] == a[0];
      var rest := RemoveAt(b, k);
      MultisetRemoveAt(a, b, k);
      CountWhereOrderIndependent(p, a[1..], rest);
      CountWhereRemoveAt(p, b, k);
    }
  }

  /** `s` without its element at index `k`. */
  function RemoveAt<T>(s: seq<T>, k: nat): (r: seq<T>)
    requires k < |s|
    ensures |r| == |s| - 1
  {
    s[..k] + s[k+1..]
  }

  lemma MultisetRemoveAt<T>(a: seq<T>, b: seq<T>, k: nat)
    requires a != [] && k < |b| && b[k] == a[0]
    requires multiset(a) == multiset(b)
    ensures multiset(a[1..]) == multiset(RemoveAt(b, k))
  {
    assert b == b[..k] + [b[k]] + b[k+1..];
    assert a == [a[0]] + a[1..];
    calc {
      multiset(a[1..]);
      multiset(a) - multiset{a[0]};
      multiset(b) - multiset{b[k]};
      multiset(b[..k]) + multiset(b[k+1..]);
      multiset(RemoveAt(b, k));
    }
  }

  lemma CountWhereRemoveAt<T>(p: T -> bool, b: seq<T>, k: nat)
    requires k < |b|
    ensures CountWhere(p, b) == CountWhere(p, RemoveAt(b, k)) + (if p(b[k]) then 1 else 0)
  {
    var x, y := b[..k], b[k+1..];
    assert b == x + ([b[k]] + y);
    assert RemoveAt(b, k) == x + y;
    CountWhereAppend(p, x, [b[k]] + y);
    CountWhereAppend(p, [b[k]], y);
    CountWhereAppend(p, x, y);
    assert [b[k]][1..] == [];
    assert CountWhere(p, [b[k]]) == if p(b[k]) then 1 else 0;
  }
}
