/**
 The array operations the source uses (`filter`, `slice(0, n)`) as functions
 over sequences, with the facts about them that the rest of the model needs:
 a filter keeps exactly the elements that pass, in their original order, and
 two disjoint filters split a sequence the way their union does.
 */
module Seqs {

  /** `s.filter(p)`. */
  function Filter<T>(s: seq<T>, p: T -> bool): (r: seq<T>)
    ensures |r| <= |s|
    ensures forall i :: 0 <= i < |r| ==> p(r[i])
    decreases |s|
  {
    if s == [] then []
    else if p(s[0]) then [s[0]] + Filter(s[1..], p)
    else Filter(s[1..], p)
  }

  /** `a` is obtained from `b` by deleting zero or more elements: an
      order-preserving sub-list. */
  predicate IsSubsequence<T(==)>(a: seq<T>, b: seq<T>)
    decreases |b|
  {
    if a == [] then true
    else if b == [] then false
    else if a[0] == b[0] then IsSubsequence(a[1..], b[1..])
    else IsSubsequence(a, b[1..])
  }

  /** Putting one element in front of a super-list keeps it a super-list. */
  lemma {:induction false} SubsequenceCons<T>(a: seq<T>, b: seq<T>, x: T)
    requires IsSubsequence(a, b)
    ensures IsSubsequence(a, [x] + b)
    decreases |b|, 1
  {
    assert ([x] + b)[1..] == b;
    if a != [] && a[0] == x {
      SubsequenceDropFirst(a, b);
    }
  }

  /** Dropping the first element of a sub-list keeps it a sub-list. */
  lemma {:induction false} SubsequenceDropFirst<T>(a: seq<T>, b: seq<T>)
    requires a != [] && IsSubsequence(a, b)
    ensures IsSubsequence(a[1..], b)
    decreases |b|, 0
  {
    assert b != [];
    assert [b[0]] + b[1..] == b;
    if a[0] == b[0] {
      SubsequenceCons(a[1..], b[1..], b[0]);
    } else {
      SubsequenceDropFirst(a, b[1..]);
      SubsequenceCons(a[1..], b[1..], b[0]);
    }
  }

  /** A sequence is a sub-list of itself after any prefix is put in front. */
  lemma {:induction false} SubsequenceOfLonger<T>(a: seq<T>, b: seq<T>, c: seq<T>)
    requires IsSubsequence(a, b)
    ensures IsSubsequence(a, c + b)
    decreases |c|
  {
    if c != [] {
      SubsequenceOfLonger(a, b, c[1..]);
      SubsequenceCons(a, c[1..] + b, c[0]);
      assert [c[0]] + (c[1..] + b) == c + b;
    } else {
      assert c + b == b;
    }
  }

  /** Every sequence is a sub-list of itself. */
  lemma {:induction false} SubsequenceReflexive<T>(s: seq<T>)
    ensures IsSubsequence(s, s)
    decreases |s|
  {
    if s != [] {
      SubsequenceReflexive(s[1..]);
    }
  }

  /** Being a sub-list is transitive. */
  lemma {:induction false} SubsequenceTransitive<T>(a: seq<T>, b: seq<T>, c: seq<T>)
    requires IsSubsequence(a, b) && IsSubsequence(b, c)
    ensures IsSubsequence(a, c)
    decreases |c|
  {
    if a != [] {
      assert b != [] && c != [];
      if b[0] == c[0] {
        if a[0] == b[0] {
          SubsequenceTransitive(a[1..], b[1..], c[1..]);
        } else {
          SubsequenceTransitive(a, b[1..], c[1..]);
        }
      } else {
        SubsequenceTransitive(a, b, c[1..]);
        if a[0] == c[0] {
          SubsequenceDropFirst(a, c[1..]);
        }
      }
    }
  }

  /** A filter keeps its survivors in their original order. */
  lemma {:induction false} FilterIsSubsequence<T>(s: seq<T>, p: T -> bool)
    ensures IsSubsequence(Filter(s, p), s)
    decreases |s|
  {
    if s != [] {
      FilterIsSubsequence(s[1..], p);
      if !p(s[0]) {
        SubsequenceOfLonger(Filter(s[1..], p), s[1..], [s[0]]);
        assert [s[0]] + s[1..] == s;
      }
    }
  }

  /** A filter keeps exactly the elements that pass the test. */
  lemma {:induction false} FilterMembers<T>(s: seq<T>, p: T -> bool)
    ensures forall x :: x in Filter(s, p) <==> x in s && p(x)
    decreases |s|
  {
    if s != [] {
      FilterMembers(s[1..], p);
      assert forall x :: x in s <==> x == s[0] || x in s[1..];
    }
  }

  /** A weaker test keeps a super-list of what a stronger one keeps. */
  lemma {:induction false} FilterMonotone<T>(s: seq<T>, p: T -> bool, q: T -> bool)
    requires forall x :: p(x) ==> q(x)
    ensures IsSubsequence(Filter(s, p), Filter(s, q))
    decreases |s|
  {
    if s != [] {
      FilterMonotone(s[1..], p, q);
      if q(s[0]) && !p(s[0]) {
        SubsequenceOfLonger(Filter(s[1..], p), Filter(s[1..], q), [s[0]]);
      }
    }
  }

  /** A test every element passes keeps the whole sequence. */
  lemma {:induction false} FilterKeepsAll<T>(s: seq<T>, p: T -> bool)
    requires forall i :: 0 <= i < |s| ==> p(s[i])
    ensures Filter(s, p) == s
    decreases |s|
  {
    if s != [] {
      FilterKeepsAll(s[1..], p);
      assert [s[0]] + s[1..] == s;
    }
  }

  /** Tests that agree on every element keep the same elements. */
  lemma {:induction false} FilterCongruent<T>(s: seq<T>, p: T -> bool, q: T -> bool)
    requires forall i :: 0 <= i < |s| ==> p(s[i]) == q(s[i])
    ensures Filter(s, p) == Filter(s, q)
    decreases |s|
  {
    if s != [] {
      assert forall i :: 0 <= i < |s[1..]| ==> s[1..][i] == s[i + 1];
      FilterCongruent(s[1..], p, q);
    }
  }

  /** Two tests that never hold together and together cover `p` split the
      survivors of `p` between them, as a multiset and by count. */
  lemma {:induction false} FilterSplit<T>(s: seq<T>, p: T -> bool, a: T -> bool, b: T -> bool)
    requires forall x :: p(x) <==> a(x) || b(x)
    requires forall x :: !(a(x) && b(x))
    ensures multiset(Filter(s, p)) == multiset(Filter(s, a)) + multiset(Filter(s, b))
    ensures |Filter(s, p)| == |Filter(s, a)| + |Filter(s, b)|
    decreases |s|
  {
    if s != [] {
      FilterSplit(s[1..], p, a, b);
    }
  }

  /** A filter keeps every copy of an element that passes and no copy of one
      that fails. */
  lemma {:induction false} FilterCounts<T>(s: seq<T>, p: T -> bool)
    ensures forall x :: multiset(Filter(s, p))[x] == if p(x) then multiset(s)[x] else 0
    decreases |s|
  {
    if s != [] {
      FilterCounts(s[1..], p);
      assert s == [s[0]] + s[1..];
      assert multiset(s) == multiset([s[0]]) + multiset(s[1..]);
    }
  }

  /** Filtering a concatenation filters each part. */
  lemma {:induction false} FilterConcat<T>(a: seq<T>, b: seq<T>, p: T -> bool)
    ensures Filter(a + b, p) == Filter(a, p) + Filter(b, p)
    decreases |a|
  {
    if a == [] {
      assert a + b == b;
    } else {
      FilterConcat(a[1..], b, p);
      assert (a + b)[1..] == a[1..] + b;
    }
  }

  /** The one-element list of `x` when it passes `p`, else the empty list. */
  function KeepIf<T>(x: T, p: T -> bool): seq<T>
  {
    if p(x) then [x] else []
  }

  /** A filter over a list of eight, unfolded element by element. */
  lemma {:induction false} FilterEight<T>(a: T, b: T, c: T, d: T, e: T, f: T, g: T, h: T, p: T -> bool)
    ensures Filter([a, b, c, d, e, f, g, h], p) ==
      KeepIf(a, p) + (KeepIf(b, p) + (KeepIf(c, p) + (KeepIf(d, p)
      + (KeepIf(e, p) + (KeepIf(f, p) + (KeepIf(g, p) + KeepIf(h, p)))))))
  {
    var s7 := [h];
    var s6 := [g] + s7;
    var s5 := [f] + s6;
    var s4 := [e] + s5;
    var s3 := [d] + s4;
    var s2 := [c] + s3;
    var s1 := [b] + s2;
    var s0 := [a] + s1;
    FilterCons(h, [], p);
    assert s7 == [h] + [];
    FilterCons(g, s7, p);
    FilterCons(f, s6, p);
    FilterCons(e, s5, p);
    FilterCons(d, s4, p);
    FilterCons(c, s3, p);
    FilterCons(b, s2, p);
    FilterCons(a, s1, p);
    assert s0 == [a, b, c, d, e, f, g, h];
  }

  /** Filtering a list with a first element decides that element first. */
  lemma FilterCons<T>(x: T, s: seq<T>, p: T -> bool)
    ensures Filter([x] + s, p) == KeepIf(x, p) + Filter(s, p)
  {
    assert ([x] + s)[1..] == s;
  }

  /** `s.slice(0, n)`: the first `n` elements, or all of them when there are
      fewer. */
  function Take<T>(s: seq<T>, n: nat): (r: seq<T>)
    ensures |r| == if |s| < n then |s| else n
    ensures forall i :: 0 <= i < |r| ==> r[i] == s[i]
  {
    if |s| < n then s else s[..n]
  }
}
