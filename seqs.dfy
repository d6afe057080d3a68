/** Sequence combinators standing for Python list comprehensions:
    `[x for x in s if p(x)]` is `Filter(p, s)` and `[g(x) for x in s]` is
    `Map(g, s)`. Both recurse on the last element, so that a loop that has
    looked at `s[..i]` can be related to them directly. */
module Seqs {

  /** The elements of `s` satisfying `p`, in order. */
  function Filter<T(!new)>(p: T -> bool, s: seq<T>): (r: seq<T>)
    ensures |r| <= |s|
    ensures forall x :: x in r <==> x in s && p(x)
  {
    if |s| == 0 then []
    else
      assert forall x :: x in s <==> x in s[..|s| - 1] || x == s[|s| - 1] by {
        assert s == s[..|s| - 1] + [s[|s| - 1]];
      }
      Filter(p, s[..|s| - 1]) + (if p(s[|s| - 1]) then [s[|s| - 1]] else [])
  }

  /** `g` applied to each element of `s`, in order. */
  function Map<T, U>(g: T -> U, s: seq<T>): (r: seq<U>)
    ensures |r| == |s|
    ensures forall i :: 0 <= i < |s| ==> r[i] == g(s[i])
  {
    if |s| == 0 then [] else Map(g, s[..|s| - 1]) + [g(s[|s| - 1])]
  }

  /** `a` is obtained from `b` by deleting elements (order kept). */
  ghost predicate IsSubseq<T>(a: seq<T>, b: seq<T>)
    decreases |b|
  {
    if |b| == 0 then |a| == 0
    else
      IsSubseq(a, b[..|b| - 1])
      || (|a| > 0 && a[|a| - 1] == b[|b| - 1] && IsSubseq(a[..|a| - 1], b[..|b| - 1]))
  }

  lemma {:induction false} FilterAppend<T(!new)>(p: T -> bool, a: seq<T>, b: seq<T>)
    ensures Filter(p, a + b) == Filter(p, a) + Filter(p, b)
    decreases |b|
  {
    if |b| == 0 {
      assert a + b == a;
    } else {
      var n := |b| - 1;
      assert (a + b)[..|a + b| - 1] == a + b[..n];
      FilterAppend(p, a, b[..n]);
    }
  }

  lemma {:induction false} MapAppend<T, U>(g: T -> U, a: seq<T>, b: seq<T>)
    ensures Map(g, a + b) == Map(g, a) + Map(g, b)
  {
    assert |Map(g, a + b)| == |Map(g, a) + Map(g, b)|;
    forall i | 0 <= i < |a + b|
      ensures Map(g, a + b)[i] == (Map(g, a) + Map(g, b))[i]
    {
      if i < |a| {
        assert (a + b)[i] == a[i];
      } else {
        assert (a + b)[i] == b[i - |a|];
      }
    }
  }

  lemma {:induction false} FilterNone<T(!new)>(p: T -> bool, s: seq<T>)
    requires forall x :: x in s ==> !p(x)
    ensures Filter(p, s) == []
  {
    if |s| > 0 {
      var n := |s| - 1;
      assert forall x :: x in s[..n] ==> x in s;
      FilterNone(p, s[..n]);
    }
  }

  lemma {:induction false} FilterCongruent<T(!new)>(p: T -> bool, q: T -> bool, s: seq<T>)
    requires forall x :: x in s ==> p(x) == q(x)
    ensures Filter(p, s) == Filter(q, s)
  {
    if |s| > 0 {
      var n := |s| - 1;
      assert forall x :: x in s[..n] ==> x in s;
      FilterCongruent(p, q, s[..n]);
    }
  }

  lemma SubseqExtend<T>(a: seq<T>, b: seq<T>, y: T)
    requires IsSubseq(a, b)
    ensures IsSubseq(a, b + [y]) && IsSubseq(a + [y], b + [y])
  {
    assert (b + [y])[..|b|] == b;
    assert (a + [y])[..|a|] == a;
  }

  /** One step of `Filter`: the last element is kept exactly when it passes. */
  lemma FilterLast<T(!new)>(p: T -> bool, s: seq<T>)
    requires |s| > 0
    ensures Filter(p, s) == Filter(p, s[..|s| - 1]) + (if p(s[|s| - 1]) then [s[|s| - 1]] else [])
  {
  }

  /** A filter that every element passes keeps the whole sequence. */
  lemma {:induction false} FilterAll<T(!new)>(p: T -> bool, s: seq<T>)
    requires forall i :: 0 <= i < |s| ==> p(s[i])
    ensures Filter(p, s) == s
  {
    if |s| > 0 {
      var n := |s| - 1;
      var init := s[..n];
      assert forall i :: 0 <= i < |init| ==> p(init[i]);
      FilterAll(p, init);
      FilterLast(p, s);
      assert init + [s[n]] == s;
    }
  }

  /** A filter that no position passes keeps nothing. */
  lemma {:induction false} FilterNoneAt<T(!new)>(p: T -> bool, s: seq<T>)
    requires forall i :: 0 <= i < |s| ==> !p(s[i])
    ensures Filter(p, s) == []
  {
    if |s| > 0 {
      var n := |s| - 1;
      var init := s[..n];
      FilterNoneAt(p, init);
      assert !p(s[n]);
      calc {
        Filter(p, s);
        Filter(p, init) + [];
        [];
      }
    }
  }

  /** A filter that exactly one position passes keeps that element alone. */
  lemma {:induction false} FilterOnly<T(!new)>(p: T -> bool, s: seq<T>, k: nat)
    requires k < |s| && p(s[k])
    requires forall i :: 0 <= i < |s| && i != k ==> !p(s[i])
    ensures Filter(p, s) == [s[k]]
  {
    var n := |s| - 1;
    var init := s[..n];
    if k == n {
      FilterNoneAt(p, init);
      calc {
        Filter(p, s);
        Filter(p, init) + [s[n]];
        [s[k]];
      }
    } else {
      FilterOnly(p, init, k);
      assert !p(s[n]);
      calc {
        Filter(p, s);
        Filter(p, init) + [];
        [s[k]];
      }
    }
  }

  /** Filtering by a stronger predicate keeps fewer elements, in the same order. */
  lemma {:induction false} FilterSubseq<T(!new)>(p: T -> bool, q: T -> bool, s: seq<T>)
    requires forall x :: x in s ==> p(x) ==> q(x)
    ensures IsSubseq(Filter(p, s), Filter(q, s))
  {
    if |s| > 0 {
      var n := |s| - 1;
      var x := s[n];
      assert s[..n] + [x] == s;
      assert forall y :: y in s[..n] ==> y in s;
      FilterSubseq(p, q, s[..n]);
      var fp, fq := Filter(p, s[..n]), Filter(q, s[..n]);
      assert Filter(p, s) == fp + (if p(x) then [x] else []);
      assert Filter(q, s) == fq + (if q(x) then [x] else []);
      SubseqExtend(fp, fq, x);
      assert fp + [] == fp && fq + [] == fq;
    }
  }

  /** A filter result is a subsequence of its input. */
  lemma {:induction false} FilterIsSubseq<T(!new)>(p: T -> bool, s: seq<T>)
    ensures IsSubseq(Filter(p, s), s)
  {
    if |s| == 0 {
    } else {
      var n := |s| - 1;
      FilterIsSubseq(p, s[..n]);
      SubseqExtend(Filter(p, s[..n]), s[..n], s[n]);
      assert s[..n] + [s[n]] == s;
      assert Filter(p, s[..n]) + [] == Filter(p, s[..n]);
    }
  }

  /** Mapping both sides keeps the subsequence relation. */
  lemma {:induction false} MapSubseq<T, U>(g: T -> U, a: seq<T>, b: seq<T>)
    requires IsSubseq(a, b)
    ensures IsSubseq(Map(g, a), Map(g, b))
    decreases |b|
  {
    if |b| == 0 {
    } else {
      var n := |b| - 1;
      assert Map(g, b) == Map(g, b[..n]) + [g(b[n])];
      if IsSubseq(a, b[..n]) {
        MapSubseq(g, a, b[..n]);
        SubseqExtend(Map(g, a), Map(g, b[..n]), g(b[n]));
      } else {
        var m := |a| - 1;
        MapSubseq(g, a[..m], b[..n]);
        SubseqExtend(Map(g, a[..m]), Map(g, b[..n]), g(b[n]));
        assert a[..m] + [a[m]] == a;
        MapAppend(g, a[..m], [a[m]]);
      }
    }
  }

  /** A filter result is empty exactly when no element satisfies the predicate. */
  lemma FilterEmpty<T(!new)>(p: T -> bool, s: seq<T>)
    ensures |Filter(p, s)| == 0 <==> forall x :: x in s ==> !p(x)
  {
    if |Filter(p, s)| > 0 {
      assert Filter(p, s)[0] in Filter(p, s);
    }
  }

  /** The values of a map result are the images of the input's elements. */
  lemma MapMember<T, U>(g: T -> U, s: seq<T>, y: U)
    ensures y in Map(g, s) <==> exists x :: x in s && g(x) == y
  {
    if y in Map(g, s) {
      var i :| 0 <= i < |Map(g, s)| && Map(g, s)[i] == y;
      assert s[i] in s && g(s[i]) == y;
    }
    if exists x :: x in s && g(x) == y {
      var x :| x in s && g(x) == y;
      var i :| 0 <= i < |s| && s[i] == x;
      assert Map(g, s)[i] == y;
    }
  }

  lemma AppendAssoc<T>(a: seq<T>, b: seq<T>, c: seq<T>)
    ensures a + (b + c) == (a + b) + c
  {
  }
}
