/**
 * Order-preserving selection from a sequence (Swift's `Array.filter`),
 * together with the positions it keeps, and the facts that pin it down:
 * the result lists, in their original order, exactly the elements that
 * satisfy the predicate.
 */
module Selection {

  /** The elements of `xs` that satisfy `p`, in their original order. */
  function Keep<T>(xs: seq<T>, p: T -> bool): (r: seq<T>)
    ensures |r| <= |xs|
    decreases |xs|
  {
    if |xs| == 0 then []
    else
      var last := xs[|xs| - 1];
      Keep(xs[..|xs| - 1], p) + (if p(last) then [last] else [])
  }

  /** The positions of `xs` whose element satisfies `p`, in increasing order. */
  function KeptIndices<T>(xs: seq<T>, p: T -> bool): (ix: seq<int>)
    ensures |ix| <= |xs|
    ensures forall k :: 0 <= k < |ix| ==> 0 <= ix[k] < |xs|
    decreases |xs|
  {
    if |xs| == 0 then []
    else
      var n := |xs| - 1;
      KeptIndices(xs[..n], p) + (if p(xs[n]) then [n] else [])
  }

  predicate StrictlyIncreasing(ix: seq<int>) {
    forall k, l :: 0 <= k < l < |ix| ==> ix[k] < ix[l]
  }

  /**
   * `r` is `xs` restricted to the positions `ix`, in increasing order, and
   * those positions are exactly the ones whose element satisfies `p`.
   */
  ghost predicate SelectionOf<T>(r: seq<T>, xs: seq<T>, ix: seq<int>, p: T -> bool) {
    && |r| == |ix|
    && StrictlyIncreasing(ix)
    && (forall k :: 0 <= k < |ix| ==> 0 <= ix[k] < |xs| && r[k] == xs[ix[k]])
    && (forall i :: 0 <= i < |xs| ==> (p(xs[i]) <==> i in ix))
  }

  /** `Keep` is an order-preserving selection that keeps every matching element
      and nothing else. */
  lemma {:induction false} KeepIsSelection<T>(xs: seq<T>, p: T -> bool)
    ensures SelectionOf(Keep(xs, p), xs, KeptIndices(xs, p), p)
    decreases |xs|
  {
    if |xs| > 0 {
      var n := |xs| - 1;
      var init := xs[..n];
      KeepIsSelection(init, p);
      var r0, ix0 := Keep(init, p), KeptIndices(init, p);
      var r, ix := Keep(xs, p), KeptIndices(xs, p);
      assert r == r0 + (if p(xs[n]) then [xs[n]] else []);
      assert ix == ix0 + (if p(xs[n]) then [n] else []);
      forall k | 0 <= k < |ix|
        ensures 0 <= ix[k] < |xs| && r[k] == xs[ix[k]]
      {
        if k < |ix0| {
          assert r[k] == r0[k] && ix[k] == ix0[k];
        }
      }
      forall i | 0 <= i < |xs|
        ensures p(xs[i]) <==> i in ix
      {
        if i < n {
          assert xs[i] == init[i];
          assert i in ix <==> i in ix0;
        }
      }
    }
  }

  /** The last element of an increasing sequence exceeds every earlier one. */
  lemma LastIsGreatest(a: seq<int>, x: int)
    requires StrictlyIncreasing(a) && |a| > 0
    ensures x in a ==> x <= a[|a| - 1]
    ensures x in a[..|a| - 1] ==> x < a[|a| - 1]
    ensures x in a && x != a[|a| - 1] ==> x in a[..|a| - 1]
  {
    if x in a {
      var j :| 0 <= j < |a| && a[j] == x;
      if j < |a| - 1 {
        assert a[..|a| - 1][j] == x;
      }
    }
  }

  lemma HeadIsMember(b: seq<int>)
    ensures |b| > 0 ==> b[0] in b
  {
  }

  /** Two increasing sequences with the same elements are equal. */
  lemma {:induction false} IncreasingDeterminedByElements(a: seq<int>, b: seq<int>)
    requires StrictlyIncreasing(a) && StrictlyIncreasing(b)
    requires forall x :: x in a <==> x in b
    ensures a == b
    decreases |a|
  {
    if |a| == 0 {
      HeadIsMember(b);
    } else {
      assert a[0] in a;
      assert a[0] in b;
      var m, n := a[|a| - 1], b[|b| - 1];
      LastIsGreatest(a, n);
      LastIsGreatest(b, m);
      assert m == n;
      var a', b' := a[..|a| - 1], b[..|b| - 1];
      forall x
        ensures x in a' <==> x in b'
      {
        LastIsGreatest(a, x);
        LastIsGreatest(b, x);
      }
      IncreasingDeterminedByElements(a', b');
      assert a == a' + [m] && b == b' + [n];
    }
  }

  /** Conversely, any order-preserving selection of exactly the matching
      elements is `Keep`: the characterization determines the filter. */
  lemma SelectionIsUnique<T>(r: seq<T>, xs: seq<T>, ix: seq<int>, p: T -> bool)
    requires SelectionOf(r, xs, ix, p)
    ensures ix == KeptIndices(xs, p)
    ensures r == Keep(xs, p)
  {
    var ix', r' := KeptIndices(xs, p), Keep(xs, p);
    KeepIsSelection(xs, p);
    forall x
      ensures x in ix <==> x in ix'
    {
      if x in ix {
        var k :| 0 <= k < |ix| && ix[k] == x;
      }
      if x in ix' {
        var k :| 0 <= k < |ix'| && ix'[k] == x;
      }
    }
    IncreasingDeterminedByElements(ix, ix');
  }

  /** An element is kept exactly when it occurs in `xs` and satisfies `p`:
      nothing foreign is added and no matching element is omitted. */
  lemma KeepMembers<T>(xs: seq<T>, p: T -> bool, x: T)
    ensures x in Keep(xs, p) <==> x in xs && p(x)
  {
    KeepIsSelection(xs, p);
    var r, ix := Keep(xs, p), KeptIndices(xs, p);
    if x in r {
      var k :| 0 <= k < |r| && r[k] == x;
      assert xs[ix[k]] == x;
    }
    if x in xs && p(x) {
      var i :| 0 <= i < |xs| && xs[i] == x;
      assert i in ix;
      var k :| 0 <= k < |ix| && ix[k] == i;
      assert r[k] == x;
    }
  }

  /** `KeepMembers` for every element at once. */
  lemma KeepMembersAll<T>(xs: seq<T>, p: T -> bool)
    ensures forall x :: x in Keep(xs, p) <==> x in xs && p(x)
  {
    forall x
      ensures x in Keep(xs, p) <==> x in xs && p(x)
    {
      KeepMembers(xs, p, x);
    }
  }

  /** Appending one element extends the selection by that element or by nothing. */
  lemma KeepAppend<T>(xs: seq<T>, x: T, p: T -> bool)
    ensures Keep(xs + [x], p) == Keep(xs, p) + (if p(x) then [x] else [])
  {
    var ys := xs + [x];
    assert ys[..|ys| - 1] == xs;
  }

  /** Filtering twice with the same predicate is filtering once. */
  lemma {:induction false} KeepIdempotent<T>(xs: seq<T>, p: T -> bool)
    ensures Keep(Keep(xs, p), p) == Keep(xs, p)
    decreases |xs|
  {
    if |xs| > 0 {
      var n := |xs| - 1;
      var r0 := Keep(xs[..n], p);
      assert Keep(xs, p) == r0 + (if p(xs[n]) then [xs[n]] else []);
      KeepIdempotent(xs[..n], p);
      assert Keep(r0, p) == r0;
      if p(xs[n]) {
        KeepAppend(r0, xs[n], p);
      } else {
        assert Keep(xs, p) == r0;
      }
    }
  }

  /** Nothing is kept when nothing matches. */
  lemma {:induction false} KeepNothing<T>(xs: seq<T>, p: T -> bool)
    requires forall i :: 0 <= i < |xs| ==> !p(xs[i])
    ensures Keep(xs, p) == []
    decreases |xs|
  {
    if |xs| > 0 {
      KeepNothing(xs[..|xs| - 1], p);
    }
  }

  /** Everything is kept, in place, when everything matches. */
  lemma {:induction false} KeepEverything<T>(xs: seq<T>, p: T -> bool)
    requires forall i :: 0 <= i < |xs| ==> p(xs[i])
    ensures Keep(xs, p) == xs
    decreases |xs|
  {
    if |xs| > 0 {
      var n := |xs| - 1;
      KeepEverything(xs[..n], p);
      assert xs == xs[..n] + [xs[n]];
    }
  }
}
