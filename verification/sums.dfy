/** Sums of natural numbers. Buffer offsets in the object group are prefix sums
    of per-object vertex and face counts, so everything here is about `Sum`
    of a sequence and of its prefixes `s[..k]`. */
module Sums {

  /** The sum of all entries, peeled from the back so that it follows a loop
      that appends one object at a time. */
  function Sum(s: seq<nat>): nat
  {
    if |s| == 0 then 0 else Sum(s[..|s| - 1]) + s[|s| - 1]
  }

  function Min(a: nat, b: nat): nat
  {
    if a <= b then a else b
  }

  /** True when every entry is a valid position in a table of length `n`. */
  predicate AllBelow(inds: seq<nat>, n: nat)
  {
    forall k :: 0 <= k < |inds| ==> inds[k] < n
  }

  /** The entries `c[inds[0]], c[inds[1]], ...` of a per-object table, in the
      order `inds` gives (repetitions included): the meshes or the counts of
      a selection. */
  function Pick<T>(c: seq<T>, inds: seq<nat>): (r: seq<T>)
    requires AllBelow(inds, |c|)
    ensures |r| == |inds|
  {
    seq(|inds|, k requires 0 <= k < |inds| => c[inds[k]])
  }

  /** `0, 1, ..., n - 1`: Python's `range(n)`. */
  function Range(n: nat): (r: seq<nat>)
    ensures |r| == n
  {
    seq(n, i => i)
  }

  lemma {:induction false} SumAppend(a: seq<nat>, b: seq<nat>)
    ensures Sum(a + b) == Sum(a) + Sum(b)
    decreases |b|
  {
    if |b| > 0 {
      var b' := b[..|b| - 1];
      assert (a + b)[..|a + b| - 1] == a + b';
      SumAppend(a, b');
    } else {
      assert a + b == a;
    }
  }

  /** One step of a running offset: the prefix sum up to `i + 1` adds entry `i`. */
  lemma PrefixStep(s: seq<nat>, i: nat)
    requires i < |s|
    ensures Sum(s[..i + 1]) == Sum(s[..i]) + s[i]
  {
    assert s[..i + 1][..i] == s[..i];
  }

  /** Prefix sums never decrease. */
  lemma {:induction false} PrefixMonotone(s: seq<nat>, i: nat, j: nat)
    requires i <= j <= |s|
    ensures Sum(s[..i]) <= Sum(s[..j])
    decreases j - i
  {
    if i < j {
      PrefixMonotone(s, i, j - 1);
      PrefixStep(s, j - 1);
    }
  }

  /** Block `i` of a layout ends no later than the whole buffer. */
  lemma BlockEndBound(s: seq<nat>, i: nat)
    requires i < |s|
    ensures Sum(s[..i]) + s[i] <= Sum(s)
  {
    PrefixStep(s, i);
    PrefixMonotone(s, i + 1, |s|);
    assert s[..|s|] == s;
  }

  /** No entry exceeds the total. */
  lemma SumBoundsEntries(s: seq<nat>)
    ensures forall k :: 0 <= k < |s| ==> s[k] <= Sum(s)
  {
    forall k | 0 <= k < |s|
      ensures s[k] <= Sum(s)
    {
      BlockEndBound(s, k);
    }
  }

  /** Blocks laid out by prefix sums do not overlap: a position inside block
      `k` lies before every later block starts. */
  lemma BlocksDisjoint(s: seq<nat>, k: nat, i: nat, pos: nat)
    requires k < i < |s|
    requires pos < Sum(s[..k]) + s[k]
    ensures pos < Sum(s[..i])
  {
    PrefixStep(s, k);
    PrefixMonotone(s, k + 1, i);
  }

  lemma {:induction false} SumConstant(s: seq<nat>, c: nat)
    requires forall k :: 0 <= k < |s| ==> s[k] == c
    ensures Sum(s) == c * |s|
    decreases |s|
  {
    if |s| > 0 {
      SumConstant(s[..|s| - 1], c);
    }
  }

  lemma PickAppend(c: seq<nat>, a: seq<nat>, b: seq<nat>)
    requires AllBelow(a, |c|) && AllBelow(b, |c|)
    ensures AllBelow(a + b, |c|)
    ensures Pick(c, a + b) == Pick(c, a) + Pick(c, b)
  {
    assert AllBelow(a + b, |c|) by {
      forall k | 0 <= k < |a + b|
        ensures (a + b)[k] < |c|
      {
        if k >= |a| {
          assert (a + b)[k] == b[k - |a|];
        }
      }
    }
  }

  /** Taking index `j` out of `b` takes `c[b[j]]` out of the picked sum. */
  lemma PickSumRemove(c: seq<nat>, b: seq<nat>, j: nat)
    requires AllBelow(b, |c|) && j < |b|
    ensures AllBelow(b[..j] + b[j + 1..], |c|)
    ensures Sum(Pick(c, b)) == Sum(Pick(c, b[..j] + b[j + 1..])) + c[b[j]]
  {
    var lo, hi := b[..j], b[j + 1..];
    assert b == lo + [b[j]] + hi;
    assert AllBelow(lo, |c|) && AllBelow(hi, |c|);
    PickAppend(c, lo, hi);
    PickAppend(c, lo, [b[j]]);
    PickAppend(c, lo + [b[j]], hi);
    SumAppend(Pick(c, lo), Pick(c, [b[j]]));
    SumAppend(Pick(c, lo + [b[j]]), Pick(c, hi));
    SumAppend(Pick(c, lo), Pick(c, hi));
    assert Sum(Pick(c, [b[j]])) == c[b[j]] by {
      assert Pick(c, [b[j]])[..0] == [];
    }
  }

  /** Removing one occurrence of the same value from two equal multisets of
      indices leaves equal multisets. */
  lemma MultisetRemove(a: seq<nat>, b: seq<nat>, j: nat)
    requires |a| > 0 && j < |b| && b[j] == a[|a| - 1]
    requires multiset(a) == multiset(b)
    ensures multiset(a[..|a| - 1]) == multiset(b[..j] + b[j + 1..])
  {
    var n := |a| - 1;
    var x := a[n];
    var b' := b[..j] + b[j + 1..];
    assert a == a[..n] + [x];
    assert b == b[..j] + [x] + b[j + 1..];
    assert multiset(a[..n]) + multiset{x} == multiset(b') + multiset{x};
    assert multiset(a[..n]) == multiset(a[..n]) + multiset{x} - multiset{x};
    assert multiset(b') == multiset(b') + multiset{x} - multiset{x};
  }

  /** Summing picked entries does not depend on the order of the indices: any
      rearrangement of `inds` (same multiset) gives the same total. */
  lemma {:induction false} PickSumPermutation(c: seq<nat>, a: seq<nat>, b: seq<nat>)
    requires AllBelow(a, |c|) && AllBelow(b, |c|)
    requires multiset(a) == multiset(b)
    ensures Sum(Pick(c, a)) == Sum(Pick(c, b))
    decreases |a|
  {
    if |a| == 0 {
      assert |b| == |multiset(b)| == 0;
    } else {
      var n := |a| - 1;
      var x := a[n];
      assert x in multiset(b) by {
        assert x in multiset(a);
      }
      var j :| 0 <= j < |b| && b[j] == x;
      MultisetRemove(a, b, j);
      PickSumRemove(c, b, j);
      PickSumRemove(c, a, n);
      assert a[..n] + a[n + 1..] == a[..n];
      PickSumPermutation(c, a[..n], b[..j] + b[j + 1..]);
    }
  }
}
