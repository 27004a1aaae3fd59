/** Concatenation of blocks into one buffer, the shape of every buffer the
    object group builds (`torch.cat` along the object axis). Block `k` of the
    result starts at the prefix sum of the lengths of the blocks before it. */
module Buffers {
  import opened Sums

  /** The blocks laid end to end, in order. */
  function Concat<T>(bs: seq<seq<T>>): seq<T>
  {
    if |bs| == 0 then [] else Concat(bs[..|bs| - 1]) + bs[|bs| - 1]
  }

  function Lengths<T>(bs: seq<seq<T>>): (r: seq<nat>)
    ensures |r| == |bs|
  {
    seq(|bs|, k requires 0 <= k < |bs| => |bs[k]|)
  }

  /** `n` copies of `x`. */
  function Repeat<T>(x: T, n: nat): (r: seq<T>)
    ensures |r| == n
  {
    seq(n, _ => x)
  }

  lemma LengthsPrefix<T>(bs: seq<seq<T>>, k: nat)
    requires k <= |bs|
    ensures Lengths(bs[..k]) == Lengths(bs)[..k]
  {
  }

  /** Appending one block: what a loop body that extends the buffer does. */
  lemma ConcatSnoc<T>(bs: seq<seq<T>>, i: nat)
    requires i < |bs|
    ensures Concat(bs[..i + 1]) == Concat(bs[..i]) + bs[i]
  {
    assert bs[..i + 1][..i] == bs[..i];
  }

  lemma {:induction false} ConcatLength<T>(bs: seq<seq<T>>)
    ensures |Concat(bs)| == Sum(Lengths(bs))
    decreases |bs|
  {
    if |bs| > 0 {
      var n := |bs| - 1;
      ConcatLength(bs[..n]);
      LengthsPrefix(bs, n);
      PrefixStep(Lengths(bs), n);
      assert Lengths(bs)[..n + 1] == Lengths(bs);
    }
  }

  /** Entry `j` of block `k` sits at the block's prefix-sum offset plus `j`. */
  lemma {:induction false} ConcatAt<T>(bs: seq<seq<T>>, k: nat, j: nat)
    requires k < |bs| && j < |bs[k]|
    ensures Sum(Lengths(bs)[..k]) + j < |Concat(bs)|
    ensures Concat(bs)[Sum(Lengths(bs)[..k]) + j] == bs[k][j]
    decreases |bs|
  {
    var n := |bs| - 1;
    ConcatLength(bs[..n]);
    LengthsPrefix(bs, n);
    if k == n {
      assert Lengths(bs[..n]) == Lengths(bs)[..k];
    } else {
      ConcatAt(bs[..n], k, j);
      LengthsPrefix(bs, k);
      LengthsPrefix(bs[..n], k);
      assert bs[..n][..k] == bs[..k];
    }
  }

  /** Every position of the buffer belongs to exactly one block: it is found at
      some block `k` and offset `j` (uniqueness follows from `BlocksDisjoint`). */
  lemma {:induction false} Locate<T>(bs: seq<seq<T>>, i: nat) returns (k: nat, j: nat)
    requires i < |Concat(bs)|
    ensures k < |bs| && j < |bs[k]|
    ensures i == Sum(Lengths(bs)[..k]) + j
    decreases |bs|
  {
    var n := |bs| - 1;
    ConcatLength(bs[..n]);
    LengthsPrefix(bs, n);
    if i < |Concat(bs[..n])| {
      k, j := Locate(bs[..n], i);
      LengthsPrefix(bs, k);
      LengthsPrefix(bs[..n], k);
      assert bs[..n][..k] == bs[..k];
    } else {
      k, j := n, i - |Concat(bs[..n])|;
    }
  }
}
