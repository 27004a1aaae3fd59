/** Decomposition of a flat pose vector into per-object rotation and
    translation, as `pose2rt` does for one batch element. Slot `i` of the pose
    is `[6i, 6i + 6)`: three axis-angle rotation values, then three
    translation values. Slicing follows Python (bounds clamp to the length)
    and stacking follows `torch.stack` (all slices must have one length). */
module Poses {
  import opened Sums
  import opened Buffers
  import opened Outcomes

  /** Python's `s[lo:hi]` for `0 <= lo <= hi`: both bounds clamp to `|s|`. */
  function PySlice(s: seq<real>, lo: nat, hi: nat): (r: seq<real>)
    requires lo <= hi
    ensures |r| == Min(hi, |s|) - Min(lo, |s|)
    ensures hi <= |s| ==> r == s[lo..hi]
  {
    s[Min(lo, |s|)..Min(hi, |s|)]
  }

  predicate SameLength(xs: seq<seq<real>>)
  {
    forall i :: 0 <= i < |xs| ==> |xs[i]| == |xs[0]|
  }

  /** `torch.stack` of per-object slices: refuses an empty list and slices of
      different lengths. */
  function Stack(xs: seq<seq<real>>): (r: Result<seq<seq<real>>>)
    ensures r.Ok? <==> |xs| > 0 && SameLength(xs)
    ensures r.Ok? ==> r.value == xs
  {
    if |xs| == 0 then Err(EmptyList)
    else if !SameLength(xs) then Err(ShapeMismatch)
    else Ok(xs)
  }

  /** Per-object rotations and translations, each entry a 3-vector when the
      pose is long enough. */
  datatype Rt = Rt(rot: seq<seq<real>>, trans: seq<seq<real>>)

  function RotSlices(numObj: nat, pose: seq<real>): (r: seq<seq<real>>)
    ensures |r| == numObj
  {
    seq(numObj, i requires 0 <= i < numObj => PySlice(pose, 6 * i, 6 * i + 3))
  }

  function TransSlices(numObj: nat, pose: seq<real>): (r: seq<seq<real>>)
    ensures |r| == numObj
  {
    seq(numObj, i requires 0 <= i < numObj => PySlice(pose, 6 * i + 3, 6 * i + 6))
  }

  /** `pose2rt`: one rotation and one translation per object of the group,
      whatever subset a later caller selects. */
  function Pose2Rt(numObj: nat, pose: seq<real>): (r: Result<Rt>)
    ensures r.Ok? ==> |r.value.rot| == numObj && |r.value.trans| == numObj
  {
    match Stack(RotSlices(numObj, pose))
    case Err(e) => Err(e)
    case Ok(rot) =>
      match Stack(TransSlices(numObj, pose))
      case Err(e) => Err(e)
      case Ok(trans) => Ok(Rt(rot, trans))
  }

  /** With at least six values per object, slot `i` splits exactly into
      `pose[6i..6i+3]` and `pose[6i+3..6i+6]`; values past `6 * numObj` are
      ignored. */
  lemma Pose2RtSlots(numObj: nat, pose: seq<real>)
    requires 0 < numObj && 6 * numObj <= |pose|
    ensures Pose2Rt(numObj, pose).Ok?
    ensures forall i :: 0 <= i < numObj ==>
              && Pose2Rt(numObj, pose).value.rot[i] == pose[6 * i..6 * i + 3]
              && Pose2Rt(numObj, pose).value.trans[i] == pose[6 * i + 3..6 * i + 6]
  {
    assert SameLength(RotSlices(numObj, pose));
    assert SameLength(TransSlices(numObj, pose));
  }

  /** Exactly which pose lengths `pose2rt` accepts: a short pose is not refused
      outright. A single object takes any length (its slices are merely short),
      and an empty pose gives empty slices for every object; any other length
      below `6 * numObj` makes the slices differ in length and the stack fails. */
  lemma Pose2RtAccepts(numObj: nat, pose: seq<real>)
    ensures Pose2Rt(numObj, pose).Ok? <==>
              0 < numObj && (numObj == 1 || |pose| == 0 || 6 * numObj <= |pose|)
    ensures Pose2Rt(numObj, pose).Err? ==>
              Pose2Rt(numObj, pose).error == (if numObj == 0 then EmptyList else ShapeMismatch)
  {
    var n := |pose|;
    var rs, ts := RotSlices(numObj, pose), TransSlices(numObj, pose);
    if numObj == 1 || n == 0 || 6 * numObj <= n {
      assert SameLength(rs);
      assert SameLength(ts);
    } else if 0 < numObj {
      var last := numObj - 1;
      if n <= 6 * last {
        assert |rs[last]| == 0 && |rs[0]| > 0;
        assert !SameLength(rs);
      } else {
        assert |ts[last]| < 3 && |ts[0]| == 3;
        assert !SameLength(ts);
      }
    }
  }

  /** The inverse of `Pose2Rt`: slot `i` of the pose is `rot[i] + trans[i]`. */
  function Pack(rot: seq<seq<real>>, trans: seq<seq<real>>): seq<real>
    requires |rot| == |trans|
  {
    Concat(seq(|rot|, i requires 0 <= i < |rot| => rot[i] + trans[i]))
  }

  predicate Triples(xs: seq<seq<real>>)
  {
    forall i :: 0 <= i < |xs| ==> |xs[i]| == 3
  }

  /** A packed pose has six values per object, slot `i` at `[6i, 6i + 6)`. */
  lemma PackLayout(rot: seq<seq<real>>, trans: seq<seq<real>>)
    requires |rot| == |trans| && Triples(rot) && Triples(trans)
    ensures |Pack(rot, trans)| == 6 * |rot|
    ensures forall i, j :: 0 <= i < |rot| && 0 <= j < 6 ==>
              Pack(rot, trans)[6 * i + j] == (rot[i] + trans[i])[j]
  {
    var bs := seq(|rot|, i requires 0 <= i < |rot| => rot[i] + trans[i]);
    SumConstant(Lengths(bs), 6);
    ConcatLength(bs);
    forall i, j | 0 <= i < |rot| && 0 <= j < 6
      ensures Pack(rot, trans)[6 * i + j] == (rot[i] + trans[i])[j]
    {
      SumConstant(Lengths(bs)[..i], 6);
      ConcatAt(bs, i, j);
    }
  }

  /** Packing rotations and translations and decomposing again returns them. */
  lemma PackThenSlice(rot: seq<seq<real>>, trans: seq<seq<real>>)
    requires |rot| == |trans| > 0 && Triples(rot) && Triples(trans)
    ensures Pose2Rt(|rot|, Pack(rot, trans)) == Ok(Rt(rot, trans))
  {
    var pose := Pack(rot, trans);
    PackLayout(rot, trans);
    Pose2RtSlots(|rot|, pose);
    var rt := Pose2Rt(|rot|, pose).value;
    forall i | 0 <= i < |rot|
      ensures rt.rot[i] == rot[i] && rt.trans[i] == trans[i]
    {
      var slot := pose[6 * i..6 * i + 6];
      forall j | 0 <= j < 6
        ensures slot[j] == (rot[i] + trans[i])[j]
      {
        assert slot[j] == pose[6 * i + j];
      }
      assert slot == rot[i] + trans[i];
      assert pose[6 * i..6 * i + 3] == slot[..3] == rot[i];
      assert pose[6 * i + 3..6 * i + 6] == slot[3..] == trans[i];
    }
    assert rt.rot == rot && rt.trans == trans;
  }

  /** Decomposing a pose and packing the parts again returns the pose's first
      `6 * numObj` values. */
  lemma SliceThenPack(numObj: nat, pose: seq<real>)
    requires 0 < numObj && 6 * numObj <= |pose|
    ensures Pose2Rt(numObj, pose).Ok?
    ensures Pack(Pose2Rt(numObj, pose).value.rot, Pose2Rt(numObj, pose).value.trans) == pose[..6 * numObj]
  {
    Pose2RtSlots(numObj, pose);
    var rt := Pose2Rt(numObj, pose).value;
    PackLayout(rt.rot, rt.trans);
    var packed := Pack(rt.rot, rt.trans);
    forall p | 0 <= p < 6 * numObj
      ensures packed[p] == pose[p]
    {
      var i, j := p / 6, p % 6;
      assert p == 6 * i + j;
      assert packed[6 * i + j] == (rt.rot[i] + rt.trans[i])[j];
    }
  }
}
