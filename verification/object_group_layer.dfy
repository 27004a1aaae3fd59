/** The object group layer: N rigid meshes held in a fixed order, posed
    together and concatenated into one vertex/normal buffer with one face
    buffer. Everything modelled here is the index bookkeeping that keeps face
    indices pointing at the right vertices of the concatenated buffer. */
module ObjectGroupLayer {
  import opened Sums
  import opened Buffers
  import opened Outcomes
  import opened Meshes
  import opened Poses

  /** The rigid motion sub-layer `x` applies to one static point, given its
      rotation and translation slices: `vertex(x, rot, trans, p)`. The
      sub-layer's own code is not part of this model, so the motion is a
      parameter. Each object may move differently, but a motion acts point by
      point: posed point `j` depends only on static point `j`, the object and
      its pose slices. */
  datatype Motion = Motion(
    vertex: (nat, seq<real>, seq<real>, Vec3) -> Vec3,
    normal: (nat, seq<real>, seq<real>, Vec3) -> Vec3)

  /** The sub-layers in construction order, and the global face buffer `f`
      registered at construction. */
  datatype Group = Group(layers: seq<Mesh>, f: seq<Face>)

  /** Posed vertices and normals of one batch element. */
  datatype Posed = Posed(verts: seq<Vec3>, normals: seq<Vec3>)

  /** `num_obj`: one object per sub-layer, and a constructed group has at
      least one. */
  function NumObj(g: Group): (r: nat)
    ensures Valid(g) ==> 0 < r
  {
    |g.layers|
  }

  /** `num_verts`: the vertex count of each object, in construction order. */
  function NumVerts(g: Group): (r: seq<nat>)
    ensures |r| == NumObj(g)
  {
    VertCounts(g.layers)
  }

  /** What construction establishes: at least one object, and `f` is the
      concatenation of every object's faces shifted by the vertex counts of
      the objects before it. */
  predicate Valid(g: Group)
  {
    |g.layers| > 0 && g.f == FaceBuffer(g.layers)
  }

  function Min3(a: nat, b: nat, c: nat): nat
  {
    Min(a, Min(b, c))
  }

  /** Python's `zip(verts, faces, normals)`: stops at the shortest list. */
  function Zip3(verts: seq<seq<Vec3>>, faces: seq<seq<Face>>, normals: seq<seq<Vec3>>): (r: seq<Mesh>)
    ensures |r| == Min3(|verts|, |faces|, |normals|)
    ensures forall i :: 0 <= i < |r| ==> r[i] == Mesh(verts[i], faces[i], normals[i])
  {
    seq(Min3(|verts|, |faces|, |normals|),
        i requires 0 <= i < Min3(|verts|, |faces|, |normals|) => Mesh(verts[i], faces[i], normals[i]))
  }

  /** The constructor. The sub-layers are the zipped lists, but the loop runs
      over `len(verts)` objects, so a `faces` or `normals` list shorter than
      `verts` fails with an index error, a longer one is silently truncated,
      and an empty group fails when the empty face list is concatenated. */
  method New(verts: seq<seq<Vec3>>, faces: seq<seq<Face>>, normals: seq<seq<Vec3>>)
    returns (r: Result<Group>)
    ensures r.Ok? <==> 0 < |verts| <= |faces| && |verts| <= |normals|
    ensures r.Err? ==> r.error == (if |verts| == 0 then EmptyList else IndexOutOfRange)
    ensures r.Ok? ==> Valid(r.value) && NumObj(r.value) == |verts|
    ensures r.Ok? ==> forall i :: 0 <= i < |verts| ==>
              r.value.layers[i] == Mesh(verts[i], faces[i], normals[i]) && NumVerts(r.value)[i] == |verts[i]|
    ensures r.Ok? ==> |r.value.f| == Sum(FaceCounts(r.value.layers))
    ensures r.Ok? && AllFacesInRange(r.value.layers) ==>
              forall j :: 0 <= j < |r.value.f| ==> r.value.f[j].Below(Sum(NumVerts(r.value)))
  {
    var layers := Zip3(verts, faces, normals);
    var f: seq<Face> := [];
    var offset: nat := 0;
    for i := 0 to |verts|
      invariant i <= |layers|
      invariant f == Concat(FaceBlocks(layers)[..i])
      invariant offset == if i == 0 then 0 else VertOffset(layers, i - 1)
    {
      if i > 0 {
        PrefixStep(VertCounts(layers), i - 1);
        offset := offset + |layers[i - 1].verts|;
      }
      if i >= |layers| {
        return Err(IndexOutOfRange);
      }
      ConcatSnoc(FaceBlocks(layers), i);
      f := f + ShiftAll(layers[i].faces, offset);
    }
    if |verts| == 0 {
      return Err(EmptyList);
    }
    assert FaceBlocks(layers)[..|verts|] == FaceBlocks(layers);
    FaceBufferLength(layers);
    if AllFacesInRange(layers) {
      FaceBufferInRange(layers);
    }
    r := Ok(Group(layers, f));
  }

  /** Every selected index names an object of the group. Python's negative
      indices are outside this model. */
  predicate ValidInds(g: Group, inds: seq<nat>)
  {
    AllBelow(inds, NumObj(g))
  }

  /** The objects a call works on: `inds`, or all of them in construction
      order when `inds` is `None`. */
  function Selection(g: Group, inds: Option<seq<nat>>): (r: seq<nat>)
    ensures inds.None? ==> r == Range(NumObj(g)) && ValidInds(g, r)
  {
    match inds
    case None => Range(NumObj(g))
    case Some(s) => s
  }

  /** Sub-layer `x`'s posed points: its motion applied to each static point. */
  function MoveAll(pts: seq<Vec3>, x: nat, rot: seq<real>, trans: seq<real>,
                   move: (nat, seq<real>, seq<real>, Vec3) -> Vec3): (r: seq<Vec3>)
    ensures |r| == |pts|
    ensures forall j :: 0 <= j < |pts| ==> r[j] == move(x, rot, trans, pts[j])
  {
    seq(|pts|, j requires 0 <= j < |pts| => move(x, rot, trans, pts[j]))
  }

  /** The posed vertex blocks of the selected objects, in selection order. */
  function VertBlocks(g: Group, sel: seq<nat>, rt: Rt, motion: Motion): (r: seq<seq<Vec3>>)
    requires ValidInds(g, sel) && |rt.rot| == NumObj(g) && |rt.trans| == NumObj(g)
    ensures |r| == |sel|
  {
    seq(|sel|, k requires 0 <= k < |sel| =>
      MoveAll(g.layers[sel[k]].verts, sel[k], rt.rot[sel[k]], rt.trans[sel[k]], motion.vertex))
  }

  /** The posed normal blocks of the selected objects, in selection order. */
  function NormalBlocks(g: Group, sel: seq<nat>, rt: Rt, motion: Motion): (r: seq<seq<Vec3>>)
    requires ValidInds(g, sel) && |rt.rot| == NumObj(g) && |rt.trans| == NumObj(g)
    ensures |r| == |sel|
  {
    seq(|sel|, k requires 0 <= k < |sel| =>
      MoveAll(g.layers[sel[k]].normals, sel[k], rt.rot[sel[k]], rt.trans[sel[k]], motion.normal))
  }

  /** `forward` for one batch element: decompose the whole pose, then pose and
      concatenate the selected objects in the order given. It fails exactly
      when `pose2rt` fails. */
  function Forward(g: Group, pose: seq<real>, inds: Option<seq<nat>>, motion: Motion): (r: Result<Posed>)
    requires ValidInds(g, Selection(g, inds))
    ensures r.Ok? <==> Pose2Rt(NumObj(g), pose).Ok?
    ensures r.Err? ==> r.error == Pose2Rt(NumObj(g), pose).error
  {
    var sel := Selection(g, inds);
    match Pose2Rt(NumObj(g), pose)
    case Err(e) => Err(e)
    case Ok(rt) =>
      Ok(Posed(Concat(VertBlocks(g, sel, rt, motion)), Concat(NormalBlocks(g, sel, rt, motion))))
  }

  /** `get_num_verts_from_inds`: the vertex counts of the selected objects,
      summed, repetitions counted. */
  function NumVertsFromInds(g: Group, inds: seq<nat>): (r: nat)
    requires ValidInds(g, inds)
    ensures r == Sum(VertCounts(Pick(g.layers, inds)))
    ensures forall k :: 0 <= k < |inds| ==> |g.layers[inds[k]].verts| <= r
  {
    SelectCounts(g, inds);
    SelectedCountsBounded(g, inds);
    Sum(Pick(NumVerts(g), inds))
  }

  /** No selected object has more vertices than the whole selection. */
  lemma SelectedCountsBounded(g: Group, inds: seq<nat>)
    requires ValidInds(g, inds)
    ensures forall k :: 0 <= k < |inds| ==> |g.layers[inds[k]].verts| <= Sum(Pick(NumVerts(g), inds))
  {
    var c := Pick(NumVerts(g), inds);
    SumBoundsEntries(c);
    forall k | 0 <= k < |inds|
      ensures |g.layers[inds[k]].verts| <= Sum(c)
    {
      assert c[k] == NumVerts(g)[inds[k]];
    }
  }

  /** Every selected object has one normal per vertex. */
  predicate SelectedNormalsMatch(g: Group, inds: seq<nat>)
    requires ValidInds(g, inds)
  {
    forall k :: 0 <= k < |inds| ==> |g.layers[inds[k]].normals| == |g.layers[inds[k]].verts|
  }

  /** The faces of every selected object reference only that object's own
      vertices. */
  predicate SelectedFacesInRange(g: Group, inds: seq<nat>)
    requires ValidInds(g, inds)
  {
    forall k :: 0 <= k < |inds| ==> g.layers[inds[k]].FacesInRange()
  }

  /** The per-face owner blocks of `get_f_from_inds`: object `inds[k]`'s index,
      once per face of that object. */
  function OwnerBlocks(g: Group, inds: seq<nat>): (r: seq<seq<nat>>)
    requires ValidInds(g, inds)
    ensures |r| == |inds|
  {
    seq(|inds|, k requires 0 <= k < |inds| => Repeat(inds[k], |g.layers[inds[k]].faces|))
  }

  function FaceOwners(g: Group, inds: seq<nat>): seq<nat>
    requires ValidInds(g, inds)
  {
    Concat(OwnerBlocks(g, inds))
  }

  lemma SelectCounts(g: Group, inds: seq<nat>)
    requires ValidInds(g, inds)
    ensures VertCounts(Pick(g.layers, inds)) == Pick(NumVerts(g), inds)
    ensures FaceCounts(Pick(g.layers, inds)) == Pick(FaceCounts(g.layers), inds)
    ensures Lengths(OwnerBlocks(g, inds)) == FaceCounts(Pick(g.layers, inds))
    ensures Lengths(FaceBlocks(Pick(g.layers, inds))) == FaceCounts(Pick(g.layers, inds))
  {
  }

  /** `get_f_from_inds`: the faces of the selected objects with offsets local
      to the selection's concatenation order, and the owning object of each
      face. */
  method FacesFromInds(g: Group, inds: seq<nat>) returns (f: seq<Face>, m: seq<nat>)
    requires ValidInds(g, inds)
    ensures f == FaceBuffer(Pick(g.layers, inds))
    ensures m == FaceOwners(g, inds)
    ensures |f| == |m| == Sum(Pick(FaceCounts(g.layers), inds))
    ensures SelectedFacesInRange(g, inds) ==>
              forall i :: 0 <= i < |f| ==> f[i].Below(NumVertsFromInds(g, inds))
  {
    ghost var ms := Pick(g.layers, inds);
    f, m := [], [];
    var offset: nat := 0;
    for i := 0 to |inds|
      invariant f == Concat(FaceBlocks(ms)[..i])
      invariant m == Concat(OwnerBlocks(g, inds)[..i])
      invariant offset == if i == 0 then 0 else VertOffset(ms, i - 1)
    {
      if i > 0 {
        PrefixStep(VertCounts(ms), i - 1);
        offset := offset + |g.layers[inds[i - 1]].verts|;
      }
      var x := inds[i];
      ConcatSnoc(FaceBlocks(ms), i);
      ConcatSnoc(OwnerBlocks(g, inds), i);
      f := f + ShiftAll(g.layers[x].faces, offset);
      m := m + Repeat(x, |g.layers[x].faces|);
    }
    assert FaceBlocks(ms)[..|inds|] == FaceBlocks(ms);
    assert OwnerBlocks(g, inds)[..|inds|] == OwnerBlocks(g, inds);
    SelectCounts(g, inds);
    FaceBufferLength(ms);
    ConcatLength(OwnerBlocks(g, inds));
    if SelectedFacesInRange(g, inds) {
      assert AllFacesInRange(ms);
      FaceBufferInRange(ms);
    }
  }

  /** Each face of the subset buffer is a face of the object its owner entry
      names, shifted by the vertex count of the objects selected before it. */
  lemma SubsetFaceOwner(g: Group, inds: seq<nat>, i: nat) returns (k: nat, t: nat)
    requires ValidInds(g, inds)
    requires i < |FaceBuffer(Pick(g.layers, inds))|
    ensures k < |inds| && t < |g.layers[inds[k]].faces|
    ensures i == FaceOffset(Pick(g.layers, inds), k) + t
    ensures i < |FaceOwners(g, inds)| && FaceOwners(g, inds)[i] == inds[k]
    ensures FaceBuffer(Pick(g.layers, inds))[i] ==
              g.layers[inds[k]].faces[t].Shift(VertOffset(Pick(g.layers, inds), k))
  {
    var ms := Pick(g.layers, inds);
    SelectCounts(g, inds);
    k, t := Locate(FaceBlocks(ms), i);
    FaceBufferAt(ms, k, t);
    ConcatAt(OwnerBlocks(g, inds), k, t);
  }

  /** Each entry of `m` names an object below `n` whose vertex range holds
      that entry's position. */
  predicate BlockOwned(g: Group, m: seq<nat>, n: nat)
    requires n <= NumObj(g)
  {
    forall j :: 0 <= j < |m| ==>
      m[j] < n && VertOffset(g.layers, m[j]) <= j < VertOffset(g.layers, m[j] + 1)
  }

  /** `get_vert_inds_from_inds`: the vertex indices `0 .. Σ N_i - 1` of the
      whole group and the owning object of each. The argument `inds` is
      ignored: the result always covers the full group. The owner map names
      object `i` exactly on the vertex range `[Σ_{k<i} N_k, Σ_{k≤i} N_k)`,
      and never decreases. */
  method VertIndsFromInds(g: Group, inds: seq<int>) returns (idx: seq<nat>, m: seq<nat>)
    ensures |idx| == |m| == Sum(NumVerts(g))
    ensures forall j :: 0 <= j < |idx| ==> idx[j] == j
    ensures BlockOwned(g, m, NumObj(g))
    ensures forall j, i :: 0 <= j < |m| && 0 <= i < NumObj(g) ==>
              (m[j] == i <==> VertOffset(g.layers, i) <= j < VertOffset(g.layers, i + 1))
    ensures forall j1, j2 :: 0 <= j1 <= j2 < |m| ==> m[j1] <= m[j2]
  {
    idx, m := VertIndsLoop(g);
    VertOwnerMap(g, m);
  }

  /** The loop of `get_vert_inds_from_inds`: a running offset, one `arange`
      block and one owner block per object. */
  method VertIndsLoop(g: Group) returns (idx: seq<nat>, m: seq<nat>)
    ensures |idx| == |m| == Sum(NumVerts(g))
    ensures forall j :: 0 <= j < |idx| ==> idx[j] == j
    ensures BlockOwned(g, m, NumObj(g))
  {
    var c := NumVerts(g);
    idx, m := [], [];
    var offset: nat := 0;
    for i := 0 to NumObj(g)
      invariant offset == if i == 0 then 0 else VertOffset(g.layers, i - 1)
      invariant |idx| == |m| == VertOffset(g.layers, i)
      invariant forall j :: 0 <= j < |idx| ==> idx[j] == j
      invariant BlockOwned(g, m, i)
    {
      if i > 0 {
        PrefixStep(c, i - 1);
        offset := offset + |g.layers[i - 1].verts|;
      }
      PrefixStep(c, i);
      idx := idx + seq(c[i], j requires 0 <= j < c[i] => j + offset);
      m := m + Repeat(i, c[i]);
    }
    assert c[..NumObj(g)] == c;
  }

  lemma VertOwnerMap(g: Group, m: seq<nat>)
    requires BlockOwned(g, m, NumObj(g))
    ensures forall j, i :: 0 <= j < |m| && 0 <= i < NumObj(g) ==>
              (m[j] == i <==> VertOffset(g.layers, i) <= j < VertOffset(g.layers, i + 1))
    ensures forall j1, j2 :: 0 <= j1 <= j2 < |m| ==> m[j1] <= m[j2]
  {
    forall j, i | 0 <= j < |m| && 0 <= i < NumObj(g)
      ensures m[j] == i <==> VertOffset(g.layers, i) <= j < VertOffset(g.layers, i + 1)
    {
      VertOwnerExact(g, m, j, i);
    }
    forall j1, j2 | 0 <= j1 <= j2 < |m|
      ensures m[j1] <= m[j2]
    {
      VertOwnerSorted(g, m, j1, j2);
    }
  }

  lemma VertOwnerExact(g: Group, m: seq<nat>, j: nat, i: nat)
    requires BlockOwned(g, m, NumObj(g))
    requires j < |m| && i < NumObj(g)
    ensures m[j] == i <==> VertOffset(g.layers, i) <= j < VertOffset(g.layers, i + 1)
  {
    var c := NumVerts(g);
    PrefixStep(c, m[j]);
    PrefixStep(c, i);
    if m[j] < i {
      BlocksDisjoint(c, m[j], i, j);
    } else if i < m[j] && j < VertOffset(g.layers, i + 1) {
      BlocksDisjoint(c, i, m[j], j);
    }
  }

  lemma VertOwnerSorted(g: Group, m: seq<nat>, j1: nat, j2: nat)
    requires BlockOwned(g, m, NumObj(g))
    requires j1 <= j2 < |m|
    ensures m[j1] <= m[j2]
  {
    var c := NumVerts(g);
    if m[j2] < m[j1] {
      PrefixStep(c, m[j2]);
      BlocksDisjoint(c, m[j2], m[j1], j2);
    }
  }
}
