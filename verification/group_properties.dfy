/** Properties that tie the object group's operations to each other: the
    layout `forward` produces for a selection, the face buffer and vertex
    count the subset queries report for the same selection, and the global
    face buffer built at construction. */
module GroupProperties {
  import opened Sums
  import opened Buffers
  import opened Outcomes
  import opened Meshes
  import opened Poses
  import opened ObjectGroupLayer

  /** Without a selection, `forward` poses every object in construction order. */
  lemma ForwardDefaultsToAll(g: Group, pose: seq<real>, motion: Motion)
    ensures ValidInds(g, Range(NumObj(g)))
    ensures Forward(g, pose, None, motion) == Forward(g, pose, Some(Range(NumObj(g))), motion)
  {
  }

  /** An empty selection is not an error: it yields empty vertex and normal
      buffers whenever the pose decomposes. */
  lemma ForwardEmpty(g: Group, pose: seq<real>, motion: Motion)
    requires Pose2Rt(NumObj(g), pose).Ok?
    ensures Forward(g, pose, Some([]), motion) == Ok(Posed([], []))
  {
  }

  lemma BlockLengths(g: Group, sel: seq<nat>, rt: Rt, motion: Motion)
    requires ValidInds(g, sel) && |rt.rot| == NumObj(g) && |rt.trans| == NumObj(g)
    ensures Lengths(VertBlocks(g, sel, rt, motion)) == VertCounts(Pick(g.layers, sel))
    ensures SelectedNormalsMatch(g, sel) ==>
              Lengths(NormalBlocks(g, sel, rt, motion)) == VertCounts(Pick(g.layers, sel))
  {
  }

  /** `forward` returns exactly `get_num_verts_from_inds(inds)` vertices, and
      as many normals when every selected object has one normal per vertex. */
  lemma ForwardLength(g: Group, pose: seq<real>, inds: Option<seq<nat>>, motion: Motion)
    requires ValidInds(g, Selection(g, inds))
    requires Forward(g, pose, inds, motion).Ok?
    ensures |Forward(g, pose, inds, motion).value.verts| == NumVertsFromInds(g, Selection(g, inds))
    ensures SelectedNormalsMatch(g, Selection(g, inds)) ==>
              |Forward(g, pose, inds, motion).value.normals| == NumVertsFromInds(g, Selection(g, inds))
  {
    var sel := Selection(g, inds);
    var rt := Pose2Rt(NumObj(g), pose).value;
    BlockLengths(g, sel, rt, motion);
    SelectCounts(g, sel);
    ConcatLength(VertBlocks(g, sel, rt, motion));
    ConcatLength(NormalBlocks(g, sel, rt, motion));
  }

  /** Block `k` of the `forward` output is object `sel[k]` posed with its own
      slot of the pose, and it starts after the vertices of the objects
      selected before it: vertex `j` sits at `Σ_{i<k} N_{sel[i]} + j`. Here
      `out` is what `forward` returns and `rt` the decomposed pose it used. */
  lemma ForwardAt(g: Group, pose: seq<real>, inds: Option<seq<nat>>, motion: Motion,
                  rt: Rt, out: Posed, k: nat, j: nat)
    requires ValidInds(g, Selection(g, inds))
    requires Pose2Rt(NumObj(g), pose) == Ok(rt)
    requires Forward(g, pose, inds, motion) == Ok(out)
    requires k < |Selection(g, inds)| && j < |g.layers[Selection(g, inds)[k]].verts|
    ensures VertOffset(Pick(g.layers, Selection(g, inds)), k) + j < |out.verts|
    ensures var x := Selection(g, inds)[k];
            out.verts[VertOffset(Pick(g.layers, Selection(g, inds)), k) + j]
              == motion.vertex(x, rt.rot[x], rt.trans[x], g.layers[x].verts[j])
  {
    var sel := Selection(g, inds);
    BlockLengths(g, sel, rt, motion);
    ConcatAt(VertBlocks(g, sel, rt, motion), k, j);
  }

  /** The normals follow the same layout as the vertices when every selected
      object has one normal per vertex. */
  lemma ForwardNormalAt(g: Group, pose: seq<real>, inds: Option<seq<nat>>, motion: Motion,
                        rt: Rt, out: Posed, k: nat, j: nat)
    requires ValidInds(g, Selection(g, inds)) && SelectedNormalsMatch(g, Selection(g, inds))
    requires Pose2Rt(NumObj(g), pose) == Ok(rt)
    requires Forward(g, pose, inds, motion) == Ok(out)
    requires k < |Selection(g, inds)| && j < |g.layers[Selection(g, inds)[k]].verts|
    ensures VertOffset(Pick(g.layers, Selection(g, inds)), k) + j < |out.normals|
    ensures var x := Selection(g, inds)[k];
            && j < |g.layers[x].normals|
            && out.normals[VertOffset(Pick(g.layers, Selection(g, inds)), k) + j]
                 == motion.normal(x, rt.rot[x], rt.trans[x], g.layers[x].normals[j])
  {
    var sel := Selection(g, inds);
    BlockLengths(g, sel, rt, motion);
    ConcatAt(NormalBlocks(g, sel, rt, motion), k, j);
  }

  /** The layout fact behind `SubsetFacesFitForward`, stated on the
      concatenated posed blocks: every subset face index lies inside them. */
  lemma SubsetFacesFitBlocks(g: Group, inds: seq<nat>, rt: Rt, motion: Motion)
    requires ValidInds(g, inds) && SelectedFacesInRange(g, inds)
    requires |rt.rot| == NumObj(g) && |rt.trans| == NumObj(g)
    ensures forall i :: 0 <= i < |FaceBuffer(Pick(g.layers, inds))| ==>
              FaceBuffer(Pick(g.layers, inds))[i].Below(|Concat(VertBlocks(g, inds, rt, motion))|)
  {
    var ms := Pick(g.layers, inds);
    assert AllFacesInRange(ms);
    FaceBufferInRange(ms);
    BlockLengths(g, inds, rt, motion);
    ConcatLength(VertBlocks(g, inds, rt, motion));
  }

  /** The key property: for any selection (reordered, reduced, empty or with
      repetitions), every face index `get_f_from_inds` produces lands inside
      the vertex buffer `forward` produces for the same selection. */
  lemma SubsetFacesFitForward(g: Group, pose: seq<real>, inds: seq<nat>, motion: Motion, out: Posed)
    requires ValidInds(g, inds) && SelectedFacesInRange(g, inds)
    requires Forward(g, pose, Some(inds), motion) == Ok(out)
    ensures forall i :: 0 <= i < |FaceBuffer(Pick(g.layers, inds))| ==>
              FaceBuffer(Pick(g.layers, inds))[i].Below(|out.verts|)
  {
    var rt := Pose2Rt(NumObj(g), pose).value;
    assert Selection(g, Some(inds)) == inds;
    assert out.verts == Concat(VertBlocks(g, inds, rt, motion));
    SubsetFacesFitBlocks(g, inds, rt, motion);
  }

  /** The layout fact behind `SubsetFacesMatchForward`, stated on the
      concatenated posed blocks: corner `i` of face `t` of the `k`-th selected
      object, taken from the subset face buffer, indexes the posed copy of the
      vertex that corner named in its own mesh. */
  lemma SubsetFacesMatchBlocks(g: Group, inds: seq<nat>, rt: Rt, motion: Motion,
                               k: nat, t: nat, i: nat)
    requires ValidInds(g, inds) && |rt.rot| == NumObj(g) && |rt.trans| == NumObj(g)
    requires k < |inds| && g.layers[inds[k]].FacesInRange()
    requires t < |g.layers[inds[k]].faces| && i < 3
    ensures FaceOffset(Pick(g.layers, inds), k) + t < |FaceBuffer(Pick(g.layers, inds))|
    ensures var verts := Concat(VertBlocks(g, inds, rt, motion));
            var corner := FaceBuffer(Pick(g.layers, inds))[FaceOffset(Pick(g.layers, inds), k) + t].Corner(i);
            var x := inds[k];
            var v := g.layers[x].faces[t].Corner(i);
            && v < |g.layers[x].verts|
            && corner < |verts|
            && verts[corner] == motion.vertex(x, rt.rot[x], rt.trans[x], g.layers[x].verts[v])
  {
    var ms := Pick(g.layers, inds);
    var orig := g.layers[inds[k]].faces[t];
    FaceBufferAt(ms, k, t);
    assert FaceBuffer(ms)[FaceOffset(ms, k) + t].Corner(i) == VertOffset(ms, k) + orig.Corner(i);
    BlockLengths(g, inds, rt, motion);
    ConcatAt(VertBlocks(g, inds, rt, motion), k, orig.Corner(i));
  }

  /** Beyond staying in range, each corner of a subset face points at the
      posed copy of the very vertex it named in its own mesh. Here `out` is
      what `forward` returns, `rt` the decomposed pose it used, and `i` the
      corner of face `t` of the `k`-th selected object. */
  lemma SubsetFacesMatchForward(g: Group, pose: seq<real>, inds: seq<nat>, motion: Motion,
                                rt: Rt, out: Posed, k: nat, t: nat, i: nat)
    requires ValidInds(g, inds)
    requires Pose2Rt(NumObj(g), pose) == Ok(rt)
    requires Forward(g, pose, Some(inds), motion) == Ok(out)
    requires k < |inds| && g.layers[inds[k]].FacesInRange()
    requires t < |g.layers[inds[k]].faces| && i < 3
    ensures FaceOffset(Pick(g.layers, inds), k) + t < |FaceBuffer(Pick(g.layers, inds))|
    ensures var corner := FaceBuffer(Pick(g.layers, inds))[FaceOffset(Pick(g.layers, inds), k) + t].Corner(i);
            var x := inds[k];
            var v := g.layers[x].faces[t].Corner(i);
            && v < |g.layers[x].verts|
            && corner < |out.verts|
            && out.verts[corner] == motion.vertex(x, rt.rot[x], rt.trans[x], g.layers[x].verts[v])
  {
    assert Selection(g, Some(inds)) == inds;
    assert out.verts == Concat(VertBlocks(g, inds, rt, motion));
    SubsetFacesMatchBlocks(g, inds, rt, motion, k, t, i);
  }

  /** Selecting every object in construction order reproduces the global face
      buffer registered at construction, with object `k` owning its faces. */
  lemma FacesFromAllIsGlobal(g: Group)
    requires Valid(g)
    ensures ValidInds(g, Range(NumObj(g)))
    ensures FaceBuffer(Pick(g.layers, Range(NumObj(g)))) == g.f
    ensures forall i :: 0 <= i < |g.f| ==>
              i < |FaceOwners(g, Range(NumObj(g)))| && FaceOwners(g, Range(NumObj(g)))[i] < NumObj(g)
  {
    var all := Range(NumObj(g));
    assert Pick(g.layers, all) == g.layers by {
      forall k | 0 <= k < NumObj(g)
        ensures Pick(g.layers, all)[k] == g.layers[k]
      {
        assert all[k] == k;
      }
    }
    var owners := FaceOwners(g, all);
    assert |owners| == |g.f| by {
      SelectCounts(g, all);
      ConcatLength(OwnerBlocks(g, all));
      FaceBufferLength(g.layers);
    }
    forall i | 0 <= i < |g.f|
      ensures owners[i] < NumObj(g)
    {
      var k, t := SubsetFaceOwner(g, all, i);
      assert all[k] == k;
    }
  }

  /** The vertex count of a selection ignores its order. */
  lemma NumVertsPermutation(g: Group, a: seq<nat>, b: seq<nat>)
    requires ValidInds(g, a) && ValidInds(g, b)
    requires multiset(a) == multiset(b)
    ensures NumVertsFromInds(g, a) == NumVertsFromInds(g, b)
  {
    PickSumPermutation(NumVerts(g), a, b);
  }

  /** So does the number of faces `get_f_from_inds` returns: reordering a
      selection only reorders its blocks. */
  lemma FaceCountPermutation(g: Group, a: seq<nat>, b: seq<nat>)
    requires ValidInds(g, a) && ValidInds(g, b)
    requires multiset(a) == multiset(b)
    ensures |FaceBuffer(Pick(g.layers, a))| == |FaceBuffer(Pick(g.layers, b))|
  {
    SelectCounts(g, a);
    SelectCounts(g, b);
    FaceBufferLength(Pick(g.layers, a));
    FaceBufferLength(Pick(g.layers, b));
    PickSumPermutation(FaceCounts(g.layers), a, b);
  }

  /** Counting the selection: nothing for an empty one, everything for the
      whole group, and a split selection counts as the sum of its parts. */
  lemma NumVertsCounts(g: Group, a: seq<nat>, b: seq<nat>)
    requires ValidInds(g, a) && ValidInds(g, b)
    ensures NumVertsFromInds(g, []) == 0
    ensures ValidInds(g, Range(NumObj(g))) && NumVertsFromInds(g, Range(NumObj(g))) == Sum(NumVerts(g))
    ensures ValidInds(g, a + b) && NumVertsFromInds(g, a + b) == NumVertsFromInds(g, a) + NumVertsFromInds(g, b)
  {
    assert Pick(NumVerts(g), Range(NumObj(g))) == NumVerts(g);
    PickAppend(NumVerts(g), a, b);
    SumAppend(Pick(NumVerts(g), a), Pick(NumVerts(g), b));
  }

  /** A worked case: objects of 4 and 3 vertices, the first with two faces
      and the second with one. */
  function PairGroup(p: seq<Vec3>, q: seq<Vec3>): Group
  {
    Group([Mesh(p, [Face(0, 1, 2), Face(1, 2, 3)], p), Mesh(q, [Face(0, 1, 2)], q)],
          [Face(0, 1, 2), Face(1, 2, 3), Face(4, 5, 6)])
  }

  /** In the global buffer the second object's faces are shifted by 4. */
  lemma PairGlobalExample(p: seq<Vec3>, q: seq<Vec3>)
    requires |p| == 4 && |q| == 3
    ensures Valid(PairGroup(p, q))
  {
    var ms := PairGroup(p, q).layers;
    assert VertCounts(ms) == [4, 3];
    assert VertOffset(ms, 0) == 0;
    assert VertOffset(ms, 1) == 4 by {
      assert [4, 3][..1] == [4];
      assert |[4][..0]| == 0;
    }
    var bs := FaceBlocks(ms);
    assert bs[0] == [Face(0, 1, 2), Face(1, 2, 3)] by {
      assert bs[0][0] == Face(0, 1, 2) && bs[0][1] == Face(1, 2, 3);
    }
    assert bs[1] == [Face(4, 5, 6)] by {
      assert bs[1][0] == Face(4, 5, 6);
    }
    assert |bs[..1][..0]| == 0;
    assert bs[..1] == [bs[0]];
    assert FaceBuffer(ms) == Concat(bs[..1]) + bs[1];
    assert Concat(bs[..1]) == bs[0];
  }

  /** Selecting `[1, 0]` puts the second object first: its face stays
      unshifted and the first object's faces move up by 3. */
  lemma ReversedPairFaces(p: seq<Vec3>, q: seq<Vec3>)
    requires |p| == 4 && |q| == 3
    ensures ValidInds(PairGroup(p, q), [1, 0])
    ensures FaceBuffer(Pick(PairGroup(p, q).layers, [1, 0])) == [Face(0, 1, 2), Face(3, 4, 5), Face(4, 5, 6)]
  {
    var g := PairGroup(p, q);
    var ms := Pick(g.layers, [1, 0]);
    assert ms == [g.layers[1], g.layers[0]];
    SumSmall(3, 4);
    SumSmall(1, 2);
    assert VertCounts(ms) == [3, 4] && FaceCounts(ms) == [1, 2];
    assert VertCounts(ms)[..0] == [] && FaceCounts(ms)[..0] == [];
    assert VertCounts(ms)[..1] == [3] && FaceCounts(ms)[..1] == [1];
    FaceBufferLength(ms);
    FaceBufferAt(ms, 0, 0);
    FaceBufferAt(ms, 1, 0);
    FaceBufferAt(ms, 1, 1);
    var fb := FaceBuffer(ms);
    assert fb[0] == Face(0, 1, 2) && fb[1] == Face(3, 4, 5) && fb[2] == Face(4, 5, 6);
  }

  lemma SumSmall(a: nat, b: nat)
    ensures Sum([]) == 0 && Sum([a]) == a && Sum([a, b]) == a + b
  {
    assert [a, b][..1] == [a];
    assert |[a][..0]| == 0;
  }

  /** The same selection owns its faces as `[1, 0, 0]` and counts 7 vertices. */
  lemma ReversedPairOwners(p: seq<Vec3>, q: seq<Vec3>)
    requires |p| == 4 && |q| == 3
    ensures ValidInds(PairGroup(p, q), [1, 0])
    ensures FaceOwners(PairGroup(p, q), [1, 0]) == [1, 0, 0]
    ensures NumVertsFromInds(PairGroup(p, q), [1, 0]) == 7
  {
    var g := PairGroup(p, q);
    var ob: seq<seq<nat>> := OwnerBlocks(g, [1, 0]);
    assert ob[0] == [1] && ob[1] == [0, 0];
    assert |ob[..1][..0]| == 0;
    assert ob[..1] == [ob[0]];
    assert FaceOwners(g, [1, 0]) == Concat(ob[..1]) + ob[1];
    assert Concat(ob[..1]) == ob[0];
    assert Pick(NumVerts(g), [1, 0]) == [3, 4];
    assert Sum([3, 4]) == 7 by {
      assert [3, 4][..1] == [3];
      assert |[3][..0]| == 0;
    }
  }

  /** `forward` with the same selection: the second object's 3 posed vertices
      come first, at 0..2, and the first object's 4 follow at 3..6, each posed
      with its own object's pose slot. */
  lemma ReversedPairForward(p: seq<Vec3>, q: seq<Vec3>, pose: seq<real>, motion: Motion,
                            rt: Rt, out: Posed)
    requires |p| == 4 && |q| == 3
    requires ValidInds(PairGroup(p, q), [1, 0])
    requires Pose2Rt(2, pose) == Ok(rt)
    requires Forward(PairGroup(p, q), pose, Some([1, 0]), motion) == Ok(out)
    ensures |out.verts| == 7
    ensures forall j :: 0 <= j < 3 ==> out.verts[j] == motion.vertex(1, rt.rot[1], rt.trans[1], q[j])
    ensures forall j :: 0 <= j < 4 ==> out.verts[3 + j] == motion.vertex(0, rt.rot[0], rt.trans[0], p[j])
  {
    var g := PairGroup(p, q);
    var ms := Pick(g.layers, [1, 0]);
    assert ms == [g.layers[1], g.layers[0]];
    assert VertCounts(ms) == [3, 4];
    assert VertOffset(ms, 0) == 0 by {
      assert VertCounts(ms)[..0] == [];
    }
    assert VertOffset(ms, 1) == 3 by {
      assert VertCounts(ms)[..1] == [3];
      SumSmall(3, 4);
    }
    ReversedPairOwners(p, q);
    ForwardLength(g, pose, Some([1, 0]), motion);
    forall j | 0 <= j < 3
      ensures out.verts[j] == motion.vertex(1, rt.rot[1], rt.trans[1], q[j])
    {
      ForwardAt(g, pose, Some([1, 0]), motion, rt, out, 0, j);
    }
    forall j | 0 <= j < 4
      ensures out.verts[3 + j] == motion.vertex(0, rt.rot[0], rt.trans[0], p[j])
    {
      ForwardAt(g, pose, Some([1, 0]), motion, rt, out, 1, j);
    }
  }
}
