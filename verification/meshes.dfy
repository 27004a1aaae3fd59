/** The static data of one rigid object and the global face buffer built from
    a sequence of them. A mesh is its vertices, its triangular faces (triples
    of vertex indices local to the mesh) and one normal per vertex. */
module Meshes {
  import opened Sums
  import opened Buffers

  datatype Vec3 = Vec3(x: real, y: real, z: real)

  /** One row of an `[F, 3]` face array. */
  datatype Face = Face(a: nat, b: nat, c: nat) {

    /** `face + offset`, applied to all three corners. */
    function Shift(offset: nat): Face
    {
      Face(a + offset, b + offset, c + offset)
    }

    /** Every corner is a valid index into a buffer of `n` vertices. */
    predicate Below(n: nat)
    {
      a < n && b < n && c < n
    }

    /** Corner `i` of the triangle: `face[i]`. */
    function Corner(i: nat): nat
      requires i < 3
    {
      if i == 0 then a else if i == 1 then b else c
    }
  }

  datatype Mesh = Mesh(verts: seq<Vec3>, faces: seq<Face>, normals: seq<Vec3>) {

    /** Every face references only this mesh's own vertices `[0, N)`. */
    predicate FacesInRange()
    {
      forall t :: 0 <= t < |faces| ==> faces[t].Below(|verts|)
    }
  }

  predicate AllFacesInRange(ms: seq<Mesh>)
  {
    forall i :: 0 <= i < |ms| ==> ms[i].FacesInRange()
  }

  /** `faces + offset` for a whole face array. */
  function ShiftAll(fs: seq<Face>, offset: nat): (r: seq<Face>)
    ensures |r| == |fs|
  {
    seq(|fs|, t requires 0 <= t < |fs| => fs[t].Shift(offset))
  }

  /** Vertex count `N_i` of every mesh. */
  function VertCounts(ms: seq<Mesh>): (r: seq<nat>)
    ensures |r| == |ms|
  {
    seq(|ms|, i requires 0 <= i < |ms| => |ms[i].verts|)
  }

  /** Face count `F_i` of every mesh. */
  function FaceCounts(ms: seq<Mesh>): (r: seq<nat>)
    ensures |r| == |ms|
  {
    seq(|ms|, i requires 0 <= i < |ms| => |ms[i].faces|)
  }

  /** Where mesh `k`'s vertices start once all meshes are concatenated. */
  function VertOffset(ms: seq<Mesh>, k: nat): nat
    requires k <= |ms|
  {
    Sum(VertCounts(ms)[..k])
  }

  /** Where mesh `k`'s faces start in the concatenated face buffer. */
  function FaceOffset(ms: seq<Mesh>, k: nat): nat
    requires k <= |ms|
  {
    Sum(FaceCounts(ms)[..k])
  }

  /** Mesh `k`'s faces shifted past the vertices of the meshes before it. */
  function FaceBlocks(ms: seq<Mesh>): (r: seq<seq<Face>>)
    ensures |r| == |ms|
  {
    seq(|ms|, k requires 0 <= k < |ms| => ShiftAll(ms[k].faces, VertOffset(ms, k)))
  }

  /** The face buffer for meshes concatenated in the order of `ms`. */
  function FaceBuffer(ms: seq<Mesh>): seq<Face>
  {
    Concat(FaceBlocks(ms))
  }

  lemma FaceBlockLengths(ms: seq<Mesh>)
    ensures Lengths(FaceBlocks(ms)) == FaceCounts(ms)
  {
  }

  /** The face buffer holds exactly `Σ F_i` faces. */
  lemma FaceBufferLength(ms: seq<Mesh>)
    ensures |FaceBuffer(ms)| == Sum(FaceCounts(ms))
  {
    FaceBlockLengths(ms);
    ConcatLength(FaceBlocks(ms));
  }

  /** Face `t` of mesh `k` sits at `Σ_{j<k} F_j + t` in the buffer and is the
      original face shifted by `Σ_{j<k} N_j`. */
  lemma FaceBufferAt(ms: seq<Mesh>, k: nat, t: nat)
    requires k < |ms| && t < |ms[k].faces|
    ensures FaceOffset(ms, k) + t < |FaceBuffer(ms)|
    ensures FaceBuffer(ms)[FaceOffset(ms, k) + t] == ms[k].faces[t].Shift(VertOffset(ms, k))
  {
    FaceBlockLengths(ms);
    ConcatAt(FaceBlocks(ms), k, t);
  }

  /** If every mesh's faces stay inside its own vertices, every face of the
      buffer stays inside the concatenated vertices `[0, Σ N_i)`. */
  lemma FaceBufferInRange(ms: seq<Mesh>)
    requires AllFacesInRange(ms)
    ensures forall i :: 0 <= i < |FaceBuffer(ms)| ==> FaceBuffer(ms)[i].Below(Sum(VertCounts(ms)))
  {
    forall i | 0 <= i < |FaceBuffer(ms)|
      ensures FaceBuffer(ms)[i].Below(Sum(VertCounts(ms)))
    {
      var k, t := Locate(FaceBlocks(ms), i);
      FaceBlockLengths(ms);
      FaceBufferAt(ms, k, t);
      assert ms[k].FacesInRange();
      BlockEndBound(VertCounts(ms), k);
    }
  }
}
