# ObjectGroupLayer index bookkeeping, in Dafny

This project models `ObjectGroupLayer` from the HO-Cap annotation toolkit.
The layer holds N rigid object meshes in a fixed order. It poses the
selected objects from one flat pose vector and concatenates the results into one vertex
buffer and one normal buffer. It also keeps a face buffer whose indices
point into that concatenated vertex buffer.

The model covers the integer layout that keeps these buffers consistent:

- the global face buffer built by the constructor;
- the 6-wide pose slots read by `pose2rt`;
- the block order of `forward` for an arbitrary selection `inds`;
- the subset queries `get_f_from_inds`, `get_num_verts_from_inds` and
  `get_vert_inds_from_inds`.

The main result is `GroupProperties.SubsetFacesFitForward`. Take any
selection of objects of the group, whether reordered, reduced, empty or
repeating an object, and a pose that `forward` accepts. When each selected
object's faces reference only its own vertices, every face index
`get_f_from_inds` produces is smaller than the length of the vertex buffer
`forward` produces for the same selection.
`GroupProperties.SubsetFacesMatchForward` goes further. Each corner of such
a face points at the posed copy of the vertex it named in its own mesh.

Files and modules:

- `sums.dfy` (`Sums`): sums, prefix sums, picking table entries by index,
  and invariance of a picked sum under permutation.
- `buffers.dfy` (`Buffers`): concatenation of blocks (`torch.cat` along the
  object axis). Block `k` starts at the prefix sum of the earlier block
  lengths.
- `outcomes.dfy` (`Outcomes`): `Option`, and `Result` with the errors the
  tensor library raises.
- `meshes.dfy` (`Meshes`): vertices, faces, meshes, and the face buffer of a
  sequence of meshes.
- `poses.dfy` (`Poses`): `pose2rt` with Python slice clamping and
  `torch.stack`'s equal-shape rule, plus the packing inverse.
- `object_group_layer.dfy` (`ObjectGroupLayer`): the group and its
  operations.
- `group_properties.dfy` (`GroupProperties`): lemmas relating `forward`, the
  subset queries and the constructor.

Modelling decisions:

- A mesh is its vertex list, its face triples (over `nat`) and its normal
  list. `N_i` is the length of the vertex list.
- `ObjectLayer`, the per-object sub-layer, is not part of this model. Its
  pose is a `Motion`: two uninterpreted functions that map the object's
  index, its rotation slice, its translation slice and one static point to
  a posed point. Each object may therefore move in its own way. Three
  assumptions are made about the sub-layer:
  - it returns one posed vertex per static vertex and one posed normal per
    static normal;
  - it acts point by point: posed point `j` depends only on static point
    `j`, the object and its pose slices. A rigid motion does;
  - it stores the arrays it was built from unchanged. The group reads every
    count and offset back from the sub-layer: `v.size(1)` for `N_i` and
    `f` / `f.size(0)` for the faces. The model takes them from the
    constructor's own lists. That is the same only if the sub-layer keeps
    `v` as a `[1, N_i, 3]` tensor and `f` as the given `[F_i, 3]` array.
- One batch element is modelled. Pose values are `real`.
- The constructor's three lists are not required to have equal length.
  The code zips them, which truncates to the shortest list. It then loops
  over `len(verts)` objects. The model reproduces the outcomes exactly:
  - an empty `verts` fails when `torch.cat` gets an empty list;
  - `faces` or `normals` shorter than `verts` fails with an index error;
  - longer `faces` or `normals` lists are silently cut.
  The code has no such check. The model follows the code.
- `pose2rt` is modelled with its actual acceptance rule. A short pose is not
  always refused. `Poses.Pose2RtAccepts` proves the exact rule: the pose
  decomposes iff `num_obj > 0` and (`num_obj == 1`, or the pose is empty, or
  it has at least `6 * num_obj` values). `forward` fails exactly when
  `pose2rt` does.

## Model

| member | source | states |
|---|---|---|
| ObjectGroupLayer.Zip3 | hocap_annotation/layers/object_group_layer.py:29-31 | the sub-layers are the three lists zipped: as many as the shortest list, entry `i` built from the `i`-th vertex, face and normal arrays |
| ObjectGroupLayer.New | hocap_annotation/layers/object_group_layer.py:26-43 | construction succeeds iff `0 < len(verts) <= len(faces)` and `len(verts) <= len(normals)`; otherwise it fails with the empty-concatenation error (no objects) or an index error; on success `num_obj == len(verts)`, `num_verts[i] == len(verts[i])`, `f` is the offset face buffer with `Σ F_i` faces, and when every object's faces are valid every index of `f` is below `Σ N_i` |
| ObjectGroupLayer.NumObj | hocap_annotation/layers/object_group_layer.py:45-53 | the number of objects, one per sub-layer; a constructed group has at least one (`New` sets it to `len(verts)`) |
| ObjectGroupLayer.NumVerts | hocap_annotation/layers/object_group_layer.py:55-63 | one vertex count per object of the group |
| Meshes.FaceBufferLength | hocap_annotation/layers/object_group_layer.py:36-42 | the concatenated face buffer holds exactly `Σ F_i` faces |
| Meshes.FaceBufferAt | hocap_annotation/layers/object_group_layer.py:36-42 | face `t` of object `k` sits at position `Σ_{j<k} F_j + t` and equals the original face plus `Σ_{j<k} N_j` |
| Meshes.FaceBufferInRange | hocap_annotation/layers/object_group_layer.py:36-42 | if each object's faces reference only `[0, N_i)`, every face of the buffer references only `[0, Σ N_i)` |
| Buffers.ConcatAt | hocap_annotation/layers/object_group_layer.py:42 | `torch.cat` of blocks: entry `j` of block `k` sits at the sum of the earlier blocks' lengths plus `j` |
| Buffers.ConcatLength | hocap_annotation/layers/object_group_layer.py:42 | `torch.cat` of blocks holds the sum of their lengths |
| Poses.PySlice | hocap_annotation/layers/object_group_layer.py:124-127 | Python's `s[lo:hi]` clamps both bounds to the length: it has `min(hi, len) - min(lo, len)` entries, and is the plain slice when `hi` is in range |
| Poses.Stack | hocap_annotation/layers/object_group_layer.py:123-128 | stacking succeeds iff there is at least one slice and all slices have one length, and then keeps them unchanged |
| Poses.Pose2Rt | hocap_annotation/layers/object_group_layer.py:111-129 | on success there is exactly one rotation and one translation entry per object of the group |
| Poses.Pose2RtSlots | hocap_annotation/layers/object_group_layer.py:123-128 | with at least `6 * num_obj` pose values, rotation `i` is `pose[6i..6i+3]` and translation `i` is `pose[6i+3..6i+6]` |
| Poses.Pose2RtAccepts | hocap_annotation/layers/object_group_layer.py:123-128 | the pose decomposes iff `num_obj > 0` and (`num_obj == 1` or the pose is empty or it has at least `6 * num_obj` values); otherwise the error is the empty-list error for no objects and the shape error for mismatched slices |
| Poses.PackLayout | hocap_annotation/layers/object_group_layer.py:123-128 | packing 3-vector rotations and translations gives `6 * num_obj` values with slot `i` at `[6i, 6i+6)` |
| Poses.PackThenSlice | hocap_annotation/layers/object_group_layer.py:123-128 | packing rotations and translations and decomposing again returns them exactly |
| Poses.SliceThenPack | hocap_annotation/layers/object_group_layer.py:123-128 | decomposing a pose and packing the parts returns its first `6 * num_obj` values |
| ObjectGroupLayer.Selection | hocap_annotation/layers/object_group_layer.py:90-91 | with no selection every object is used, in construction order |
| ObjectGroupLayer.Forward | hocap_annotation/layers/object_group_layer.py:75-109 | `forward` fails exactly when `pose2rt` fails, with the same error |
| GroupProperties.ForwardDefaultsToAll | hocap_annotation/layers/object_group_layer.py:90-91 | `forward` with no selection equals `forward` with `range(num_obj)` |
| GroupProperties.ForwardEmpty | hocap_annotation/layers/object_group_layer.py:93-108 | an empty selection yields empty vertex and normal buffers, not an error |
| GroupProperties.ForwardLength | hocap_annotation/layers/object_group_layer.py:100-108 | `forward` returns `get_num_verts_from_inds(inds)` vertices, and as many normals when each selected object has one normal per vertex |
| GroupProperties.ForwardAt | hocap_annotation/layers/object_group_layer.py:100-108 | block `k` of the output is object `inds[k]` posed by its own motion with its own pose slot, vertex `j` at `Σ_{i<k} N_{inds[i]} + j` |
| GroupProperties.ForwardNormalAt | hocap_annotation/layers/object_group_layer.py:100-108 | when each selected object has one normal per vertex, normal `j` of block `k` sits at the same position as vertex `j` and is object `inds[k]`'s normal posed by its own motion with its own slot |
| ObjectGroupLayer.NumVertsFromInds | hocap_annotation/layers/object_group_layer.py:171 | the sum of `N_x` over the entries `x` of `inds`, repetitions counted; no selected object has more vertices than that sum |
| ObjectGroupLayer.FacesFromInds | hocap_annotation/layers/object_group_layer.py:131-159 | the running-offset loop yields the subset face buffer (offsets local to `inds`) and the owner map; both have `Σ_{x in inds} F_x` entries; when the selected objects' faces are valid, every index is below `get_num_verts_from_inds(inds)` |
| ObjectGroupLayer.SubsetFaceOwner | hocap_annotation/layers/object_group_layer.py:143-159 | each subset face is face `t` of object `inds[k]` shifted by `Σ_{i<k} N_{inds[i]}`, and its owner entry is `inds[k]` |
| GroupProperties.SubsetFacesFitBlocks | hocap_annotation/layers/object_group_layer.py:143-159 | assuming the selected objects' faces are valid, every subset face index lies inside the concatenation of the posed blocks `forward` builds for the same selection |
| GroupProperties.SubsetFacesFitForward | hocap_annotation/layers/object_group_layer.py:143-159 | assuming the selected objects' faces are valid, every subset face index lies inside the vertex buffer `forward` returns for the same selection |
| GroupProperties.SubsetFacesMatchBlocks | hocap_annotation/layers/object_group_layer.py:146-155 | the same corner property against the concatenation of the posed blocks `forward` builds (`torch.cat` of the sub-layer outputs in selection order), assuming only that the selected object's own faces stay inside its vertex array |
| GroupProperties.SubsetFacesMatchForward | hocap_annotation/layers/object_group_layer.py:146-155 | corner `i` of face `t` of the `k`-th selected object, in the subset face buffer, points at the posed copy (with object `inds[k]`'s own pose slot) of the vertex that corner named in its own mesh |
| GroupProperties.FacesFromAllIsGlobal | hocap_annotation/layers/object_group_layer.py:143-159 | `get_f_from_inds(range(num_obj))` reproduces the constructor's face buffer `f`, and every owner is a valid object |
| GroupProperties.NumVertsPermutation | hocap_annotation/layers/object_group_layer.py:171 | the subset vertex count is the same for any rearrangement of `inds` |
| GroupProperties.FaceCountPermutation | hocap_annotation/layers/object_group_layer.py:143-159 | the subset face count is the same for any rearrangement of `inds` |
| GroupProperties.NumVertsCounts | hocap_annotation/layers/object_group_layer.py:161-171 | the vertex count is 0 for no objects and `Σ N_i` for all of them, and is additive over concatenated selections |
| GroupProperties.PairGlobalExample | hocap_annotation/layers/object_group_layer.py:36-43 | objects of 4 and 3 vertices: the global face buffer shifts the second object's faces by 4 |
| GroupProperties.ReversedPairFaces | hocap_annotation/layers/object_group_layer.py:143-157 | for the same objects selected as `[1, 0]`, the second object's face stays unshifted and the first object's faces move up by 3 |
| GroupProperties.ReversedPairOwners | hocap_annotation/layers/object_group_layer.py:150-171 | for the same selection the owners are `[1, 0, 0]` and the vertex count is 7 |
| GroupProperties.ReversedPairForward | hocap_annotation/layers/object_group_layer.py:100-108 | for the same selection `forward` returns 7 vertices: object 1's three posed vertices at 0..2, then object 0's four at 3..6, each posed with its own object's slot |
| ObjectGroupLayer.VertIndsLoop | hocap_annotation/layers/object_group_layer.py:187-205 | the running-offset loop yields `Σ N_i` indices with `idx[j] == j` and an owner map in which each entry's object range holds that entry's position |
| ObjectGroupLayer.VertIndsFromInds | hocap_annotation/layers/object_group_layer.py:173-205 | whatever `inds` is (any integers, negative ones included), the result covers the whole group: `idx[j] == j` for `j < Σ N_i`, `m[j] == i` exactly when `Σ_{k<i} N_k <= j < Σ_{k<=i} N_k`, and `m` never decreases |
| ObjectGroupLayer.VertOwnerMap | hocap_annotation/layers/object_group_layer.py:196-204 | an owner map built from consecutive per-object ranges names object `i` exactly on its range, and never decreases |
| ObjectGroupLayer.VertOwnerExact | hocap_annotation/layers/object_group_layer.py:196-204 | one position: its owner is `i` iff it lies in object `i`'s vertex range |
| ObjectGroupLayer.VertOwnerSorted | hocap_annotation/layers/object_group_layer.py:196-204 | two positions in order have owners in order |

## Left out

- The rotation and translation of vertices and normals inside `ObjectLayer`. That code is not part of this model, and the work is floating-point axis-angle math. It is the opaque `Motion` parameter, so the "zero pose gives the static mesh" law is not stated.
- `torch` tensors, dtypes, devices, `register_buffer` and the `Module`/`ModuleList` plumbing. They are framework wrappers.
- The batch dimension. Batch elements never interact, so one pose vector is modelled.
- The `count` property. It returns `numel()` of each sub-layer's face tensor, whose shape lives in `ObjectLayer`. For an `[F, 3]` array that is `3F`, not the face count its docstring promises.
- Negative and out-of-range entries of `inds`. The code does not check them. Python wraps negative indices, and larger ones raise. The model requires every entry to be below `num_obj` in `forward`, `get_f_from_inds` and `get_num_verts_from_inds`. `get_vert_inds_from_inds` never reads `inds`, so it takes any integers.
- The re-export module `hocap_annotation/layers/__init__.py`. It only re-exports classes, including hand layers whose code is not part of this model.
- ObjectGroupLayer.Motion: a sub-layer that mixes points, so that posed point `j` depends on static points other than `j`, is not modelled. `ObjectLayer` applies one rigid motion per object, which acts point by point.
- How `ObjectLayer` stores its vertex and face arrays. That code is not part of this model. If it kept `v` as `[N_i, 3]`, every offset the group computes from `v.size(1)` would be 3 instead of `N_i`. The model assumes the `[1, N_i, 3]` layout and an unchanged `f`.
- ObjectGroupLayer.Forward: the posed blocks are whatever `Motion` returns for the slices `pose2rt` hands over. When a short pose is accepted (one object, or an empty pose), the sub-layer's reaction to short slices is not modelled.
