# ShaderNavigator projection plane and axis conversion, in Dafny

ShaderNavigator renders cross-sections of large multi-resolution volumes.
Each cross-section is a projection plane. The plane is split into a grid of
square sub-planes, and each sub-plane is half a texture chunk wide. Every
sub-plane has its own shader material with eight texture slots, eight chunk
origins, a chunk count and a chunk size. A level manager fills these from
the chunks closest to the sub-plane's world centre. When the zoom level
changes, the plane is rescaled by `1/2^level`.

This project models that plane (`src/ProjectionPlane.js`). It also models the
per-axis voxel ↔ unit conversion and the zoom-level handling of the control
panel (`src/GuiController.js`). Everything is exact `real` arithmetic.

- `geometry.dfy` (`Geometry`): vectors and `Pow2`, the power of two for an integer exponent.
- `subplane_grid.dfy` (`SubPlaneGrid`): the row-major `row × col` tiling. It
  proves that neighbouring cells share edges, that the outer edges sit at
  `±col·s/2` and `±row·s/2`, that no two cells overlap, and that every point of
  the rectangle lies in exactly one cell.
- `projection_plane.dfy` (`ProjectionPlane`): construction, the placeholder
  bindings, attaching the level manager, per-sub-plane and whole-plane uniform
  refresh, rescaling by level, and the world diagonal.
- `axis_conversion.dfy` (`AxisConversion`): voxel → unit and unit → voxel per
  axis, their closed forms, and both round trips.
- `gui_controller.dfy` (`GuiController`): the zoom-slider commit and preview,
  `updateResolutionLevelUI`, `updateMultiplaneUI`, and the voxel position field.
- `basics.dfy` (`Basics`): `Option` and `Result`.

The level manager is a record of a function and a number: the eight closest chunks
around a world point, and the world size of a chunk at its current level.
The manager tracks its level itself and the plane never passes one, so this
record is the manager's state during one pass.

A JavaScript `TypeError` becomes a `Result.Failure`. The cases are:
- no level manager is attached;
- `updateSubPlaneUniform` gets an index that has no material;
- a voxel position is entered before any `updateMultiplaneUI`.

All three throw before they write anything, and the model shows that.

The zoom slider is built with range [0, 6] and step 1, so its handlers
only ever see values in that range. The model states this as their
precondition.

In the axis conversion, if an axis has a zero `originalSize` or `finalSize`,
the doubles end up infinite or NaN on every branch. The model returns
`NonFinite` in exactly those cases.

Behaviour of the code that the model keeps as it is:
- The constructor does not validate the chunk size or the grid size. Nothing
  is rejected when the plane is built.
- `updateSubPlaneUniform` does not pad or check the manager's answer. It
  stores the answer's `textures` and `origins` arrays in the uniforms by
  reference. The eight-slot placeholder discipline after a refresh therefore
  holds only if the manager pads its answers (`PadsSlots`).
- The manager is asked with a world point only, not with a level.
- With an empty grid (`row·col = 0`), `updateUniforms` does not fail even
  without a manager, because its loop never runs.

## Model

| member | source | states |
|---|---|---|
| Geometry.Pow2 | src/ProjectionPlane.js:179 | `2^lvl` is positive for every integer level, so `1/2^lvl` is always defined |
| SubPlaneGrid.RowMajorSplit | src/ProjectionPlane.js:88-98 | list index k lies in row `k / col` < row and column `k % col` < col, and `k = (k / col)·col + k % col` |
| SubPlaneGrid.RowMajorIndex | src/ProjectionPlane.js:88-98 | row j, column i is stored at index `j·col + i` < row·col, and that index splits back into (j, i) |
| SubPlaneGrid.CenterAtIndex | src/ProjectionPlane.js:93 | the position stored at index `j·col + i` is the centre of cell (j, i) |
| SubPlaneGrid.CenterOffsets | src/ProjectionPlane.js:93 | two cell centres differ by whole multiples of the edge: `(i1-i2)·s` across and `(j1-j2)·s` up |
| SubPlaneGrid.AdjacentColumnsShareEdge | src/ProjectionPlane.js:93 | the right edge of cell (j, i) is the left edge of cell (j, i+1), at the same height |
| SubPlaneGrid.AdjacentRowsShareEdge | src/ProjectionPlane.js:93 | the top edge of cell (j, i) is the bottom edge of cell (j+1, i), in the same column |
| SubPlaneGrid.OuterEdges | src/ProjectionPlane.js:93 | the outermost cells reach exactly to `±col·s/2` horizontally and `±row·s/2` vertically |
| SubPlaneGrid.CellsApart | src/ProjectionPlane.js:93 | two cells with different (row, column) have disjoint open squares |
| SubPlaneGrid.NoOverlap | src/ProjectionPlane.js:88-98 | two different list indices never hold overlapping sub-planes |
| SubPlaneGrid.StripIndex | src/ProjectionPlane.js:93 | every coordinate of a strip of n cells falls in some cell i < n, between that cell's edges |
| SubPlaneGrid.CellOf | src/ProjectionPlane.js:88-98 | every point of the `col·s × row·s` rectangle lies in the square of some sub-plane (no gaps) |
| SubPlaneGrid.CellInPlane | src/ProjectionPlane.js:88-98 | every point of any sub-plane's square lies in the `col·s × row·s` rectangle (no cell sticks out), the converse of `CellOf` |
| SubPlaneGrid.UniqueCell | src/ProjectionPlane.js:88-98 | only one sub-plane's square contains a given point of the rectangle |
| ProjectionPlane.BuildSubPlanes | src/ProjectionPlane.js:43-101 | builds exactly row·col sub-planes; index k sits at the centre of cell (`k / col`, `k % col`) and holds the placeholder binding |
| ProjectionPlane.BuildRow | src/ProjectionPlane.js:89-98 | one pass of the inner loop appends row j's col cells after the earlier rows, in column order |
| ProjectionPlane.NewPlane | src/ProjectionPlane.js:17-37 | the constructor yields 264 sub-planes of edge `chunkSize/2` on the 12 × 22 grid, all placeholders, level 0, no level manager, unit scale at the origin |
| ProjectionPlane.PlaceholderWellFormed | src/ProjectionPlane.js:46-80 | the initial binding has 0 chunks, eight fake textures and eight zero origins, so it satisfies the slot discipline |
| ProjectionPlane.SetLevelManager | src/ProjectionPlane.js:108-110 | attaches the manager and leaves bindings, grid, level and pose unchanged |
| ProjectionPlane.UpdateSubPlaneUniform | src/ProjectionPlane.js:154-162 | fails with `NoLevelManager` exactly when no manager is attached, fails with `NoSuchSubPlane` exactly when a manager is attached and the index has no material, and succeeds otherwise; on success it sets sub-plane i's count, textures, origins and the manager's chunk size, and leaves every other sub-plane and field unchanged |
| ProjectionPlane.WorldCenter | src/ProjectionPlane.js:130 | `localToWorld` of a sub-plane's centre is its local position stretched by the plane's scale and moved by its position (no rotation, no parent); with the default pose it is the local position |
| ProjectionPlane.WorldRowSpacing | src/ProjectionPlane.js:124-133 | in a built plane, the next sub-plane of a row is queried one scaled edge (`scale.x·s`) further along x, at the same height |
| ProjectionPlane.WorldColumnSpacing | src/ProjectionPlane.js:124-133 | in a built plane, the sub-plane `col` indices further is queried one scaled edge (`scale.y·s`) higher, at the same x |
| ProjectionPlane.FromTextureData | src/ProjectionPlane.js:155-160 | a sub-plane's new uniforms hold the answer's count, textures and origins unchanged plus the manager's chunk size, so they obey the slot discipline exactly when the answer does |
| ProjectionPlane.Synchronized | src/ProjectionPlane.js:124-137 | reference result of a refresh: every sub-plane holds the manager's answer for its own world centre, and nothing else changes |
| ProjectionPlane.UpdateUniforms | src/ProjectionPlane.js:124-137 | queries the manager once per index in order 0..row·col-1, at that sub-plane's world centre, and yields the reference result; fails with no manager unless the grid is empty |
| ProjectionPlane.SynchronizeIdempotent | src/ProjectionPlane.js:124-137 | a second refresh with the same pose and manager gives the same state |
| ProjectionPlane.SynchronizeForgetsBindings | src/ProjectionPlane.js:154-160 | the result of a refresh does not depend on the previous bindings, so no stale chunk survives |
| ProjectionPlane.SynchronizedBindingsUniform | src/ProjectionPlane.js:155-160 | after a refresh every sub-plane carries the manager's current chunk size; if the manager pads its answers, every binding keeps the eight-slot placeholder discipline |
| ProjectionPlane.UpdateScaleFromRezLvl | src/ProjectionPlane.js:177-191 | records the level, sets the same positive scale on x, y and z with `scale · 2^lvl = 1`, and changes neither bindings, grid nor position |
| ProjectionPlane.RescaledWorldCenter | src/ProjectionPlane.js:177-187 | right after a rescale, each sub-plane's world centre is the plane position plus its local centre times `1/2^lvl` |
| ProjectionPlane.ScaleHalvesPerLevel | src/ProjectionPlane.js:179 | one level more halves the scale; level 0 is scale 1 on every axis |
| ProjectionPlane.RescaleThenSynchronize | src/ProjectionPlane.js:177-187 | after a rescale and a refresh, sub-plane k holds the answer at its grid cell's centre scaled by `1/2^lvl` and moved by the pose |
| ProjectionPlane.GetWorldDiagonal | src/ProjectionPlane.js:227-232 | the diagonal `sqrt(row²+col²)·scale.x` has square `(row²+col²)·scale.x²`, is non-negative when the scale is and non-positive when the scale is |
| ProjectionPlane.DiagonalAfterRescale | src/ProjectionPlane.js:229 | after a rescale to lvl, the diagonal is non-negative and its square times `4^lvl` equals `row²+col²` |
| ProjectionPlane.DiagonalIgnoresSubPlaneSize | src/ProjectionPlane.js:229 | the rectangle's true world diagonal squared is `subPlaneSize²` times the returned value squared, so the two agree only when sub-planes have edge 1 |
| AxisConversion.VoxelToUnit | src/GuiController.js:124-128 | finite exactly when both sizes are non-zero; then the unit is `(v + offset)/finalSize`, or `(originalSize - v + offset)/finalSize` on a reversed axis |
| AxisConversion.UnitToVoxel | src/GuiController.js:224-241 | finite exactly when both sizes are non-zero; then the voxel is `u·finalSize - offset`, or `originalSize - (u·finalSize - offset)` on a reversed axis |
| AxisConversion.RoundTripVoxel | src/GuiController.js:116-144 | converting voxel → unit → voxel returns the voxel, on a reversed axis too |
| AxisConversion.RoundTripUnit | src/GuiController.js:248-255 | converting unit → voxel → unit returns the unit coordinate, on a reversed axis too |
| AxisConversion.VoxelToUnit3 | src/GuiController.js:124-140 | the three coordinates are converted each with its own descriptor; each is finite exactly when its own axis has non-zero sizes |
| AxisConversion.UnitToVoxel3 | src/GuiController.js:224-241 | the three coordinates are converted each with its own descriptor; each is finite exactly when its own axis has non-zero sizes |
| AxisConversion.AxesIndependent | src/GuiController.js:124-140 | each output coordinate depends only on the same input coordinate and that axis's descriptor, in both directions |
| AxisConversion.RoundTrip3 | src/GuiController.js:116-144 | both three-axis round trips are the identity when every axis has non-zero sizes |
| GuiController.NewGui | src/GuiController.js:10-34 | the controller starts at the scene's level with no cached axis descriptors |
| GuiController.CommitZoom | src/GuiController.js:83-88 | releasing the slider stores and sends `floor(value)`, an integer in [0, 6] with `level ≤ value < level+1`, and sends nothing else |
| GuiController.PreviewZoom | src/GuiController.js:75-81 | dragging the slider makes it show `value` and sets the description to current key, arrow, previewed key; it keeps the level and sends nothing |
| GuiController.UpdateResolutionLevelUI | src/GuiController.js:193-202 | sets the stored level, slider and description to lvl and sends no command to the scene |
| GuiController.UpdateMultiplaneUI | src/GuiController.js:209-246 | caches the axis descriptors; on each axis the shown voxel is finite exactly when that axis has non-zero sizes, and then converts back to the multiplane's coordinate on that axis; level, slider and description are unchanged |
| GuiController.EnterPositionVoxel | src/GuiController.js:116-144 | fails exactly when no descriptors are cached; otherwise sends one move to the per-axis unit conversion of the typed voxel and changes no state |
| GuiController.EnterDisplayedVoxelKeepsPosition | src/GuiController.js:209-246 | typing back the unrounded voxel position the panel showed moves the multiplane to where it already was |

## Left out

- Parent transforms: the plane is taken to be a root of the scene graph. `getPlane` hands its `Object3D` to callers, who may attach it under a parent; `localToWorld` and `updateMatrixWorld` would then include the parent's world matrix, which `WorldCenter` does not.
- Plane rotation: the plane's quaternion is taken to be the identity. `getWorldNormal`, `getWorldVectorU`, `getWorldVectorV` and `_getWorldVectorNormalized` are not modelled. They are quaternion and normalisation library arithmetic on doubles.
- The THREE.js scene graph, meshes, geometry, `ShaderMaterial`/`DataTexture` construction, shader sources and `needsUpdate`. Only the uniform values are modelled, as plain records.
- World-matrix staleness: `WorldCenter` always reads the current position and scale. This matches the state right after `updateMatrixWorld`. A pose change made since the last render or rescale is not distinguished.
- `getPlane`, `setMeshColor` and `printSubPlaneCenterWorld`. They are accessors and debug helpers with no effect on the model's state.
- The level manager's chunk lookup, padding and caching. It is a parameter record, not part of this model.
- Array aliasing: the uniforms hold the very `textures` and `origins` arrays the manager returned, not copies. The model stores their values at the time of the call, which matches the program only if the manager never mutates an array it has already handed out.
- GetWorldDiagonal: the value `sqrt(row²+col²)·scale.x` is kept as a symbolic `ScaledRoot`. Exact reals in Dafny have no square root, so the contract states the value's square and its sign (that of `scale.x`), not a numeric value.
- IEEE rounding: every result is exact over the reals. The round trips and the tiling hold only approximately for the program's doubles. `NonFinite` stands for every infinity and NaN without telling them apart.
- All DOM and widget plumbing of the control panel: `split`/`parseFloat` of the typed text, `toFixed` and `Math.round` of the displayed values, the unit "Position" and "Rotation" fields, the reset-rotation button, the compass, bounding-box and low-resolution toggles, the colormap list, and the annotation panel. These are string parsing, formatting, or calls into code that is not part of this model.
- The level keys shown in the description come from the level manager. They are a parameter function `levelKey`.
- `src/OrientationHelper.js`: it is mesh, sprite and texture construction for the compass, with no logic beyond a visibility flag and a scale.
