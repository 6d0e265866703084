/**
 * The projection plane of src/ProjectionPlane.js: a grid of square sub-planes,
 * each with its own shader binding (a chunk count, eight texture slots, eight
 * chunk origins and a chunk size), refreshed from a level manager.
 *
 * The THREE.js objects become plain records: a sub-plane is its local
 * position, its cloned material is its `Binding`, and the plane's
 * `Object3D` is reduced to a position and a per-axis scale. The plane's
 * rotation is taken to be the identity.
 */
module ProjectionPlane {
  import opened Basics
  import opened Geometry
  import opened SubPlaneGrid

  /** A texture bound to a shader slot: the 1x1 placeholder, or a chunk of image data. */
  datatype Tex = Fake | Chunk(id: nat)

  /** Number of texture (and origin) slots of every sub-plane shader. */
  const SlotCount: nat := 8

  /** The uniform values of one sub-plane's material. */
  datatype Binding = Binding(nbChunks: int, textures: seq<Tex>, origins: seq<Vec3>, chunkSize: real)

  /** What the level manager answers for one point: `{nbValid, textures, origins}`. */
  datatype TextureData = TextureData(nbValid: int, textures: seq<Tex>, origins: seq<Vec3>)

  /**
   * The level manager as the plane sees it during one pass: the eight closest
   * chunks around a world point, and the world size of a chunk at the level
   * the manager currently holds.
   */
  datatype LevelManager = LevelManager(closest: Vec3 -> TextureData, currentChunkSizeWc: real)

  datatype PlaneError =
    | NoLevelManager          // `_levelManager` is still null
    | NoSuchSubPlane(index: int)  // `_shaderMaterials[i]` is undefined

  datatype Plane = Plane(
    subPlaneSize: real,
    dim: GridDim,
    subPlanes: seq<Vec3>,     // local position of each sub-plane mesh, row-major
    bindings: seq<Binding>,   // uniforms of each sub-plane material, same order
    levelManager: Option<LevelManager>,
    resolutionLevel: int,
    position: Vec3,           // position of the plane's Object3D in the world
    scale: Vec3)              // scale of the plane's Object3D

  /** Eight slots holding the same value. */
  function Slots<T>(v: T): seq<T> {
    seq(SlotCount, _ => v)
  }

  /** The binding every material is cloned from: no chunk, fake textures, zero origins, chunk size 1. */
  const Placeholder: Binding := Binding(0, Slots(Fake), Slots(Origin), 1.0)

  /** One material per sub-plane, one sub-plane per grid cell. */
  predicate Valid(p: Plane) {
    |p.subPlanes| == Count(p.dim) && |p.bindings| == Count(p.dim)
  }

  /** `a` and `b` agree on everything but the bindings. */
  ghost predicate SameExceptBindings(a: Plane, b: Plane) {
    && a.subPlaneSize == b.subPlaneSize && a.dim == b.dim && a.subPlanes == b.subPlanes
    && a.levelManager == b.levelManager && a.resolutionLevel == b.resolutionLevel
    && a.position == b.position && a.scale == b.scale
  }

  /**
   * A binding obeys the shader's slot discipline: at most eight valid chunks,
   * exactly eight slots, and every slot past the valid ones a placeholder.
   */
  predicate WellFormedBinding(b: Binding) {
    && 0 <= b.nbChunks <= SlotCount
    && |b.textures| == SlotCount && |b.origins| == SlotCount
    && forall n :: b.nbChunks <= n < SlotCount ==> b.textures[n] == Fake && b.origins[n] == Origin
  }

  /** The level manager pads every answer to eight slots with placeholders. */
  ghost predicate PadsSlots(lm: LevelManager) {
    forall c :: WellFormedData(lm.closest(c))
  }

  predicate WellFormedData(d: TextureData) {
    WellFormedBinding(Binding(d.nbValid, d.textures, d.origins, 0.0))
  }

  // ---------------------------------------------------------------- building

  /**
   * `_buildSubPlanes`: row by row, column by column, one sub-plane at the
   * cell's centre with a fresh copy of the placeholder binding.
   */
  method BuildSubPlanes(d: GridDim, size: real) returns (subPlanes: seq<Vec3>, bindings: seq<Binding>)
    ensures |subPlanes| == Count(d) && |bindings| == Count(d)
    ensures forall k :: 0 <= k < |subPlanes| ==> subPlanes[k] == CenterAt(d, size, k)
    ensures forall k :: 0 <= k < |bindings| ==> bindings[k] == Placeholder
  {
    subPlanes, bindings := [], [];
    var j := 0;
    while j < d.row
      invariant 0 <= j <= d.row
      invariant |subPlanes| == j * d.col && |bindings| == j * d.col && j * d.col <= Count(d)
      invariant forall k :: 0 <= k < |subPlanes| ==> subPlanes[k] == CenterAt(d, size, k)
      invariant forall k :: 0 <= k < |bindings| ==> bindings[k] == Placeholder
    {
      MulMonotone(j + 1, d.row, d.col);
      subPlanes, bindings := BuildRow(d, size, j, subPlanes, bindings);
      j := j + 1;
    }
  }

  /** The inner loop of `_buildSubPlanes`: appends row `j`, one column at a time. */
  method BuildRow(d: GridDim, size: real, j: nat, prefix: seq<Vec3>, prefixBindings: seq<Binding>)
    returns (subPlanes: seq<Vec3>, bindings: seq<Binding>)
    requires j < d.row && (j + 1) * d.col <= Count(d)
    requires |prefix| == j * d.col && |prefixBindings| == j * d.col
    requires forall k :: 0 <= k < |prefix| ==> prefix[k] == CenterAt(d, size, k)
    requires forall k :: 0 <= k < |prefixBindings| ==> prefixBindings[k] == Placeholder
    ensures |subPlanes| == (j + 1) * d.col && |bindings| == (j + 1) * d.col
    ensures forall k :: 0 <= k < |subPlanes| ==> subPlanes[k] == CenterAt(d, size, k)
    ensures forall k :: 0 <= k < |bindings| ==> bindings[k] == Placeholder
  {
    subPlanes, bindings := prefix, prefixBindings;
    var base := j * d.col;
    assert base + d.col == (j + 1) * d.col;
    var i := 0;
    while i < d.col
      invariant 0 <= i <= d.col
      invariant base + d.col <= Count(d)
      invariant |subPlanes| == base + i && |bindings| == base + i
      invariant forall k :: 0 <= k < |subPlanes| ==> subPlanes[k] == CenterAt(d, size, k)
      invariant forall k :: 0 <= k < |bindings| ==> bindings[k] == Placeholder
    {
      CenterAtIndex(d, size, j, i);
      assert CenterAt(d, size, base + i) == CellCenter(d, size, j, i);
      subPlanes := subPlanes + [CellCenter(d, size, j, i)];
      bindings := bindings + [Placeholder];
      i := i + 1;
    }
  }

  /**
   * The constructor: sub-planes of half a chunk, the program's 12 x 22 grid,
   * no level manager yet, level 0, and the default pose of a fresh Object3D.
   */
  method NewPlane(chunkSize: real) returns (p: Plane)
    ensures Valid(p)
    ensures p.dim == PlaneDim && Count(p.dim) == 264
    ensures p.subPlaneSize == chunkSize / 2.0
    ensures p.levelManager == None && p.resolutionLevel == 0
    ensures p.position == Origin && p.scale == Uniform(1.0)
    ensures forall k :: 0 <= k < |p.subPlanes| ==> p.subPlanes[k] == CenterAt(p.dim, p.subPlaneSize, k)
    ensures forall k :: 0 <= k < |p.bindings| ==> p.bindings[k] == Placeholder
  {
    var size := chunkSize / 2.0;
    var subPlanes, bindings := BuildSubPlanes(PlaneDim, size);
    p := Plane(size, PlaneDim, subPlanes, bindings, None, 0, Origin, Uniform(1.0));
  }

  /** `setLevelManager`: attaches the manager and changes nothing else. */
  function SetLevelManager(p: Plane, lm: LevelManager): (r: Plane)
    ensures r.levelManager == Some(lm)
    ensures r.bindings == p.bindings && r.subPlanes == p.subPlanes && r.dim == p.dim
    ensures r.resolutionLevel == p.resolutionLevel && r.position == p.position && r.scale == p.scale
    ensures r.subPlaneSize == p.subPlaneSize
  {
    p.(levelManager := Some(lm))
  }

  // ---------------------------------------------------------------- uniforms

  /**
   * `localToWorld` of a sub-plane's centre: the local point stretched by the
   * plane's per-axis scale, then moved by its position. This is the whole
   * pose: the rotation is the identity and the plane has no parent transform.
   */
  function WorldCenter(p: Plane, k: nat): (c: Vec3)
    requires k < |p.subPlanes|
    ensures p.position == Origin && p.scale == Uniform(1.0) ==> c == p.subPlanes[k]
  {
    Add(p.position, Stretch(p.scale, p.subPlanes[k]))
  }

  /**
   * In a plane built by the constructor's loops, the next sub-plane of the
   * same row lies one scaled edge further along x, at the same height, in
   * world coordinates.
   */
  lemma WorldRowSpacing(p: Plane, k: nat)
    requires p.dim.col > 0 && k % p.dim.col + 1 < p.dim.col && k + 1 < Count(p.dim)
    requires Valid(p)
    requires forall n :: 0 <= n < |p.subPlanes| ==> p.subPlanes[n] == CenterAt(p.dim, p.subPlaneSize, n)
    ensures WorldCenter(p, k + 1).x - WorldCenter(p, k).x == p.scale.x * p.subPlaneSize
    ensures WorldCenter(p, k + 1).y == WorldCenter(p, k).y
  {
    var d, s := p.dim, p.subPlaneSize;
    RowMajorSplit(d, k);
    var j, i := k / d.col, k % d.col;
    LemmaDivModUnique(k + 1, d.col, j, i + 1);
    CenterOffsets(d, s, j, i + 1, j, i);
    var a, b := CellCenter(d, s, j, i + 1), CellCenter(d, s, j, i);
    assert p.subPlanes[k + 1] == a && p.subPlanes[k] == b;
    assert p.scale.x * a.x - p.scale.x * b.x == p.scale.x * (a.x - b.x);
  }

  /**
   * In a plane built by the constructor's loops, the sub-plane one row up
   * (`col` indices further) lies one scaled edge higher, in the same column,
   * in world coordinates.
   */
  lemma WorldColumnSpacing(p: Plane, k: nat)
    requires k + p.dim.col < Count(p.dim)
    requires Valid(p)
    requires forall n :: 0 <= n < |p.subPlanes| ==> p.subPlanes[n] == CenterAt(p.dim, p.subPlaneSize, n)
    ensures WorldCenter(p, k + p.dim.col).y - WorldCenter(p, k).y == p.scale.y * p.subPlaneSize
    ensures WorldCenter(p, k + p.dim.col).x == WorldCenter(p, k).x
  {
    var d, s := p.dim, p.subPlaneSize;
    RowMajorSplit(d, k);
    var j, i := k / d.col, k % d.col;
    assert k + d.col == (j + 1) * d.col + i;
    LemmaDivModUnique(k + d.col, d.col, j + 1, i);
    CenterOffsets(d, s, j + 1, i, j, i);
    var a, b := CellCenter(d, s, j + 1, i), CellCenter(d, s, j, i);
    assert p.subPlanes[k + d.col] == a && p.subPlanes[k] == b;
    assert p.scale.y * a.y - p.scale.y * b.y == p.scale.y * (a.y - b.y);
  }

  /**
   * The binding a sub-plane receives from answer `d` when the manager's chunk
   * size is `chunkSize`: the answer is kept whole, so it obeys the slot
   * discipline exactly when the answer does.
   */
  function FromTextureData(d: TextureData, chunkSize: real): (b: Binding)
    ensures b.chunkSize == chunkSize
    ensures TextureData(b.nbChunks, b.textures, b.origins) == d
    ensures WellFormedBinding(b) <==> WellFormedData(d)
  {
    Binding(d.nbValid, d.textures, d.origins, chunkSize)
  }

  /**
   * `updateSubPlaneUniform(i, textureData)`: overwrites sub-plane `i`'s four
   * uniforms with the answer and the manager's current chunk size. It throws
   * before writing anything when no manager is attached or there is no
   * material `i`.
   */
  function UpdateSubPlaneUniform(p: Plane, i: int, d: TextureData): (r: Result<Plane, PlaneError>)
    ensures p.levelManager.None? <==> r == Failure(NoLevelManager)
    ensures p.levelManager.Some? && !(0 <= i < |p.bindings|) ==> r == Failure(NoSuchSubPlane(i))
    ensures p.levelManager.Some? && 0 <= i < |p.bindings| ==> r.Success?
    ensures r.Success? ==>
              && 0 <= i < |p.bindings| && p.levelManager.Some?
              && SameExceptBindings(r.value, p)
              && |r.value.bindings| == |p.bindings|
              && r.value.bindings[i].nbChunks == d.nbValid
              && r.value.bindings[i].textures == d.textures
              && r.value.bindings[i].origins == d.origins
              && r.value.bindings[i].chunkSize == p.levelManager.value.currentChunkSizeWc
              && forall k :: 0 <= k < |p.bindings| && k != i ==> r.value.bindings[k] == p.bindings[k]
  {
    match p.levelManager
    case None => Failure(NoLevelManager)
    case Some(lm) =>
      if 0 <= i < |p.bindings| then
        Success(p.(bindings := p.bindings[i := FromTextureData(d, lm.currentChunkSizeWc)]))
      else
        Failure(NoSuchSubPlane(i))
  }

  /** The plane once every sub-plane holds `lm`'s answer for its own world centre. */
  function Synchronized(p: Plane, lm: LevelManager): (r: Plane)
    requires Valid(p)
    ensures Valid(r) && SameExceptBindings(r, p)
    ensures forall k :: 0 <= k < |r.bindings| ==>
              r.bindings[k] == FromTextureData(lm.closest(WorldCenter(p, k)), lm.currentChunkSizeWc)
  {
    p.(bindings := seq(|p.subPlanes|, k requires 0 <= k < |p.subPlanes| =>
                         FromTextureData(lm.closest(WorldCenter(p, k)), lm.currentChunkSizeWc)))
  }

  /**
   * `updateUniforms`: for every index in order, query the manager at the
   * sub-plane's world centre and overwrite that sub-plane's binding.
   * `queries` lists the points the manager was asked about, in order.
   */
  method UpdateUniforms(p: Plane) returns (r: Result<Plane, PlaneError>, queries: seq<Vec3>)
    requires Valid(p)
    ensures Count(p.dim) == 0 ==> r == Success(p) && queries == []
    ensures Count(p.dim) > 0 && p.levelManager.None? ==> r == Failure(NoLevelManager) && queries == []
    ensures p.levelManager.Some? ==> r == Success(Synchronized(p, p.levelManager.value))
    ensures p.levelManager.Some? ==>
              |queries| == Count(p.dim) && forall k :: 0 <= k < |queries| ==> queries[k] == WorldCenter(p, k)
  {
    var n := Count(p.dim);
    var cur := p;
    queries := [];
    var i := 0;
    while i < n
      invariant 0 <= i <= n
      invariant Valid(cur) && SameExceptBindings(cur, p)
      invariant p.levelManager.None? ==> i == 0 && cur == p
      invariant forall k :: 0 <= k < i ==>
                  cur.bindings[k] == FromTextureData(p.levelManager.value.closest(WorldCenter(p, k)),
                                                     p.levelManager.value.currentChunkSizeWc)
      invariant forall k :: i <= k < n ==> cur.bindings[k] == p.bindings[k]
      invariant |queries| == i && forall k :: 0 <= k < i ==> queries[k] == WorldCenter(p, k)
    {
      var center := WorldCenter(cur, i);
      if cur.levelManager.None? {
        return Failure(NoLevelManager), [];
      }
      var data := cur.levelManager.value.closest(center);
      queries := queries + [center];
      var step := UpdateSubPlaneUniform(cur, i, data);
      cur := step.value;
      i := i + 1;
    }
    if p.levelManager.Some? {
      assert cur.bindings == Synchronized(p, p.levelManager.value).bindings;
    }
    r := Success(cur);
  }

  /** A second pass with the same pose and manager changes nothing. */
  lemma {:induction false} SynchronizeIdempotent(p: Plane, lm: LevelManager)
    requires Valid(p)
    ensures Synchronized(Synchronized(p, lm), lm) == Synchronized(p, lm)
  {
    var once := Synchronized(p, lm);
    assert Synchronized(once, lm).bindings == once.bindings by {
      forall k | 0 <= k < |once.bindings|
        ensures Synchronized(once, lm).bindings[k] == once.bindings[k]
      {
        assert WorldCenter(once, k) == WorldCenter(p, k);
      }
    }
  }

  /** Nothing of the previous bindings survives a pass: no stale chunk reference is kept. */
  lemma {:induction false} SynchronizeForgetsBindings(p: Plane, old_bindings: seq<Binding>, lm: LevelManager)
    requires Valid(p) && |old_bindings| == |p.bindings|
    ensures Synchronized(p.(bindings := old_bindings), lm) == Synchronized(p, lm)
  {
    var q := p.(bindings := old_bindings);
    assert Synchronized(q, lm).bindings == Synchronized(p, lm).bindings by {
      forall k | 0 <= k < |p.bindings|
        ensures Synchronized(q, lm).bindings[k] == Synchronized(p, lm).bindings[k]
      {
        assert WorldCenter(q, k) == WorldCenter(p, k);
      }
    }
  }

  /**
   * After a pass every sub-plane carries the manager's current chunk size, and
   * when the manager pads its answers every binding keeps the slot discipline.
   */
  lemma SynchronizedBindingsUniform(p: Plane, lm: LevelManager, k: nat)
    requires Valid(p) && k < Count(p.dim)
    ensures Synchronized(p, lm).bindings[k].chunkSize == lm.currentChunkSizeWc
    ensures PadsSlots(lm) ==> WellFormedBinding(Synchronized(p, lm).bindings[k])
  {
    if PadsSlots(lm) {
      assert WellFormedData(lm.closest(WorldCenter(p, k)));
    }
  }

  /** The placeholder binding keeps the slot discipline: zero chunks, eight fake slots. */
  lemma PlaceholderWellFormed()
    ensures WellFormedBinding(Placeholder)
    ensures Placeholder.nbChunks == 0
  {
  }

  // ---------------------------------------------------------------- scale

  /**
   * `updateScaleFromRezLvl(lvl)`: records the level and scales the plane by
   * `1 / 2^lvl` on all three axes; the world matrix is refreshed at once,
   * which here means that `WorldCenter` always reads the current scale.
   */
  function UpdateScaleFromRezLvl(p: Plane, lvl: int): (r: Plane)
    ensures r.resolutionLevel == lvl
    ensures r.scale.x == r.scale.y == r.scale.z
    ensures r.scale.x > 0.0 && r.scale.x * Pow2(lvl) == 1.0
    ensures r.subPlanes == p.subPlanes && r.bindings == p.bindings && r.dim == p.dim
    ensures r.levelManager == p.levelManager && r.position == p.position
    ensures r.subPlaneSize == p.subPlaneSize
  {
    p.(resolutionLevel := lvl, scale := Uniform(1.0 / Pow2(lvl)))
  }

  /** Right after a rescale each world centre is the local centre times `1/2^lvl`, moved by the pose. */
  lemma RescaledWorldCenter(p: Plane, lvl: int, k: nat)
    requires k < |p.subPlanes|
    ensures WorldCenter(UpdateScaleFromRezLvl(p, lvl), k)
            == Add(p.position, Times(1.0 / Pow2(lvl), p.subPlanes[k]))
  {
    StretchUniform(1.0 / Pow2(lvl), p.subPlanes[k]);
  }

  /** Each level up halves the scale; level 0 is scale 1. */
  lemma ScaleHalvesPerLevel(p: Plane, lvl: int)
    ensures UpdateScaleFromRezLvl(p, lvl + 1).scale.x * 2.0 == UpdateScaleFromRezLvl(p, lvl).scale.x
    ensures UpdateScaleFromRezLvl(p, 0).scale == Uniform(1.0)
  {
    Pow2Succ(lvl);
    var a, b := Pow2(lvl), Pow2(lvl + 1);
    assert (1.0 / b) * 2.0 == 1.0 / a;
  }

  /**
   * A rescale followed by a pass: every sub-plane of a freshly built plane is
   * bound to the manager's answer at its grid cell's centre scaled by `1/2^lvl`
   * and moved by the pose.
   */
  lemma RescaleThenSynchronize(p: Plane, lvl: int, lm: LevelManager, k: nat)
    requires Valid(p) && k < Count(p.dim)
    requires forall n :: 0 <= n < |p.subPlanes| ==> p.subPlanes[n] == CenterAt(p.dim, p.subPlaneSize, n)
    ensures Synchronized(UpdateScaleFromRezLvl(p, lvl), lm).bindings[k]
            == FromTextureData(lm.closest(Add(p.position, Times(1.0 / Pow2(lvl), CenterAt(p.dim, p.subPlaneSize, k)))),
                               lm.currentChunkSizeWc)
  {
    RescaledWorldCenter(p, lvl, k);
  }

  // ---------------------------------------------------------------- extent

  /** `sqrt(radicand) * factor`, kept symbolic because exact reals have no square root. */
  datatype ScaledRoot = ScaledRoot(radicand: real, factor: real) {
    /** The square of the value. */
    function Square(): real {
      radicand * factor * factor
    }
    /** The value is at least zero (a square root is never negative). */
    predicate NonNegative() {
      radicand >= 0.0 && factor >= 0.0
    }
    /** The value is at most zero (a real root times a non-positive factor). */
    predicate NonPositive() {
      radicand >= 0.0 && factor <= 0.0
    }
  }

  /** `getWorldDiagonal`: `sqrt(row^2 + col^2) * scale.x`. */
  function GetWorldDiagonal(p: Plane): (r: ScaledRoot)
    ensures r.radicand >= 0.0
    ensures r.Square() == ((p.dim.row * p.dim.row + p.dim.col * p.dim.col) as real) * p.scale.x * p.scale.x
    ensures p.scale.x >= 0.0 ==> r.NonNegative()
    ensures p.scale.x <= 0.0 ==> r.NonPositive()
  {
    ScaledRoot((p.dim.row * p.dim.row + p.dim.col * p.dim.col) as real, p.scale.x)
  }

  /** After `updateScaleFromRezLvl(lvl)` the diagonal is non-negative and its square is `(row^2 + col^2) / 4^lvl`. */
  lemma DiagonalAfterRescale(p: Plane, lvl: int)
    ensures GetWorldDiagonal(UpdateScaleFromRezLvl(p, lvl)).NonNegative()
    ensures GetWorldDiagonal(UpdateScaleFromRezLvl(p, lvl)).Square() * (Pow2(lvl) * Pow2(lvl))
            == (p.dim.row * p.dim.row + p.dim.col * p.dim.col) as real
  {
    var s := 1.0 / Pow2(lvl);
    var q := Pow2(lvl);
    var n := (p.dim.row * p.dim.row + p.dim.col * p.dim.col) as real;
    assert s * q == 1.0;
    assert n * s * s * (q * q) == n * (s * q) * (s * q);
  }

  /**
   * The grid's true world diagonal, squared: the rectangle is `col * size` by
   * `row * size` in local units, scaled uniformly by `scale.x`.
   */
  function RectangleDiagonalSquared(p: Plane): real {
    var w := (p.dim.col as real) * p.subPlaneSize * p.scale.x;
    var h := (p.dim.row as real) * p.subPlaneSize * p.scale.x;
    w * w + h * h
  }

  /** The returned extent counts rows and columns, not lengths: it misses the factor `subPlaneSize`. */
  lemma DiagonalIgnoresSubPlaneSize(p: Plane)
    ensures RectangleDiagonalSquared(p) == p.subPlaneSize * p.subPlaneSize * GetWorldDiagonal(p).Square()
  {
    var c, r, s, f := p.dim.col as real, p.dim.row as real, p.subPlaneSize, p.scale.x;
    assert (c * s * f) * (c * s * f) + (r * s * f) * (r * s * f) == s * s * ((r * r + c * c) * f * f);
    assert ((p.dim.row * p.dim.row + p.dim.col * p.dim.col) as real) == r * r + c * c;
  }
}
