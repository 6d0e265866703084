/**
 * Tiling geometry of a projection plane (src/ProjectionPlane.js): the plane is
 * a `row` x `col` grid of square sub-planes of edge `size`, stored row-major
 * and centred on the plane's local origin. Everything here is about local
 * coordinates, before the plane's scale and position are applied.
 */
module SubPlaneGrid {
  import opened Geometry

  /** Number of rows and columns of sub-planes. */
  datatype GridDim = GridDim(row: nat, col: nat)

  /** The dimensions every projection plane of the program is built with. */
  const PlaneDim: GridDim := GridDim(12, 22)

  function Count(d: GridDim): nat {
    d.row * d.col
  }

  /** Local position of the sub-plane in row `j`, column `i` (0-indexed). */
  function CellCenter(d: GridDim, size: real, j: int, i: int): Vec3 {
    Vec3(-(d.col as real) * size / 2.0 + (i as real) * size + size / 2.0,
         -(d.row as real) * size / 2.0 + (j as real) * size + size / 2.0,
         0.0)
  }

  /** Local position of the sub-plane stored at list index `k`. */
  function CenterAt(d: GridDim, size: real, k: nat): Vec3
    requires k < Count(d)
  {
    CellCenter(d, size, k / d.col, k % d.col)
  }

  function Abs(x: real): real {
    if x < 0.0 then -x else x
  }

  /** Left, right, bottom and top edges of the square of edge `size` around `c`. */
  function Left(c: Vec3, size: real): real { c.x - size / 2.0 }
  function Right(c: Vec3, size: real): real { c.x + size / 2.0 }
  function Bottom(c: Vec3, size: real): real { c.y - size / 2.0 }
  function Top(c: Vec3, size: real): real { c.y + size / 2.0 }

  /** `p` lies in the half-open square of edge `size` centred at `c` (the z coordinate is ignored). */
  predicate InSquare(c: Vec3, size: real, p: Vec3) {
    Left(c, size) <= p.x < Right(c, size) && Bottom(c, size) <= p.y < Top(c, size)
  }

  /** The open squares of edge `size` centred at `a` and `b` have a point in common. */
  predicate InteriorsMeet(a: Vec3, b: Vec3, size: real) {
    Abs(a.x - b.x) < size && Abs(a.y - b.y) < size
  }

  /** `p` lies in the half-open rectangle the whole grid is meant to cover. */
  predicate InPlane(d: GridDim, size: real, p: Vec3) {
    && -(d.col as real) * size / 2.0 <= p.x < (d.col as real) * size / 2.0
    && -(d.row as real) * size / 2.0 <= p.y < (d.row as real) * size / 2.0
  }

  /** Row-major storage: index `k` is row `k / col`, column `k % col`, and every cell has one index. */
  lemma RowMajorSplit(d: GridDim, k: nat)
    requires k < Count(d)
    ensures d.col > 0
    ensures k / d.col < d.row && k % d.col < d.col
    ensures k == (k / d.col) * d.col + k % d.col
  {
    if d.col == 0 {
      assert false;
    }
    var q := k / d.col;
    if q >= d.row {
      MulMonotone(d.row, q, d.col);
      assert false;
    }
  }

  lemma MulMonotone(a: int, b: int, m: nat)
    requires a <= b
    ensures a * m <= b * m
  {
    assert b * m - a * m == (b - a) * m;
  }

  /** Row `j`, column `i` is stored at index `j * col + i`, and that index maps back to (j, i). */
  lemma RowMajorIndex(d: GridDim, j: nat, i: nat)
    requires j < d.row && i < d.col
    ensures j * d.col + i < Count(d)
    ensures (j * d.col + i) / d.col == j && (j * d.col + i) % d.col == i
  {
    assert j * d.col + i < (j + 1) * d.col;
    assert (j + 1) * d.col <= d.row * d.col;
    LemmaDivModUnique(j * d.col + i, d.col, j, i);
  }

  /** The sub-plane stored at `j * col + i` is the one of row `j`, column `i`. */
  lemma CenterAtIndex(d: GridDim, size: real, j: nat, i: nat)
    requires j < d.row && i < d.col
    ensures j * d.col + i < Count(d)
    ensures CenterAt(d, size, j * d.col + i) == CellCenter(d, size, j, i)
  {
    RowMajorIndex(d, j, i);
  }

  lemma LemmaDivModUnique(n: int, m: nat, q: int, r: int)
    requires m > 0 && 0 <= r < m && n == q * m + r
    ensures n / m == q && n % m == r
  {
    var q', r' := n / m, n % m;
    assert q' * m - q * m == (q' - q) * m;
    if q' > q {
      MulMonotone(1, q' - q, m);
      assert false;
    } else if q' < q {
      MulMonotone(q' - q, -1, m);
      assert false;
    }
  }

  /** Horizontal and vertical distances between two cell centres are whole multiples of the edge. */
  lemma CenterOffsets(d: GridDim, size: real, j1: int, i1: int, j2: int, i2: int)
    ensures CellCenter(d, size, j1, i1).x - CellCenter(d, size, j2, i2).x == ((i1 - i2) as real) * size
    ensures CellCenter(d, size, j1, i1).y - CellCenter(d, size, j2, i2).y == ((j1 - j2) as real) * size
  {
    assert (i1 as real) * size - (i2 as real) * size == ((i1 - i2) as real) * size;
    assert (j1 as real) * size - (j2 as real) * size == ((j1 - j2) as real) * size;
  }

  /** The square to the right of a cell starts exactly where that cell ends, at the same height. */
  lemma AdjacentColumnsShareEdge(d: GridDim, size: real, j: int, i: int)
    ensures Right(CellCenter(d, size, j, i), size) == Left(CellCenter(d, size, j, i + 1), size)
    ensures Bottom(CellCenter(d, size, j, i), size) == Bottom(CellCenter(d, size, j, i + 1), size)
    ensures Top(CellCenter(d, size, j, i), size) == Top(CellCenter(d, size, j, i + 1), size)
  {
    CenterOffsets(d, size, j, i + 1, j, i);
  }

  /** The square above a cell starts exactly where that cell ends, in the same column. */
  lemma AdjacentRowsShareEdge(d: GridDim, size: real, j: int, i: int)
    ensures Top(CellCenter(d, size, j, i), size) == Bottom(CellCenter(d, size, j + 1, i), size)
    ensures Left(CellCenter(d, size, j, i), size) == Left(CellCenter(d, size, j + 1, i), size)
    ensures Right(CellCenter(d, size, j, i), size) == Right(CellCenter(d, size, j + 1, i), size)
  {
    CenterOffsets(d, size, j + 1, i, j, i);
  }

  /** The outermost squares reach exactly to `±col*size/2` horizontally and `±row*size/2` vertically. */
  lemma OuterEdges(d: GridDim, size: real, j: int, i: int)
    requires d.row > 0 && d.col > 0
    ensures Left(CellCenter(d, size, j, 0), size) == -(d.col as real) * size / 2.0
    ensures Right(CellCenter(d, size, j, d.col - 1), size) == (d.col as real) * size / 2.0
    ensures Bottom(CellCenter(d, size, 0, i), size) == -(d.row as real) * size / 2.0
    ensures Top(CellCenter(d, size, d.row - 1, i), size) == (d.row as real) * size / 2.0
  {
    assert ((d.col - 1) as real) * size == (d.col as real) * size - size;
    assert ((d.row - 1) as real) * size == (d.row as real) * size - size;
  }

  lemma NonZeroMultiple(n: int, size: real)
    requires n != 0 && size > 0.0
    ensures Abs((n as real) * size) >= size
  {
    if n > 0 {
      assert (n as real) * size == size + ((n - 1) as real) * size;
      assert ((n - 1) as real) * size >= 0.0;
    } else {
      assert -((n as real) * size) == size + ((-n - 1) as real) * size;
      assert ((-n - 1) as real) * size >= 0.0;
    }
  }

  /** Two cells at different grid coordinates have disjoint open squares. */
  lemma CellsApart(d: GridDim, size: real, j1: int, i1: int, j2: int, i2: int)
    requires size > 0.0
    requires j1 != j2 || i1 != i2
    ensures !InteriorsMeet(CellCenter(d, size, j1, i1), CellCenter(d, size, j2, i2), size)
  {
    var a, b := CellCenter(d, size, j1, i1), CellCenter(d, size, j2, i2);
    CenterOffsets(d, size, j1, i1, j2, i2);
    if i1 != i2 {
      NonZeroMultiple(i1 - i2, size);
      assert Abs(a.x - b.x) >= size;
    } else {
      NonZeroMultiple(j1 - j2, size);
      assert Abs(a.y - b.y) >= size;
    }
  }

  /** Two different sub-planes never overlap: their open squares are disjoint. */
  lemma {:induction false} NoOverlap(d: GridDim, size: real, k1: nat, k2: nat)
    requires size > 0.0
    requires k1 < Count(d) && k2 < Count(d) && k1 != k2
    ensures !InteriorsMeet(CenterAt(d, size, k1), CenterAt(d, size, k2), size)
  {
    RowMajorSplit(d, k1);
    RowMajorSplit(d, k2);
    CellsApart(d, size, k1 / d.col, k1 % d.col, k2 / d.col, k2 % d.col);
  }

  lemma MulLe(a: real, b: real, s: real)
    requires a <= b && s > 0.0
    ensures a * s <= b * s
  {
    assert (b - a) * s >= 0.0;
  }

  lemma MulLt(a: real, b: real, s: real)
    requires a < b && s > 0.0
    ensures a * s < b * s
  {
    assert (b - a) * s > 0.0;
  }

  /** The whole multiples of a positive edge that bracket `w = t * size`. */
  lemma FloorScaled(t: real, size: real, w: real)
    requires size > 0.0 && t * size == w
    ensures (t.Floor as real) * size <= w
    ensures w < (t.Floor as real) * size + size
  {
    var f := t.Floor as real;
    MulLe(f, t, size);
    assert f * size <= w;
    MulLt(t, f + 1.0, size);
    calc {
      w;
    ==
      t * size;
    <
      (f + 1.0) * size;
    ==
      f * size + size;
    }
  }

  /** The cell of edge `size` holding offset `w` of a strip of `n` cells starting at 0. */
  lemma FloorIndex(n: nat, size: real, w: real)
    requires size > 0.0 && 0.0 <= w < (n as real) * size
    ensures 0 <= (w / size).Floor < n
    ensures ((w / size).Floor as real) * size <= w < ((w / size).Floor as real) * size + size
  {
    var t := w / size;
    FloorScaled(t, size, w);
    var f := t.Floor;
    if f >= n {
      MulLe(n as real, f as real, size);
      assert false;
    }
    if f < 0 {
      MulLe(f as real + 1.0, 0.0, size);
      assert false;
    }
  }

  /** Column (or row) of the strip of `n` cells of edge `size`, starting at `-n*size/2`, that holds `v`. */
  function StripIndex(n: nat, size: real, v: real): (i: nat)
    requires size > 0.0
    requires -(n as real) * size / 2.0 <= v < (n as real) * size / 2.0
    ensures i < n
    ensures -(n as real) * size / 2.0 + (i as real) * size <= v
    ensures v < -(n as real) * size / 2.0 + (i as real) * size + size
  {
    var w := v + (n as real) * size / 2.0;
    FloorIndex(n, size, w);
    (w / size).Floor
  }

  /** The sub-plane whose square contains `p`: the grid covers its rectangle with no gap. */
  function CellOf(d: GridDim, size: real, p: Vec3): (k: nat)
    requires size > 0.0 && InPlane(d, size, p)
    ensures k < Count(d)
    ensures InSquare(CenterAt(d, size, k), size, p)
  {
    var i := StripIndex(d.col, size, p.x);
    var j := StripIndex(d.row, size, p.y);
    CenterAtIndex(d, size, j, i);
    InStripCells(d, size, p);
    j * d.col + i
  }

  /** The cell picked by the two strip indices of `p` contains `p`. */
  lemma InStripCells(d: GridDim, size: real, p: Vec3)
    requires size > 0.0 && InPlane(d, size, p)
    ensures InSquare(CellCenter(d, size, StripIndex(d.row, size, p.y), StripIndex(d.col, size, p.x)), size, p)
  {
    var i := StripIndex(d.col, size, p.x);
    var j := StripIndex(d.row, size, p.y);
    InCell(d, size, j, i, p);
  }

  /** A point between the edges of column `i` and of row `j` lies in cell (j, i). */
  lemma InCell(d: GridDim, size: real, j: nat, i: nat, p: Vec3)
    requires -(d.col as real) * size / 2.0 + (i as real) * size <= p.x
    requires p.x < -(d.col as real) * size / 2.0 + (i as real) * size + size
    requires -(d.row as real) * size / 2.0 + (j as real) * size <= p.y
    requires p.y < -(d.row as real) * size / 2.0 + (j as real) * size + size
    ensures InSquare(CellCenter(d, size, j, i), size, p)
  {
  }

  /** A coordinate inside cell `i` of a strip of `n` cells lies inside the strip. */
  lemma StripCellInside(n: nat, size: real, i: nat, v: real)
    requires size > 0.0 && i < n
    requires -(n as real) * size / 2.0 + (i as real) * size <= v
    requires v < -(n as real) * size / 2.0 + (i as real) * size + size
    ensures -(n as real) * size / 2.0 <= v < (n as real) * size / 2.0
  {
    MulLe(0.0, i as real, size);
    MulLe((i + 1) as real, n as real, size);
    assert ((i + 1) as real) * size == (i as real) * size + size;
  }

  /** Every point of a sub-plane's square lies in the plane's rectangle: no cell sticks out. */
  lemma CellInPlane(d: GridDim, size: real, k: nat, p: Vec3)
    requires size > 0.0 && k < Count(d) && InSquare(CenterAt(d, size, k), size, p)
    ensures InPlane(d, size, p)
  {
    RowMajorSplit(d, k);
    CellAtInPlane(d, size, k / d.col, k % d.col, p);
  }

  lemma CellAtInPlane(d: GridDim, size: real, j: nat, i: nat, p: Vec3)
    requires size > 0.0 && j < d.row && i < d.col && InSquare(CellCenter(d, size, j, i), size, p)
    ensures InPlane(d, size, p)
  {
    StripCellInside(d.col, size, i, p.x);
    StripCellInside(d.row, size, j, p.y);
  }

  /** Exactly one sub-plane contains each point of the plane's rectangle. */
  lemma {:induction false} UniqueCell(d: GridDim, size: real, p: Vec3, k: nat)
    requires size > 0.0 && InPlane(d, size, p)
    requires k < Count(d) && InSquare(CenterAt(d, size, k), size, p)
    ensures k == CellOf(d, size, p)
  {
    var k' := CellOf(d, size, p);
    if k != k' {
      NoOverlap(d, size, k, k');
      assert false;
    }
  }
}
