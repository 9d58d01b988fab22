/**
 * Mesh generation for a flat subdivided quadrilateral.
 *
 * `Line` lays `div + 1` evenly spaced points on a segment, `Plane` stacks
 * `div + 1` such lines between two opposite edges of a quadrilateral, and
 * `PlaneIndices` stitches the resulting `(div + 1) x (div + 1)` grid into a
 * triangle list of two triangles per cell. Vertex buffers are flat float
 * lists (x, y, z per point); index buffers list vertex numbers.
 */
module Geometry {
  import opened Vectors

  /** Largest value of the 32-bit signed `int` used for `div`, loop counters and indices. */
  const IntMax: int := 0x7fff_ffff

  // ---------------------------------------------------------------------------
  // Specification of the vertex buffers
  // ---------------------------------------------------------------------------

  /** The point `t` of the way from `a` to `b`: `a` at `t = 0`, `b` at `t = 1`. */
  function Lerp(a: Vec3, b: Vec3, t: real): Vec3 {
    Add(a, Scale(Sub(b, a), t))
  }

  /** The point stored as the `k`-th xyz triple of a flat float buffer. */
  function PointAt(s: seq<real>, k: nat): Vec3
    requires 3 * k + 2 < |s|
  {
    Vec3(s[3 * k], s[3 * k + 1], s[3 * k + 2])
  }

  /** `s` holds exactly the `div + 1` points `start + (j / div) * (end - start)`, j = 0 .. div, in order. */
  ghost predicate IsLine(s: seq<real>, start: Vec3, end: Vec3, div: int)
    requires 1 <= div
  {
    && |s| == 3 * (div + 1)
    && forall j :: 0 <= j <= div ==> PointAt(s, j) == Lerp(start, end, j as real / div as real)
  }

  /** Grid vertex (i, j): point j of the line that runs `i / div` of the way up the edges v0->v3 and v1->v2. */
  function GridVertex(v0: Vec3, v1: Vec3, v2: Vec3, v3: Vec3, div: int, i: int, j: int): Vec3
    requires 1 <= div
  {
    Lerp(Lerp(v0, v3, i as real / div as real), Lerp(v1, v2, i as real / div as real), j as real / div as real)
  }

  /**
   * `s` is the concatenation of the first `rows` lines of the grid: line i
   * runs from `Lerp(v0, v3, i / div)` to `Lerp(v1, v2, i / div)`.
   */
  ghost predicate PlaneRows(s: seq<real>, v0: Vec3, v1: Vec3, v2: Vec3, v3: Vec3, div: int, rows: nat)
    requires 1 <= div
    decreases rows
  {
    if rows == 0 then s == []
    else
      var n := 3 * (div + 1);
      var t := (rows - 1) as real / div as real;
      && |s| >= n
      && PlaneRows(s[..|s| - n], v0, v1, v2, v3, div, rows - 1)
      && IsLine(s[|s| - n..], Lerp(v0, v3, t), Lerp(v1, v2, t), div)
  }

  /** Number of grid vertex (i, j) in row-major order; also its position in the plane's buffer. */
  function VertexIndex(div: int, i: int, j: int): int {
    i * (div + 1) + j
  }

  /** The vertex of the plane buffer `s` at grid position (i, j). */
  ghost function GridPoint(s: seq<real>, div: int, i: int, j: int): Vec3
    requires 1 <= div && 0 <= i <= div && 0 <= j <= div
    requires |s| == 3 * (div + 1) * (div + 1)
  {
    VertexIndexBound(div, i, j);
    PointAt(s, VertexIndex(div, i, j))
  }

  // ---------------------------------------------------------------------------
  // Lemmas about the vertex specification
  // ---------------------------------------------------------------------------

  /** One step of the source's loop, `start + ((end - start) / div) * i`, is the interpolated point. */
  lemma StepIsLerp(a: Vec3, b: Vec3, d: real, i: real)
    requires d != 0.0
    ensures Add(a, Scale(DivScalar(Sub(b, a), d), i)) == Lerp(a, b, i / d)
  {
  }

  /** A line starts exactly at `start` and ends exactly at `end`. */
  lemma LineEndpoints(s: seq<real>, start: Vec3, end: Vec3, div: int)
    requires 1 <= div && IsLine(s, start, end, div)
    ensures PointAt(s, 0) == start
    ensures PointAt(s, div) == end
  {
    DivSelf(div as real);
    LerpEnds(start, end);
    assert PointAt(s, 0) == Lerp(start, end, 0 as real / div as real);
    assert PointAt(s, div) == Lerp(start, end, div as real / div as real);
  }

  lemma DivSelf(d: real)
    requires d != 0.0
    ensures 0.0 / d == 0.0 && d / d == 1.0
  {
  }

  /**
   * Row i of the grid starts at `v0 + (i / div) * (v3 - v0)` and ends at
   * `v1 + (i / div) * (v2 - v1)`; so row 0 runs v0 -> v1 and row div runs v3 -> v2.
   */
  lemma GridCorners(v0: Vec3, v1: Vec3, v2: Vec3, v3: Vec3, div: int, i: int)
    requires 1 <= div
    ensures GridVertex(v0, v1, v2, v3, div, i, 0) == Lerp(v0, v3, i as real / div as real)
    ensures GridVertex(v0, v1, v2, v3, div, i, div) == Lerp(v1, v2, i as real / div as real)
    ensures GridVertex(v0, v1, v2, v3, div, 0, 0) == v0
    ensures GridVertex(v0, v1, v2, v3, div, 0, div) == v1
    ensures GridVertex(v0, v1, v2, v3, div, div, div) == v2
    ensures GridVertex(v0, v1, v2, v3, div, div, 0) == v3
  {
    DivSelf(div as real);
    LerpEnds(v0, v3);
    LerpEnds(v1, v2);
    LerpEnds(Lerp(v0, v3, i as real / div as real), Lerp(v1, v2, i as real / div as real));
    LerpEnds(v0, v1);
    LerpEnds(v3, v2);
  }

  lemma LerpEnds(a: Vec3, b: Vec3)
    ensures Lerp(a, b, 0.0) == a && Lerp(a, b, 1.0) == b
  {
  }

  lemma VertexIndexBound(div: int, i: int, j: int)
    requires 0 <= i <= div && 0 <= j <= div
    ensures 0 <= VertexIndex(div, i, j) < (div + 1) * (div + 1)
  {
    assert i * (div + 1) <= div * (div + 1);
  }

  /** Distinct grid positions have distinct vertex numbers. */
  lemma VertexIndexInjective(div: int, i: int, j: int, i': int, j': int)
    requires 0 <= i <= div && 0 <= j <= div && 0 <= i' <= div && 0 <= j' <= div
    requires VertexIndex(div, i, j) == VertexIndex(div, i', j')
    ensures i == i' && j == j'
  {
    if i < i' {
      RowOrder(div, i, j, i', j');
    } else if i' < i {
      RowOrder(div, i', j', i, j);
    }
  }

  /** Every vertex of an earlier row has a smaller number than every vertex of a later row. */
  lemma RowOrder(div: int, i: int, j: int, i': int, j': int)
    requires 0 <= i < i' && 0 <= j <= div && 0 <= j'
    ensures VertexIndex(div, i, j) < VertexIndex(div, i', j')
  {
    assert (i + 1) * (div + 1) <= i' * (div + 1);
  }

  /** A buffer of `rows` grid lines holds `3 * (div + 1) * rows` floats. */
  lemma {:induction false} PlaneRowsLength(s: seq<real>, v0: Vec3, v1: Vec3, v2: Vec3, v3: Vec3, div: int, rows: nat)
    requires 1 <= div && PlaneRows(s, v0, v1, v2, v3, div, rows)
    ensures |s| == 3 * (div + 1) * rows
    decreases rows
  {
    if rows > 0 {
      PlaneRowsLength(s[..|s| - 3 * (div + 1)], v0, v1, v2, v3, div, rows - 1);
    }
  }

  /** In a buffer of `rows` grid lines, vertex (i, j) sits at position `VertexIndex(div, i, j)`. */
  lemma {:induction false} PlaneRowsPoint(s: seq<real>, v0: Vec3, v1: Vec3, v2: Vec3, v3: Vec3, div: int, rows: nat, i: int, j: int)
    requires 1 <= div && PlaneRows(s, v0, v1, v2, v3, div, rows)
    requires 0 <= i < rows && 0 <= j <= div
    ensures 3 * VertexIndex(div, i, j) + 2 < |s|
    ensures PointAt(s, VertexIndex(div, i, j)) == GridVertex(v0, v1, v2, v3, div, i, j)
    decreases rows
  {
    var n := 3 * (div + 1);
    var prefix := s[..|s| - n];
    PlaneRowsLength(prefix, v0, v1, v2, v3, div, rows - 1);
    RowStart(div, rows - 1, |prefix|);
    if i == rows - 1 {
      var row := s[|s| - n..];
      assert PointAt(row, j) == GridVertex(v0, v1, v2, v3, div, i, j);
      PointAtSuffix(s, i * (div + 1), j);
    } else {
      PlaneRowsPoint(prefix, v0, v1, v2, v3, div, rows - 1, i, j);
      PointAtPrefix(s, |prefix|, VertexIndex(div, i, j));
    }
  }

  /** Row `i` of the grid starts at float `3 * i * (div + 1)` of the buffer. */
  lemma RowStart(div: int, i: int, len: int)
    requires len == 3 * (div + 1) * i
    ensures len == 3 * (i * (div + 1))
  {
  }

  /** Dropping the first `m` triples of a buffer shifts point numbers down by `m`. */
  lemma PointAtSuffix(s: seq<real>, m: nat, k: nat)
    requires 3 * m + 3 * k + 2 < |s|
    ensures PointAt(s[3 * m..], k) == PointAt(s, m + k)
  {
  }

  /** A prefix of a buffer keeps the points it contains. */
  lemma PointAtPrefix(s: seq<real>, cut: int, k: nat)
    requires 3 * k + 2 < cut <= |s|
    ensures PointAt(s[..cut], k) == PointAt(s, k)
  {
  }

  /** Appending the line of row `i` to a buffer of rows 0 .. i - 1 gives a buffer of rows 0 .. i. */
  lemma AppendRow(before: seq<real>, line: seq<real>, v0: Vec3, v1: Vec3, v2: Vec3, v3: Vec3, div: int, i: nat)
    requires 1 <= div && PlaneRows(before, v0, v1, v2, v3, div, i)
    requires IsLine(line, Lerp(v0, v3, i as real / div as real), Lerp(v1, v2, i as real / div as real), div)
    ensures PlaneRows(before + line, v0, v1, v2, v3, div, i + 1)
  {
    var s := before + line;
    assert s[..|s| - |line|] == before;
    assert s[|s| - |line|..] == line;
  }

  // ---------------------------------------------------------------------------
  // Vertex generators
  // ---------------------------------------------------------------------------

  /**
   * `div + 1` evenly spaced points from `start` to `end`, appended one xyz
   * triple at a time.
   */
  method Line(start: Vec3, end: Vec3, div: int) returns (vertices: seq<real>)
    requires 1 <= div && 3 * div <= IntMax
    ensures IsLine(vertices, start, end, div)
  {
    var direction := DivScalar(Sub(end, start), div as real);
    vertices := [];
    var i := 0;
    while i <= div
      invariant 0 <= i <= div + 1
      invariant |vertices| == 3 * i
      invariant forall k :: 0 <= k < i ==> PointAt(vertices, k) == Lerp(start, end, k as real / div as real)
    {
      var current := Add(start, Scale(direction, i as real));
      StepIsLerp(start, end, div as real, i as real);
      ghost var before := vertices;
      vertices := vertices + [current.x, current.y, current.z];
      assert PointAt(vertices, i) == current;
      assert forall k :: 0 <= k < i ==> PointAt(vertices, k) == PointAt(before, k);
      i := i + 1;
    }
  }

  /**
   * The `(div + 1) x (div + 1)` grid spanning the quadrilateral v0 v1 v2 v3
   * (v0 -> v1 along the bottom, v3 -> v2 along the top): line i runs from
   * `v0 + i * (v3 - v0) / div` to `v1 + i * (v2 - v1) / div`, and the lines
   * are appended float by float in order of i.
   */
  method Plane(v0: Vec3, v1: Vec3, v2: Vec3, v3: Vec3, div: int) returns (vertices: seq<real>)
    requires 1 <= div && 3 * div <= IntMax
    ensures |vertices| == 3 * (div + 1) * (div + 1)
    ensures forall i, j :: 0 <= i <= div && 0 <= j <= div ==>
      GridPoint(vertices, div, i, j) == GridVertex(v0, v1, v2, v3, div, i, j)
  {
    vertices := [];
    var basisX := DivScalar(Sub(v3, v0), div as real);
    var basisY := DivScalar(Sub(v2, v1), div as real);
    var i := 0;
    while i <= div
      invariant 0 <= i <= div + 1
      invariant PlaneRows(vertices, v0, v1, v2, v3, div, i)
    {
      var start := Add(v0, Scale(basisX, i as real));
      var end := Add(v1, Scale(basisY, i as real));
      StepIsLerp(v0, v3, div as real, i as real);
      StepIsLerp(v1, v2, div as real, i as real);
      var line := Line(start, end, div);
      ghost var before := vertices;
      var m := 0;
      while m < |line|
        invariant 0 <= m <= |line|
        invariant vertices == before + line[..m]
      {
        vertices := vertices + [line[m]];
        m := m + 1;
      }
      assert line[..m] == line;
      AppendRow(before, line, v0, v1, v2, v3, div, i);
      i := i + 1;
    }
    PlaneRowsLength(vertices, v0, v1, v2, v3, div, div + 1);
    forall i, j | 0 <= i <= div && 0 <= j <= div
      ensures GridPoint(vertices, div, i, j) == GridVertex(v0, v1, v2, v3, div, i, j)
    {
      PlaneRowsPoint(vertices, v0, v1, v2, v3, div, div + 1, i, j);
    }
  }

  // ---------------------------------------------------------------------------
  // Specification of the index buffer
  // ---------------------------------------------------------------------------

  /**
   * The six indices of grid cell (i, j): the upper-left triangle
   * (i, j) (i+1, j+1) (i+1, j), then the lower-right triangle
   * (i, j) (i, j+1) (i+1, j+1).
   */
  function Cell(div: int, i: int, j: int): seq<int> {
    [ VertexIndex(div, i, j), VertexIndex(div, i + 1, j + 1), VertexIndex(div, i + 1, j),
      VertexIndex(div, i, j), VertexIndex(div, i, j + 1), VertexIndex(div, i + 1, j + 1) ]
  }

  /** The cells (i, 0) .. (i, cols - 1), in order of j. */
  function RowCells(div: int, i: int, cols: nat): seq<int>
    decreases cols
  {
    if cols == 0 then [] else RowCells(div, i, cols - 1) + Cell(div, i, cols - 1)
  }

  /** The cells of rows 0 .. rows - 1, row after row (row-major order). */
  function CellRows(div: nat, rows: nat): seq<int>
    decreases rows
  {
    if rows == 0 then [] else CellRows(div, rows - 1) + RowCells(div, rows - 1, div)
  }

  /** The whole index buffer for a grid of `div x div` cells. */
  function PlaneIndexList(div: nat): seq<int> {
    CellRows(div, div)
  }

  /** The six indices of cell (i, j) read back from an index buffer. */
  ghost function CellAt(s: seq<int>, div: int, i: int, j: int): seq<int>
    requires 0 <= i < div && 0 <= j < div && |s| == 6 * div * div
  {
    CellSlotBound(div, i, j);
    s[6 * (i * div + j) .. 6 * (i * div + j) + 6]
  }

  // ---------------------------------------------------------------------------
  // Lemmas about the index specification
  // ---------------------------------------------------------------------------

  lemma CellSlotBound(div: int, i: int, j: int)
    requires 0 <= i < div && 0 <= j < div
    ensures 0 <= i * div + j && 6 * (i * div + j) + 6 <= 6 * div * div
  {
    assert (i + 1) * div <= div * div;
  }

  /**
   * The corners of cell (i, j) are exactly the source's arithmetic on
   * `idx = i * (div + 1) + j`: idx, idx+div+2, idx+div+1, idx, idx+1, idx+div+2.
   */
  lemma CellPattern(div: int, i: int, j: int)
    ensures var idx := i * (div + 1) + j;
      Cell(div, i, j) == [idx, idx + div + 1 + 1, idx + div + 1, idx, idx + 1, idx + div + 1 + 1]
  {
    assert VertexIndex(div, i + 1, j + 1) == i * (div + 1) + j + div + 2;
    assert VertexIndex(div, i + 1, j) == i * (div + 1) + j + div + 1;
  }

  /** Both triangles of a cell are non-degenerate: their three corners are distinct vertices. */
  lemma CellTrianglesDistinct(div: int, i: int, j: int)
    requires 0 <= i < div && 0 <= j < div
    ensures var c := Cell(div, i, j);
      && c[0] != c[1] && c[1] != c[2] && c[0] != c[2]
      && c[3] != c[4] && c[4] != c[5] && c[3] != c[5]
  {
    Distinct(div, i, j, i + 1, j + 1);
    Distinct(div, i, j, i + 1, j);
    Distinct(div, i + 1, j + 1, i + 1, j);
    Distinct(div, i, j, i, j + 1);
    Distinct(div, i, j + 1, i + 1, j + 1);
  }

  lemma Distinct(div: int, i: int, j: int, i': int, j': int)
    requires 0 <= i <= div && 0 <= j <= div && 0 <= i' <= div && 0 <= j' <= div
    requires i != i' || j != j'
    ensures VertexIndex(div, i, j) != VertexIndex(div, i', j')
  {
    if VertexIndex(div, i, j) == VertexIndex(div, i', j') {
      VertexIndexInjective(div, i, j, i', j');
    }
  }

  /** Every corner of a cell inside the grid is a vertex of the grid. */
  lemma CellInBounds(div: int, i: int, j: int)
    requires 0 <= i < div && 0 <= j < div
    ensures forall k :: 0 <= k < |Cell(div, i, j)| ==> 0 <= Cell(div, i, j)[k] < (div + 1) * (div + 1)
  {
    VertexIndexBound(div, i, j);
    VertexIndexBound(div, i + 1, j + 1);
    VertexIndexBound(div, i + 1, j);
    VertexIndexBound(div, i, j + 1);
  }

  lemma {:induction false} RowCellsLength(div: int, i: int, cols: nat)
    ensures |RowCells(div, i, cols)| == 6 * cols
    decreases cols
  {
    if cols > 0 {
      RowCellsLength(div, i, cols - 1);
    }
  }

  lemma {:induction false} CellRowsLength(div: nat, rows: nat)
    ensures |CellRows(div, rows)| == 6 * div * rows
    decreases rows
  {
    if rows > 0 {
      CellRowsLength(div, rows - 1);
      RowCellsLength(div, rows - 1, div);
      MulStep(6 * div, rows);
    }
  }

  lemma MulStep(w: int, r: int)
    ensures w * (r - 1) + w == w * r
  {
  }

  lemma {:induction false} RowCellsAt(div: int, i: int, cols: nat, j: int)
    requires 0 <= j < cols
    ensures 6 * j + 6 <= |RowCells(div, i, cols)|
    ensures RowCells(div, i, cols)[6 * j .. 6 * j + 6] == Cell(div, i, j)
    decreases cols
  {
    var prefix := RowCells(div, i, cols - 1);
    assert RowCells(div, i, cols) == prefix + Cell(div, i, cols - 1);
    RowCellsLength(div, i, cols - 1);
    if j < cols - 1 {
      RowCellsAt(div, i, cols - 1, j);
      SliceLeft(prefix, Cell(div, i, cols - 1), 6 * j, 6 * j + 6);
    } else {
      SliceRight(prefix, Cell(div, i, cols - 1), 6 * j, 6 * j + 6);
    }
  }

  /** Cell (i, j) occupies positions `6 * (i * div + j) .. + 5`: cells are emitted row-major. */
  lemma {:induction false} CellRowsAt(div: nat, rows: nat, i: int, j: int)
    requires 0 <= i < rows && 0 <= j < div
    ensures 6 * (i * div + j) + 6 <= |CellRows(div, rows)|
    ensures CellRows(div, rows)[6 * (i * div + j) .. 6 * (i * div + j) + 6] == Cell(div, i, j)
    decreases rows
  {
    if i == rows - 1 {
      CellInLastRow(div, rows, j);
    } else {
      CellRowsAt(div, rows - 1, i, j);
      CellInEarlierRow(div, rows, i, j);
    }
  }

  lemma CellInLastRow(div: nat, rows: nat, j: int)
    requires 0 < rows && 0 <= j < div
    ensures var off := 6 * ((rows - 1) * div + j);
      && off + 6 <= |CellRows(div, rows)|
      && CellRows(div, rows)[off .. off + 6] == Cell(div, rows - 1, j)
  {
    var prefix := CellRows(div, rows - 1);
    var last := RowCells(div, rows - 1, div);
    assert CellRows(div, rows) == prefix + last;
    CellRowsLength(div, rows - 1);
    RowCellsLength(div, rows - 1, div);
    var off := 6 * ((rows - 1) * div + j);
    LastRowOffset(div, rows - 1, j, |prefix|);
    assert off == |prefix| + 6 * j;
    RowCellsAt(div, rows - 1, div, j);
    SliceRight(prefix, last, off, off + 6);
  }

  lemma CellInEarlierRow(div: nat, rows: nat, i: int, j: int)
    requires 0 <= i < rows - 1 && 0 <= j < div
    requires var off := 6 * (i * div + j);
      && off + 6 <= |CellRows(div, rows - 1)|
      && CellRows(div, rows - 1)[off .. off + 6] == Cell(div, i, j)
    ensures var off := 6 * (i * div + j);
      && off + 6 <= |CellRows(div, rows)|
      && CellRows(div, rows)[off .. off + 6] == Cell(div, i, j)
  {
    var prefix := CellRows(div, rows - 1);
    var last := RowCells(div, rows - 1, div);
    var off := 6 * (i * div + j);
    SliceLeft(prefix, last, off, off + 6);
  }

  lemma LastRowOffset(div: int, i: int, j: int, len: int)
    requires len == 6 * div * i
    ensures 6 * (i * div + j) == len + 6 * j
  {
  }

  lemma SliceLeft(a: seq<int>, b: seq<int>, lo: int, hi: int)
    requires 0 <= lo <= hi <= |a|
    ensures (a + b)[lo..hi] == a[lo..hi]
  {
  }

  lemma SliceRight(a: seq<int>, b: seq<int>, lo: int, hi: int)
    requires |a| <= lo <= hi <= |a| + |b|
    ensures (a + b)[lo..hi] == b[lo - |a|..hi - |a|]
  {
  }

  lemma {:induction false} RowCellsInBounds(div: int, i: int, cols: nat)
    requires 0 <= i < div && cols <= div
    ensures forall k :: 0 <= k < |RowCells(div, i, cols)| ==> 0 <= RowCells(div, i, cols)[k] < (div + 1) * (div + 1)
    decreases cols
  {
    if cols > 0 {
      RowCellsInBounds(div, i, cols - 1);
      CellInBounds(div, i, cols - 1);
    }
  }

  lemma {:induction false} CellRowsInBounds(div: nat, rows: nat)
    requires rows <= div
    ensures forall k :: 0 <= k < |CellRows(div, rows)| ==> 0 <= CellRows(div, rows)[k] < (div + 1) * (div + 1)
    decreases rows
  {
    if rows > 0 {
      CellRowsInBounds(div, rows - 1);
      RowCellsInBounds(div, rows - 1, div);
    }
  }

  /** The largest vertex number of the grid, `(div + 1)^2 - 1`, is the last index emitted. */
  lemma MaxIndexIsLast(div: nat)
    requires 1 <= div
    ensures |PlaneIndexList(div)| == 6 * div * div
    ensures PlaneIndexList(div)[6 * div * div - 1] == (div + 1) * (div + 1) - 1
  {
    CellRowsLength(div, div);
    CellRowsAt(div, div, div - 1, div - 1);
    var start := 6 * ((div - 1) * div + div - 1);
    assert start + 5 == 6 * div * div - 1;
    assert PlaneIndexList(div)[start + 5] == Cell(div, div - 1, div - 1)[5];
  }

  /** For one subdivision the buffer is the two triangles (0, 3, 2) and (0, 1, 3). */
  lemma SingleCellIndices()
    ensures PlaneIndexList(1) == [0, 3, 2, 0, 1, 3]
  {
    assert RowCells(1, 0, 1) == Cell(1, 0, 0);
  }

  // ---------------------------------------------------------------------------
  // Index generator
  // ---------------------------------------------------------------------------

  /**
   * Two triangles per grid cell, cells visited row by row (i outer, j inner),
   * each index computed from `index = i * (div + 1) + j` in 32-bit `int`.
   * With `div == 0` there are no cells and the buffer is empty.
   */
  method PlaneIndices(div: int) returns (indices: seq<int>)
    requires 0 <= div && (div + 1) * (div + 1) - 1 <= IntMax
    ensures indices == PlaneIndexList(div)
    ensures |indices| == 6 * div * div
    ensures forall k :: 0 <= k < |indices| ==> 0 <= indices[k] < (div + 1) * (div + 1)
    ensures forall i, j :: 0 <= i < div && 0 <= j < div ==> CellAt(indices, div, i, j) == Cell(div, i, j)
  {
    indices := [];
    var i := 0;
    while i < div
      invariant 0 <= i <= div
      invariant indices == CellRows(div, i)
    {
      var j := 0;
      while j < div
        invariant 0 <= j <= div
        invariant indices == CellRows(div, i) + RowCells(div, i, j)
      {
        var index := i * (div + 1) + j;
        VertexIndexBound(div, i + 1, j + 1);
        assert index + div + 1 + 1 <= IntMax;
        CellPattern(div, i, j);
        indices := indices + [index, index + div + 1 + 1, index + div + 1, index, index + 1, index + div + 1 + 1];
        j := j + 1;
      }
      i := i + 1;
    }
    CellRowsLength(div, div);
    CellRowsInBounds(div, div);
    forall i, j | 0 <= i < div && 0 <= j < div
      ensures CellAt(indices, div, i, j) == Cell(div, i, j)
    {
      CellRowsAt(div, div, i, j);
    }
  }

  // ---------------------------------------------------------------------------
  // The renderer's mesh
  // ---------------------------------------------------------------------------

  /**
   * A vertex buffer and an index buffer built with the same `div`, as the
   * renderer builds them before upload: every index names a vertex whose xyz
   * triple lies inside the vertex buffer, and the grid's corners are the
   * quadrilateral's corners.
   */
  method PlaneMesh(v0: Vec3, v1: Vec3, v2: Vec3, v3: Vec3, div: int) returns (vertices: seq<real>, indices: seq<int>)
    requires 1 <= div && 3 * div <= IntMax && (div + 1) * (div + 1) - 1 <= IntMax
    ensures |vertices| == 3 * (div + 1) * (div + 1) && |indices| == 6 * div * div
    ensures forall k :: 0 <= k < |indices| ==> 0 <= indices[k] && 3 * indices[k] + 2 < |vertices|
    ensures GridPoint(vertices, div, 0, 0) == v0 && GridPoint(vertices, div, 0, div) == v1
    ensures GridPoint(vertices, div, div, div) == v2 && GridPoint(vertices, div, div, 0) == v3
  {
    vertices := Plane(v0, v1, v2, v3, div);
    indices := PlaneIndices(div);
    PlaneCorners(vertices, v0, v1, v2, v3, div);
    ghost var n := (div + 1) * (div + 1);
    TripleSize(div + 1, n, |vertices|);
    IndicesAddressVertices(indices, n, vertices);
  }

  /** A buffer holding the grid of v0 v1 v2 v3 has those four points at its corners. */
  lemma PlaneCorners(s: seq<real>, v0: Vec3, v1: Vec3, v2: Vec3, v3: Vec3, div: int)
    requires 1 <= div && |s| == 3 * (div + 1) * (div + 1)
    requires forall i, j :: 0 <= i <= div && 0 <= j <= div ==>
      GridPoint(s, div, i, j) == GridVertex(v0, v1, v2, v3, div, i, j)
    ensures GridPoint(s, div, 0, 0) == v0 && GridPoint(s, div, 0, div) == v1
    ensures GridPoint(s, div, div, div) == v2 && GridPoint(s, div, div, 0) == v3
  {
    GridCorners(v0, v1, v2, v3, div, 0);
    assert GridPoint(s, div, 0, 0) == GridVertex(v0, v1, v2, v3, div, 0, 0);
    assert GridPoint(s, div, 0, div) == GridVertex(v0, v1, v2, v3, div, 0, div);
    assert GridPoint(s, div, div, div) == GridVertex(v0, v1, v2, v3, div, div, div);
    assert GridPoint(s, div, div, 0) == GridVertex(v0, v1, v2, v3, div, div, 0);
  }

  lemma TripleSize(m: int, n: int, len: int)
    requires n == m * m && len == 3 * m * m
    ensures len == 3 * n
  {
  }

  /** Indices below `n` address xyz triples inside a buffer of `3 * n` floats. */
  lemma IndicesAddressVertices(indices: seq<int>, n: int, vertices: seq<real>)
    requires |vertices| == 3 * n
    requires forall k :: 0 <= k < |indices| ==> 0 <= indices[k] < n
    ensures forall k :: 0 <= k < |indices| ==> 0 <= indices[k] && 3 * indices[k] + 2 < |vertices|
  {
  }
}
