/** The mesh builder of the chunk pipeline: a duplicated-vertex grid in which
    every quad owns four vertex slots of its own.

    A chunk of side `size` has `size * size` quads. Vertex slots form a
    `2 * size` by `2 * size` row-major grid (`vertexSize = 2 * size`); quad
    `(qx, qy)` owns the 2x2 block of slots whose top-left slot is
    `QuadBase(size, qx, qy) = (2 * qy) * vertexSize + 2 * qx`. The triangle
    index table and the UV table depend on `size` only and are computed once,
    by the constructor; `Generate` fills only a fresh vertex array. */
module MeshGeneration {
  import opened Arith
  import opened Unity

  /** Vertex heights are the height map's samples times this constant. */
  const HeightScale: real := 100.0

  function VertexCount(size: nat): nat { size * size * 4 }

  function TriangleCount(size: nat): nat { size * size * 6 }

  /** Corner `(dx, dz)` (each 0 or 1) of quad `(qx, qy)`. */
  datatype QuadCorner = QuadCorner(qx: nat, qy: nat, dx: nat, dz: nat)

  predicate ValidCorner(size: nat, c: QuadCorner)
  {
    c.qx < size && c.qy < size && c.dx < 2 && c.dz < 2
  }

  /** Grid position of a corner: the vertex's X and Z. */
  function CornerX(c: QuadCorner): nat { c.qx + c.dx }

  function CornerZ(c: QuadCorner): nat { c.qy + c.dz }

  /** First slot of quad `(qx, qy)`: the `vertexID` cursor of `Generate` and
      the `currentVertex` of the triangle loop. */
  function QuadBase(size: nat, qx: nat, qy: nat): nat
  {
    (2 * qy) * (2 * size) + 2 * qx
  }

  /** Slot row and slot column of a corner in the `2 * size` by `2 * size`
      slot grid. */
  function SlotRow(c: QuadCorner): nat { 2 * c.qy + c.dz }

  function SlotCol(c: QuadCorner): nat { 2 * c.qx + c.dx }

  /** The slot a corner of a quad is stored in. */
  function Slot(size: nat, c: QuadCorner): nat
  {
    SlotRow(c) * (2 * size) + SlotCol(c)
  }

  /** The quad corner stored in slot `k`. */
  function Owner(size: nat, k: nat): QuadCorner
    requires size > 0
  {
    DivModBounds(k, 2 * size);
    var row, col := k / (2 * size), k % (2 * size);
    QuadCorner(col / 2, row / 2, col % 2, row % 2)
  }

  /** Every corner of every quad has a slot of the vertex array, and the slot
      determines the corner: no two corners share a slot. */
  lemma SlotOwner(size: nat, c: QuadCorner)
    requires ValidCorner(size, c)
    ensures Slot(size, c) < VertexCount(size)
    ensures Owner(size, Slot(size, c)) == c
  {
    var vs := 2 * size;
    var row, col := SlotRow(c), SlotCol(c);
    DoubleSquare(size);
    RowMajorBound(vs, vs, row, col);
    RowMajorDecode(vs, row, col);
    RowMajorDecode(2, c.qy, c.dz);
    RowMajorDecode(2, c.qx, c.dx);
  }

  /** Every slot of the vertex array belongs to one corner of one quad. */
  lemma OwnerSlot(size: nat, k: nat)
    requires k < VertexCount(size)
    ensures size > 0 && ValidCorner(size, Owner(size, k))
    ensures Slot(size, Owner(size, k)) == k
  {
    var vs := 2 * size;
    DoubleSquare(size);
    RowMajorEncode(vs, vs, k);
    DivModBounds(k, vs);
    var row, col := k / vs, k % vs;
    DivModBounds(row, 2);
    DivModBounds(col, 2);
    var c := Owner(size, k);
    assert SlotRow(c) == row && SlotCol(c) == col;
  }

  lemma SlotInjective(size: nat, c: QuadCorner, d: QuadCorner)
    requires ValidCorner(size, c) && ValidCorner(size, d) && c != d
    ensures Slot(size, c) != Slot(size, d)
  {
    SlotOwner(size, c);
    SlotOwner(size, d);
  }

  // ---------------------------------------------------------------------
  // Triangle indices

  /** The six index entries of the quad whose first slot is `v`: the
      triangles `(v, v+vs+1, v+1)` and `(v, v+vs, v+vs+1)`. */
  function QuadTriangles(v: int, vs: int): seq<int>
  {
    [v, v + vs + 1, v + 1, v, v + vs, v + vs + 1]
  }

  /** The entries of the first `n` quads of the quad row whose first slot is
      `rowStart`; consecutive quads of a row start two slots apart. */
  function TriangleRow(vs: int, rowStart: int, n: nat): seq<int>
  {
    if n == 0 then [] else TriangleRow(vs, rowStart, n - 1) + QuadTriangles(rowStart + 2 * (n - 1), vs)
  }

  /** The entries of the first `m` quad rows. */
  function TriangleRows(size: nat, m: nat): seq<int>
  {
    if m == 0 then [] else TriangleRows(size, m - 1) + TriangleRow(2 * size, QuadBase(size, 0, m - 1), size)
  }

  /** The triangle index table: quads in row-major order, six entries each. */
  function TriangleTable(size: nat): seq<int>
  {
    TriangleRows(size, size)
  }

  lemma {:induction false} TriangleRowLength(vs: int, rowStart: int, n: nat)
    ensures |TriangleRow(vs, rowStart, n)| == 6 * n
  {
    if n > 0 {
      TriangleRowLength(vs, rowStart, n - 1);
    }
  }

  lemma {:induction false} TriangleRowsLength(size: nat, m: nat)
    ensures |TriangleRows(size, m)| == 6 * (m * size)
  {
    if m > 0 {
      TriangleRowsLength(size, m - 1);
      TriangleRowLength(2 * size, QuadBase(size, 0, m - 1), size);
      NextRow(m - 1, size);
    }
  }

  lemma {:induction false} TriangleRowAt(vs: int, rowStart: int, n: nat, qx: nat, c: nat)
    requires qx < n && c < 6
    ensures qx * 6 + c < |TriangleRow(vs, rowStart, n)|
    ensures TriangleRow(vs, rowStart, n)[qx * 6 + c] == QuadTriangles(rowStart + 2 * qx, vs)[c]
  {
    TriangleRowLength(vs, rowStart, n - 1);
    if qx < n - 1 {
      TriangleRowAt(vs, rowStart, n - 1, qx, c);
    }
  }

  lemma {:induction false} TriangleRowsAt(size: nat, m: nat, qx: nat, qy: nat, c: nat)
    requires qx < size && qy < m && c < 6
    ensures (qy * size + qx) * 6 + c < |TriangleRows(size, m)|
    ensures TriangleRows(size, m)[(qy * size + qx) * 6 + c] == QuadTriangles(QuadBase(size, qx, qy), 2 * size)[c]
  {
    TriangleRowsLength(size, m - 1);
    if qy < m - 1 {
      TriangleRowsAt(size, m - 1, qx, qy, c);
    } else {
      TriangleRowAt(2 * size, QuadBase(size, 0, qy), size, qx, c);
    }
  }

  /** The table has `size * size * 6` entries, and quad `(qx, qy)`, quad
      number `qy * size + qx`, owns entries `6q .. 6q+5`, which index its
      own first slot and the slots next to and below it. */
  lemma QuadTrianglesAt(size: nat, qx: nat, qy: nat, c: nat)
    requires qx < size && qy < size && c < 6
    ensures |TriangleTable(size)| == TriangleCount(size)
    ensures (qy * size + qx) * 6 + c < TriangleCount(size)
    ensures TriangleTable(size)[(qy * size + qx) * 6 + c] == QuadTriangles(QuadBase(size, qx, qy), 2 * size)[c]
  {
    TriangleRowsLength(size, size);
    TriangleRowsAt(size, size, qx, qy, c);
  }

  /** Even slot row `y = 2 * qy` starts at the first slot of quad `(0, qy)`. */
  lemma RowStart(size: nat, vertexSize: nat, qy: nat, y: nat)
    requires vertexSize == 2 * size && y == 2 * qy
    ensures y * vertexSize == QuadBase(size, 0, qy)
  {
  }

  /** Adding quad row `qy` (slot row `y = 2 * qy`) to the table prefix. */
  lemma TriangleRowsStep(size: nat, qy: nat, y: nat)
    requires qy < size && y == 2 * qy
    ensures TriangleRows(size, qy + 1) == TriangleRows(size, qy) + TriangleRow(2 * size, y * (2 * size), size)
    ensures |TriangleRows(size, qy + 1)| == |TriangleRows(size, qy)| + 6 * size
    ensures |TriangleRows(size, qy + 1)| <= |TriangleTable(size)|
  {
    RowStart(size, 2 * size, qy, y);
    TriangleRowLength(2 * size, y * (2 * size), size);
    TriangleRowsLength(size, qy + 1);
    TriangleRowsLength(size, size);
    MulMono(qy + 1, size, size);
  }

  /** The two triangles of a quad are its corners `(0,0), (1,1), (1,0)` and
      `(0,0), (0,1), (1,1)`: together they cover the quad and share the
      diagonal from corner `(0,0)` to corner `(1,1)`. */
  lemma QuadTriangleCorners(size: nat, qx: nat, qy: nat)
    requires qx < size && qy < size
    ensures var c00, c10, c01, c11 := QuadCorner(qx, qy, 0, 0), QuadCorner(qx, qy, 1, 0),
                                      QuadCorner(qx, qy, 0, 1), QuadCorner(qx, qy, 1, 1);
      QuadTriangles(QuadBase(size, qx, qy), 2 * size)
        == [Slot(size, c00), Slot(size, c11), Slot(size, c10), Slot(size, c00), Slot(size, c01), Slot(size, c11)]
  {
    QuadSlots(size, qx, qy);
  }

  /** Every entry of the table is a valid vertex slot. */
  lemma TriangleEntryInRange(size: nat, t: nat)
    requires t < |TriangleTable(size)|
    ensures 0 <= TriangleTable(size)[t] < VertexCount(size)
  {
    TriangleRowsLength(size, size);
    RowMajorEncode(6, size * size, t);
    var q, c := t / 6, t % 6;
    RowMajorEncode(size, size, q);
    DivModBounds(q, size);
    var qx, qy := q % size, q / size;
    assert t == (qy * size + qx) * 6 + c;
    QuadTrianglesAt(size, qx, qy, c);
    QuadSlots(size, qx, qy);
  }

  /** The triangle table has `size * size * 6` entries and each is a valid
      vertex slot. */
  lemma TriangleIndicesInRange(size: nat)
    ensures |TriangleTable(size)| == TriangleCount(size)
    ensures forall t :: 0 <= t < |TriangleTable(size)| ==> 0 <= TriangleTable(size)[t] < VertexCount(size)
  {
    TriangleRowsLength(size, size);
    forall t | 0 <= t < |TriangleTable(size)|
      ensures 0 <= TriangleTable(size)[t] < VertexCount(size)
    {
      TriangleEntryInRange(size, t);
    }
  }

  // ---------------------------------------------------------------------
  // Texture coordinates

  /** Slot row `y` of the UV table: column `x` gets `(x / size, y / size)`. */
  function UvRow(size: nat, y: nat): seq<Vector2>
  {
    seq(2 * size, x requires 0 <= x < 2 * size => Vector2(x as real / size as real, y as real / size as real))
  }

  /** The first `n` slot rows of the UV table. */
  function UvRows(size: nat, n: nat): seq<Vector2>
  {
    if n == 0 then [] else UvRows(size, n - 1) + UvRow(size, n - 1)
  }

  function UvTable(size: nat): seq<Vector2>
  {
    UvRows(size, 2 * size)
  }

  lemma {:induction false} UvRowsLength(size: nat, n: nat)
    ensures |UvRows(size, n)| == n * (2 * size)
  {
    if n > 0 {
      UvRowsLength(size, n - 1);
    }
  }

  lemma {:induction false} UvRowsAt(size: nat, n: nat, x: nat, y: nat)
    requires x < 2 * size && y < n
    ensures y * (2 * size) + x < |UvRows(size, n)|
    ensures UvRows(size, n)[y * (2 * size) + x] == Vector2(x as real / size as real, y as real / size as real)
  {
    UvRowsLength(size, n - 1);
    if y < n - 1 {
      UvRowsAt(size, n - 1, x, y);
    }
  }

  /** The UV table has one entry per slot, and the slot in row `y`,
      column `x` holds `(x / size, y / size)`. */
  lemma UvAtGridPoint(size: nat, vertexSize: nat, x: nat, y: nat)
    requires vertexSize == 2 * size && x < vertexSize && y < vertexSize
    ensures |UvTable(size)| == VertexCount(size)
    ensures y * vertexSize + x < |UvTable(size)|
    ensures UvTable(size)[y * vertexSize + x] == Vector2(x as real / size as real, y as real / size as real)
  {
    UvRowsLength(size, 2 * size);
    UvRowsAt(size, 2 * size, x, y);
  }

  /** The UV of a quad corner: the texture coordinate follows the slot grid,
      not the vertex position, so it runs over [0, 2) across a chunk. */
  lemma CornerUv(size: nat, c: QuadCorner)
    requires ValidCorner(size, c)
    ensures Slot(size, c) < |UvTable(size)|
    ensures UvTable(size)[Slot(size, c)]
         == Vector2((CornerX(c) + c.qx) as real / size as real, (CornerZ(c) + c.qy) as real / size as real)
  {
    UvAtGridPoint(size, 2 * size, SlotCol(c), SlotRow(c));
  }

  // ---------------------------------------------------------------------
  // Vertices

  /** The four slots of quad `(x, y)` are `b`, `b+1`, `b+vs`, `b+vs+1`, and
      the next quad in the row starts two slots further on. */
  lemma QuadSlots(size: nat, x: nat, y: nat)
    requires x < size && y < size
    ensures var b, vs := QuadBase(size, x, y), 2 * size;
      Slot(size, QuadCorner(x, y, 0, 0)) == b && Slot(size, QuadCorner(x, y, 1, 0)) == b + 1 &&
      Slot(size, QuadCorner(x, y, 0, 1)) == b + vs && Slot(size, QuadCorner(x, y, 1, 1)) == b + vs + 1 &&
      b + vs + 1 < VertexCount(size) && QuadBase(size, x + 1, y) == b + 2
  {
    NextRow(2 * y, 2 * size);
    SlotOwner(size, QuadCorner(x, y, 1, 1));
  }

  /** The vertex at grid point `(gx, gz)`: X and Z from the grid, Y the
      height sampled there, scaled. */
  function GridVertex(heightMap: array2<real>, gx: nat, gz: nat): Vector3
    reads heightMap
    requires gx < heightMap.Length0 && gz < heightMap.Length1
  {
    Vector3(gx as real, heightMap[gx, gz] * HeightScale, gz as real)
  }

  /** The slots the first `n` quads of quad row `qy` fill in slot row
      `2 * qy + dz`: quad `qx` puts the grid points `(qx, qy + dz)` and
      `(qx + 1, qy + dz)` of its edge there. */
  function QuadRowEdge(size: nat, heightMap: array2<real>, qy: nat, dz: nat, n: nat): seq<Vector3>
    reads heightMap
    requires n <= size && qy < size && dz < 2 && heightMap.Length0 > size && heightMap.Length1 > size
  {
    if n == 0 then []
    else QuadRowEdge(size, heightMap, qy, dz, n - 1) + [GridVertex(heightMap, n - 1, qy + dz), GridVertex(heightMap, n, qy + dz)]
  }

  /** The slot rows of the first `m` quad rows. */
  function VertexRows(size: nat, heightMap: array2<real>, m: nat): seq<Vector3>
    reads heightMap
    requires m <= size && heightMap.Length0 > size && heightMap.Length1 > size
  {
    if m == 0 then []
    else VertexRows(size, heightMap, m - 1) + QuadRowEdge(size, heightMap, m - 1, 0, size)
         + QuadRowEdge(size, heightMap, m - 1, 1, size)
  }

  /** The vertex array of a chunk, slot by slot. */
  function VertexTable(size: nat, heightMap: array2<real>): seq<Vector3>
    reads heightMap
    requires heightMap.Length0 > size && heightMap.Length1 > size
  {
    VertexRows(size, heightMap, size)
  }

  lemma {:induction false} QuadRowEdgeLength(size: nat, heightMap: array2<real>, qy: nat, dz: nat, n: nat)
    requires n <= size && qy < size && dz < 2 && heightMap.Length0 > size && heightMap.Length1 > size
    ensures |QuadRowEdge(size, heightMap, qy, dz, n)| == 2 * n
  {
    if n > 0 {
      QuadRowEdgeLength(size, heightMap, qy, dz, n - 1);
    }
  }

  lemma {:induction false} VertexRowsLength(size: nat, heightMap: array2<real>, m: nat)
    requires m <= size && heightMap.Length0 > size && heightMap.Length1 > size
    ensures |VertexRows(size, heightMap, m)| == (2 * m) * (2 * size)
  {
    if m > 0 {
      VertexRowsLength(size, heightMap, m - 1);
      QuadRowEdgeLength(size, heightMap, m - 1, 0, size);
      QuadRowEdgeLength(size, heightMap, m - 1, 1, size);
      NextRow(2 * m - 2, 2 * size);
      NextRow(2 * m - 1, 2 * size);
    }
  }

  lemma {:induction false} QuadRowEdgeAt(size: nat, heightMap: array2<real>, qy: nat, dz: nat, n: nat, qx: nat, dx: nat)
    requires n <= size && qy < size && dz < 2 && heightMap.Length0 > size && heightMap.Length1 > size
    requires qx < n && dx < 2
    ensures 2 * qx + dx < |QuadRowEdge(size, heightMap, qy, dz, n)|
    ensures QuadRowEdge(size, heightMap, qy, dz, n)[2 * qx + dx] == GridVertex(heightMap, qx + dx, qy + dz)
  {
    QuadRowEdgeLength(size, heightMap, qy, dz, n - 1);
    if qx < n - 1 {
      QuadRowEdgeAt(size, heightMap, qy, dz, n - 1, qx, dx);
    }
  }

  lemma {:induction false} VertexRowsAt(size: nat, heightMap: array2<real>, m: nat, c: QuadCorner)
    requires m <= size && heightMap.Length0 > size && heightMap.Length1 > size
    requires ValidCorner(size, c) && c.qy < m
    ensures Slot(size, c) < |VertexRows(size, heightMap, m)|
    ensures VertexRows(size, heightMap, m)[Slot(size, c)] == GridVertex(heightMap, CornerX(c), CornerZ(c))
  {
    var pre := VertexRows(size, heightMap, m - 1);
    var e0, e1 := QuadRowEdge(size, heightMap, m - 1, 0, size), QuadRowEdge(size, heightMap, m - 1, 1, size);
    QuadRowEdgeLength(size, heightMap, m - 1, 0, size);
    QuadRowEdgeLength(size, heightMap, m - 1, 1, size);
    assert VertexRows(size, heightMap, m) == pre + e0 + e1;
    if c.qy < m - 1 {
      VertexRowsAt(size, heightMap, m - 1, c);
      PickBefore(pre, e0, e1, Slot(size, c));
    } else {
      VertexRowsLength(size, heightMap, m - 1);
      SlotInQuadRow(size, c);
      QuadRowEdgeAt(size, heightMap, c.qy, c.dz, size, c.qx, c.dx);
      PickInRows(pre, e0, e1, 2 * size, 2 * c.qx + c.dx, c.dz);
    }
  }

  /** The slot of a corner of quad row `qy`: the slot rows of the quad rows
      before it, then `dz` slot rows, then the column. */
  lemma SlotInQuadRow(size: nat, c: QuadCorner)
    requires ValidCorner(size, c)
    ensures Slot(size, c) == (2 * c.qy) * (2 * size) + c.dz * (2 * size) + (2 * c.qx + c.dx)
  {
    if c.dz == 1 {
      NextRow(2 * c.qy, 2 * size);
    }
  }

  lemma PickBefore<T>(pre: seq<T>, e0: seq<T>, e1: seq<T>, i: nat)
    requires i < |pre|
    ensures i < |pre + e0 + e1| && (pre + e0 + e1)[i] == pre[i]
  {
  }

  lemma PickInRows<T>(pre: seq<T>, e0: seq<T>, e1: seq<T>, w: nat, j: nat, dz: nat)
    requires |e0| == w && |e1| == w && j < w && dz < 2
    ensures |pre| + dz * w + j < |pre + e0 + e1|
    ensures (pre + e0 + e1)[|pre| + dz * w + j] == (if dz == 0 then e0 else e1)[j]
  {
  }

  /** The two slot rows of quad row `y` extend the filled slot rows. */
  lemma VertexRowsStep(size: nat, heightMap: array2<real>, y: nat)
    requires y < size && heightMap.Length0 > size && heightMap.Length1 > size
    ensures VertexRows(size, heightMap, y + 1)
         == VertexRows(size, heightMap, y) + QuadRowEdge(size, heightMap, y, 0, size) + QuadRowEdge(size, heightMap, y, 1, size)
    ensures |VertexRows(size, heightMap, y + 1)| == |VertexRows(size, heightMap, y)| + 2 * (2 * size)
    ensures |VertexRows(size, heightMap, y + 1)| <= |VertexTable(size, heightMap)|
  {
    QuadRowEdgeLength(size, heightMap, y, 0, size);
    QuadRowEdgeLength(size, heightMap, y, 1, size);
    VertexRowsLength(size, heightMap, y + 1);
    VertexRowsLength(size, heightMap, size);
    MulMono(2 * y + 2, 2 * size, 2 * size);
  }

  /** The vertex array has one entry per slot, and the slot of every quad
      corner holds that corner's grid point, raised to its scaled height. */
  lemma CornerVertexAt(size: nat, heightMap: array2<real>, c: QuadCorner)
    requires heightMap.Length0 > size && heightMap.Length1 > size
    requires ValidCorner(size, c)
    ensures |VertexTable(size, heightMap)| == VertexCount(size)
    ensures Slot(size, c) < |VertexTable(size, heightMap)|
    ensures VertexTable(size, heightMap)[Slot(size, c)] == GridVertex(heightMap, CornerX(c), CornerZ(c))
  {
    VertexRowsLength(size, heightMap, size);
    DoubleSquare(size);
    VertexRowsAt(size, heightMap, size, c);
  }

  /** The arrays of a generated mesh: fresh vertices, shared UVs and
      triangles. */
  datatype MeshData = MeshData(vertices: array<Vector3>, uv: array<Vector2>, triangles: array<int>)

  /** Fills the UV table row by row. */
  method FillUv(uv: array<Vector2>, size: nat)
    requires uv.Length == VertexCount(size)
    modifies uv
    ensures uv[..] == UvTable(size)
  {
    ghost var table := UvTable(size);
    UvRowsLength(size, 2 * size);
    assert |table| == uv.Length;
    var vs := 2 * size;
    var y := 0;
    ghost var filled := 0;
    while y < vs
      invariant 0 <= y <= vs && filled == y * vs
      invariant filled <= |table| && uv[..filled] == table[..filled]
    {
      var x := 0;
      while x < vs
        invariant 0 <= x <= vs && filled == y * vs + x
        invariant filled <= |table| && uv[..filled] == table[..filled]
      {
        UvAtGridPoint(size, vs, x, y);
        uv[y * vs + x] := Vector2(x as real / size as real, y as real / size as real);
        assert uv[..filled + 1] == uv[..filled] + [uv[filled]];
        assert table[..filled + 1] == table[..filled] + [table[filled]];
        x, filled := x + 1, filled + 1;
      }
      NextRow(y, vs);
      y := y + 1;
    }
    assert filled == uv.Length;
    assert uv[..] == table;
  }

  /** The body of the triangle loop: the six entries of the quad whose first
      slot is `currentVertex`, written from `triangleOffset` on, after the
      entries already there. */
  method WriteQuadTriangles(triangles: array<int>, triangleOffset: nat, currentVertex: int, vertexSize: int)
    requires triangleOffset + 6 <= triangles.Length
    modifies triangles
    ensures triangles[..triangleOffset + 6] == old(triangles[..triangleOffset]) + QuadTriangles(currentVertex, vertexSize)
  {
    triangles[triangleOffset + 0] := currentVertex + 0;
    triangles[triangleOffset + 1] := currentVertex + vertexSize + 1;
    triangles[triangleOffset + 2] := currentVertex + 1;

    triangles[triangleOffset + 3] := currentVertex + 0;
    triangles[triangleOffset + 4] := currentVertex + vertexSize + 0;
    triangles[triangleOffset + 5] := currentVertex + vertexSize + 1;
    assert triangles[..triangleOffset + 6] == triangles[..triangleOffset] + triangles[triangleOffset..triangleOffset + 6];
  }

  /** The inner triangle loop: the quads of even slot row `y`, numbered from
      `currentQuad` on, appended to the entries already written. */
  method FillQuadRow(triangles: array<int>, size: nat, y: nat, currentQuad: nat) returns (nextQuad: nat)
    requires currentQuad * 6 + 6 * size <= triangles.Length
    modifies triangles
    ensures nextQuad == currentQuad + size
    ensures triangles[..nextQuad * 6] == old(triangles[..currentQuad * 6]) + TriangleRow(2 * size, y * (2 * size), size)
  {
    var vs := 2 * size;
    ghost var before := triangles[..currentQuad * 6];
    nextQuad := currentQuad;
    var x := 0;
    ghost var qx := 0;
    while x < vs
      invariant 0 <= qx <= size && x == 2 * qx && nextQuad == currentQuad + qx
      invariant triangles[..nextQuad * 6] == before + TriangleRow(vs, y * vs, qx)
    {
      var triangleOffset := nextQuad * 6;
      var currentVertex := y * vs + x;
      WriteQuadTriangles(triangles, triangleOffset, currentVertex, vs);
      nextQuad := nextQuad + 1;
      x, qx := x + 2, qx + 1;
    }
  }

  /** Fills the triangle table quad row by quad row, with a running quad
      number. */
  method FillTriangles(triangles: array<int>, size: nat)
    requires triangles.Length == TriangleCount(size)
    modifies triangles
    ensures triangles[..] == TriangleTable(size)
  {
    TriangleRowsLength(size, size);
    assert triangles.Length == |TriangleTable(size)|;
    var vs := 2 * size;
    var currentQuad := 0;
    var y := 0;
    ghost var qy := 0;
    while y < vs
      invariant 0 <= qy <= size && y == 2 * qy
      invariant currentQuad * 6 == |TriangleRows(size, qy)| <= triangles.Length
      invariant triangles[..currentQuad * 6] == TriangleRows(size, qy)
    {
      TriangleRowsStep(size, qy, y);
      currentQuad := FillQuadRow(triangles, size, y, currentQuad);
      y, qy := y + 2, qy + 1;
    }
    assert triangles[..] == triangles[..currentQuad * 6];
  }

  class MeshGenerator {
    const size: nat
    const vertexSize: nat
    const vertexCount: nat
    /** The cached UV and triangle tables, shared by every generated mesh. */
    const uv: array<Vector2>
    const triangles: array<int>

    ghost predicate Valid()
      reads this, uv, triangles
    {
      vertexSize == 2 * size && vertexCount == VertexCount(size) &&
      uv[..] == UvTable(size) && triangles[..] == TriangleTable(size)
    }

    constructor (inSize: nat)
      ensures Valid() && size == inSize
      ensures fresh(uv) && fresh(triangles)
    {
      var uvs := new Vector2[inSize * inSize * 4];
      var tris := new int[inSize * inSize * 6];
      FillUv(uvs, inSize);
      FillTriangles(tris, inSize);
      size := inSize;
      vertexSize := inSize * 2;
      vertexCount := inSize * inSize * 4;
      uv := uvs;
      triangles := tris;
    }

    /** Builds the vertex array of one chunk from its height map; the UV and
        triangle arrays of the result are the cached ones, whatever the
        heights. */
    method Generate(heightMap: array2<real>) returns (result: MeshData)
      requires Valid()
      requires heightMap.Length0 > size && heightMap.Length1 > size
      ensures fresh(result.vertices)
      ensures result.vertices[..] == VertexTable(size, heightMap)
      ensures result.uv == uv && result.triangles == triangles
    {
      VertexRowsLength(size, heightMap, size);
      DoubleSquare(size);
      var vertices := new Vector3[vertexCount];
      assert vertices.Length == |VertexTable(size, heightMap)|;
      var vertexID := 0;
      var y := 0;
      while y < size
        invariant 0 <= y <= size
        invariant vertexID == |VertexRows(size, heightMap, y)| <= vertices.Length
        invariant vertices[..vertexID] == VertexRows(size, heightMap, y)
      {
        VertexRowsStep(size, heightMap, y);
        var rowEnd := FillVertexRows(vertices, heightMap, size, y, vertexID);
        vertexID := rowEnd + vertexSize;
        y := y + 1;
      }
      assert vertices[..] == vertices[..vertexID];
      result := MeshData(vertices, uv, triangles);
    }
  }

  /** The inner vertex loop of `MeshGenerator.Generate`: the quads of quad
      row `y` fill slot rows `2 * y` and `2 * y + 1`, which follow the slots
      already filled. */
  method FillVertexRows(vertices: array<Vector3>, heightMap: array2<real>, size: nat, y: nat, vertexID: nat)
      returns (nextID: nat)
    requires y < size && heightMap.Length0 > size && heightMap.Length1 > size
    requires vertexID + 2 * (2 * size) <= vertices.Length
    modifies vertices
    ensures nextID == vertexID + 2 * size
    ensures vertices[..nextID + 2 * size]
         == old(vertices[..vertexID]) + QuadRowEdge(size, heightMap, y, 0, size) + QuadRowEdge(size, heightMap, y, 1, size)
  {
    ghost var start := vertexID;
    nextID := vertexID;
    var x := 0;
    while x < size
      invariant 0 <= x <= size && nextID == start + 2 * x
      invariant vertices[..start] == old(vertices[..start])
      invariant vertices[start..nextID] == QuadRowEdge(size, heightMap, y, 0, x)
      invariant vertices[start + 2 * size..nextID + 2 * size] == QuadRowEdge(size, heightMap, y, 1, x)
    {
      WriteQuadVertices(vertices, heightMap, size, x, y, nextID, start, start + 2 * size);
      nextID := nextID + 2;
      x := x + 1;
    }
    SplitPrefix(vertices, start, nextID, nextID + 2 * size);
  }

  /** The body of the vertex loop: the four corners of quad `(x, y)`, whose
      first slot is `vertexID`, extend the filled parts of slot row `2 * y`
      (from `upperStart` on) and slot row `2 * y + 1` (from `lowerStart` on);
      the slots before `upperStart` keep their values. */
  method WriteQuadVertices(vertices: array<Vector3>, heightMap: array2<real>, size: nat, x: nat, y: nat,
                           vertexID: nat, ghost upperStart: nat, ghost lowerStart: nat)
    requires x < size && y < size && heightMap.Length0 > size && heightMap.Length1 > size
    requires upperStart <= vertexID && vertexID + 2 <= lowerStart <= vertexID + 2 * size
    requires vertexID + 2 * size + 2 <= vertices.Length
    modifies vertices
    ensures vertices[..upperStart] == old(vertices[..upperStart])
    ensures vertices[upperStart..vertexID + 2]
         == old(vertices[upperStart..vertexID]) + [GridVertex(heightMap, x, y), GridVertex(heightMap, x + 1, y)]
    ensures vertices[lowerStart..vertexID + 2 + 2 * size]
         == old(vertices[lowerStart..vertexID + 2 * size]) + [GridVertex(heightMap, x, y + 1), GridVertex(heightMap, x + 1, y + 1)]
  {
    var vertexSize := 2 * size;
    vertices[vertexID] := Vector3(x as real, heightMap[x, y] * HeightScale, y as real);
    vertices[vertexID + 1] := Vector3((x + 1) as real, heightMap[x + 1, y] * HeightScale, y as real);
    vertices[vertexID + vertexSize] := Vector3(x as real, heightMap[x, y + 1] * HeightScale, (y + 1) as real);
    vertices[vertexID + vertexSize + 1] := Vector3((x + 1) as real, heightMap[x + 1, y + 1] * HeightScale, (y + 1) as real);
    assert vertices[upperStart..vertexID + 2] == vertices[upperStart..vertexID] + [vertices[vertexID], vertices[vertexID + 1]];
    assert vertices[lowerStart..vertexID + vertexSize + 2]
        == vertices[lowerStart..vertexID + vertexSize] + [vertices[vertexID + vertexSize], vertices[vertexID + vertexSize + 1]];
  }
}
