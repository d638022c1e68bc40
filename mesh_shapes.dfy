/** Procedural shapes built on `Mesh`: a subdivided plane (a row-major grid of
    `(sx + 2) * (sy + 2)` vertices with two triangles per cell) and a box made of
    six such planes whose index lists are rebased so that face `k` addresses
    vertex block `k`, with one constant normal per face. */
module MeshShapes {
  import opened Common
  import opened VertexTypes
  import opened Linear
  import opened MeshModel

  // ---------------------------------------------------------------------------
  // Row-major grids

  /** The first `x` entries of row `y` of the grid generated by `f(x, y)`. */
  function Row<T>(f: (nat, nat) -> T, y: nat, x: nat): (r: seq<T>)
    ensures |r| == x
  {
    if x == 0 then [] else Row(f, y, x - 1) + [f(x - 1, y)]
  }

  /** The first `rows` rows of a grid `w` entries wide: `y` outer, `x` inner. */
  function Grid<T>(f: (nat, nat) -> T, w: nat, rows: nat): seq<T>
  {
    if rows == 0 then [] else Grid(f, w, rows - 1) + Row(f, rows - 1, w)
  }

  lemma {:induction false} RowAt<T>(f: (nat, nat) -> T, y: nat, x: nat, i: nat)
    requires i < x
    ensures Row(f, y, x)[i] == f(i, y)
  {
    if i < x - 1 {
      RowAt(f, y, x - 1, i);
    }
  }

  lemma {:induction false} GridLength<T>(f: (nat, nat) -> T, w: nat, rows: nat)
    ensures |Grid(f, w, rows)| == Times(rows, w)
  {
    if rows > 0 {
      GridLength(f, w, rows - 1);
    }
  }

  /** Entry `(x, y)` of a grid sits at position `y * w + x`. */
  lemma {:induction false} GridAt<T>(f: (nat, nat) -> T, w: nat, rows: nat, y: nat, x: nat)
    requires y < rows && x < w
    ensures |Grid(f, w, rows)| == Times(rows, w)
    ensures Slot(0, w, y, x) < Times(rows, w)
    ensures Grid(f, w, rows)[Slot(0, w, y, x)] == f(x, y)
  {
    GridLength(f, w, rows);
    GridLength(f, w, rows - 1);
    if y < rows - 1 {
      GridAt(f, w, rows - 1, y, x);
      TimesMonotone(y + 1, rows - 1, w);
    } else {
      RowAt(f, y, w, x);
    }
  }

  lemma GridExtend<T>(f: (nat, nat) -> T, w: nat, y: nat, x: nat)
    ensures Grid(f, w, y) + Row(f, y, x + 1) == Grid(f, w, y) + Row(f, y, x) + [f(x, y)]
    ensures Grid(f, w, y + 1) == Grid(f, w, y) + Row(f, y, w)
  {
  }

  // ---------------------------------------------------------------------------
  // Plane vertices (`GeneratePlaneMeshVertexData`)

  /** Position of grid vertex `(x, y)` of a `width` by `height` plane centred on
      the origin in the z = 0 plane, stepping right and down from the top-left
      corner. */
  function PlanePoint(width: real, height: real, sx: nat, sy: nat, x: nat, y: nat): seq<real>
  {
    [-width / 2.0 + (x as real) * (width / ((sx + 1) as real)),
     height / 2.0 + (y as real) * (-height / ((sy + 1) as real)),
     0.0]
  }

  function PlanePosition(width: real, height: real, sx: nat, sy: nat): (nat, nat) -> seq<real>
  {
    (x: nat, y: nat) => PlanePoint(width, height, sx, sy, x, y)
  }

  /** Texture coordinate of grid vertex `(x, y)`. */
  function PlaneTexCoord(sx: nat, sy: nat, x: nat, y: nat): seq<real>
  {
    [(x as real) / ((sx + 1) as real), (y as real) / ((sy + 1) as real)]
  }

  function PlaneUv(sx: nat, sy: nat): (nat, nat) -> seq<real>
  {
    (x: nat, y: nat) => PlaneTexCoord(sx, sy, x, y)
  }

  /** Number of vertices of a plane with the given subdivision. */
  function PlaneVertices(sx: nat, sy: nat): nat
  {
    Times(sy + 2, sx + 2)
  }

  /** `GeneratePlaneMeshVertexData`: discards the previous contents of both
      outputs and emits one position and one texture coordinate per grid vertex,
      row by row. */
  method GeneratePlaneMeshVertexData(width: real, height: real, sx: nat, sy: nat)
    returns (positions: seq<seq<real>>, uvs: seq<seq<real>>)
    ensures positions == Grid(PlanePosition(width, height, sx, sy), sx + 2, sy + 2)
    ensures uvs == Grid(PlaneUv(sx, sy), sx + 2, sy + 2)
  {
    var horVertices := sx + 2;
    var vertVertices := sy + 2;
    positions := [];
    uvs := [];
    var stepX := width / ((horVertices - 1) as real);
    var stepY := -height / ((vertVertices - 1) as real);
    for y := 0 to vertVertices
      invariant positions == Grid(PlanePosition(width, height, sx, sy), horVertices, y)
      invariant uvs == Grid(PlaneUv(sx, sy), horVertices, y)
    {
      for x := 0 to horVertices
        invariant positions == Grid(PlanePosition(width, height, sx, sy), horVertices, y)
                               + Row(PlanePosition(width, height, sx, sy), y, x)
        invariant uvs == Grid(PlaneUv(sx, sy), horVertices, y) + Row(PlaneUv(sx, sy), y, x)
      {
        var position := [-width / 2.0 + (x as real) * stepX, height / 2.0 + (y as real) * stepY, 0.0];
        var uv := [(x as real) / ((horVertices - 1) as real), (y as real) / ((vertVertices - 1) as real)];
        PositionStep(width, height, sx, sy, x, y, positions, stepX, stepY);
        UvStep(sx, sy, x, y, uvs);
        positions := positions + [position];
        uvs := uvs + [uv];
      }
    }
  }

  lemma PositionStep(width: real, height: real, sx: nat, sy: nat, x: nat, y: nat,
                     done: seq<seq<real>>, stepX: real, stepY: real)
    requires stepX == width / ((sx + 2 - 1) as real) && stepY == -height / ((sy + 2 - 1) as real)
    requires done == Grid(PlanePosition(width, height, sx, sy), sx + 2, y) + Row(PlanePosition(width, height, sx, sy), y, x)
    ensures done + [[-width / 2.0 + (x as real) * stepX, height / 2.0 + (y as real) * stepY, 0.0]]
         == Grid(PlanePosition(width, height, sx, sy), sx + 2, y) + Row(PlanePosition(width, height, sx, sy), y, x + 1)
  {
    var position := [-width / 2.0 + (x as real) * stepX, height / 2.0 + (y as real) * stepY, 0.0];
    var p := PlanePoint(width, height, sx, sy, x, y);
    assert position[0] == p[0] && position[1] == p[1] && position[2] == p[2];
    GridExtend(PlanePosition(width, height, sx, sy), sx + 2, y, x);
  }

  lemma UvStep(sx: nat, sy: nat, x: nat, y: nat, done: seq<seq<real>>)
    requires done == Grid(PlaneUv(sx, sy), sx + 2, y) + Row(PlaneUv(sx, sy), y, x)
    ensures done + [[(x as real) / ((sx + 2 - 1) as real), (y as real) / ((sy + 2 - 1) as real)]]
         == Grid(PlaneUv(sx, sy), sx + 2, y) + Row(PlaneUv(sx, sy), y, x + 1)
  {
    GridExtend(PlaneUv(sx, sy), sx + 2, y, x);
  }

  /** A plane has `(sx + 2) * (sy + 2)` vertices, stored row-major: vertex
      `(x, y)` is entry `y * (sx + 2) + x`. */
  lemma PlaneRowMajor(width: real, height: real, sx: nat, sy: nat, x: nat, y: nat)
    requires x < sx + 2 && y < sy + 2
    ensures |Grid(PlanePosition(width, height, sx, sy), sx + 2, sy + 2)| == PlaneVertices(sx, sy)
    ensures Slot(0, sx + 2, y, x) < PlaneVertices(sx, sy)
    ensures Grid(PlanePosition(width, height, sx, sy), sx + 2, sy + 2)[Slot(0, sx + 2, y, x)]
         == PlanePoint(width, height, sx, sy, x, y)
  {
    GridAt(PlanePosition(width, height, sx, sy), sx + 2, sy + 2, y, x);
  }

  /** The plane spans exactly `width` by `height`: it starts at the top-left
      corner, ends at the bottom-right corner and lies in the z = 0 plane. */
  lemma PlaneCorners(width: real, height: real, sx: nat, sy: nat)
    ensures var g := Grid(PlanePosition(width, height, sx, sy), sx + 2, sy + 2);
            |g| == PlaneVertices(sx, sy) &&
            g[0] == [-width / 2.0, height / 2.0, 0.0] &&
            g[|g| - 1] == [width / 2.0, -height / 2.0, 0.0]
  {
    var f := PlanePosition(width, height, sx, sy);
    var g := Grid(f, sx + 2, sy + 2);
    GridAt(f, sx + 2, sy + 2, 0, 0);
    GridAt(f, sx + 2, sy + 2, sy + 1, sx + 1);
    assert |g| - 1 == Slot(0, sx + 2, sy + 1, sx + 1);
    PlanePointCorners(width, height, sx, sy);
  }

  lemma PlanePointCorners(width: real, height: real, sx: nat, sy: nat)
    ensures PlanePoint(width, height, sx, sy, 0, 0) == [-width / 2.0, height / 2.0, 0.0]
    ensures PlanePoint(width, height, sx, sy, sx + 1, sy + 1) == [width / 2.0, -height / 2.0, 0.0]
  {
    MulDiv(width, (sx + 1) as real);
    MulDiv(-height, (sy + 1) as real);
  }

  /** Every plane vertex has z = 0. */
  lemma PlaneFlat(width: real, height: real, sx: nat, sy: nat, j: nat)
    requires j < PlaneVertices(sx, sy)
    ensures |Grid(PlanePosition(width, height, sx, sy), sx + 2, sy + 2)| == PlaneVertices(sx, sy)
    ensures var p := Grid(PlanePosition(width, height, sx, sy), sx + 2, sy + 2)[j];
            |p| == 3 && p[2] == 0.0
  {
    var y, x := SlotOf(j, sx + 2, sy + 2);
    GridAt(PlanePosition(width, height, sx, sy), sx + 2, sy + 2, y, x);
  }

  /** Texture coordinates cover the unit square: every one lies in [0, 1] x [0, 1],
      the first is (0, 0) and the last is (1, 1). */
  lemma PlaneUvRange(sx: nat, sy: nat, j: nat)
    requires j < PlaneVertices(sx, sy)
    ensures var g := Grid(PlaneUv(sx, sy), sx + 2, sy + 2);
            |g| == PlaneVertices(sx, sy) && |g[j]| == 2 &&
            0.0 <= g[j][0] <= 1.0 && 0.0 <= g[j][1] <= 1.0 &&
            g[0] == [0.0, 0.0] && g[|g| - 1] == [1.0, 1.0]
  {
    var g := Grid(PlaneUv(sx, sy), sx + 2, sy + 2);
    var y, x := SlotOf(j, sx + 2, sy + 2);
    GridAt(PlaneUv(sx, sy), sx + 2, sy + 2, y, x);
    GridAt(PlaneUv(sx, sy), sx + 2, sy + 2, 0, 0);
    GridAt(PlaneUv(sx, sy), sx + 2, sy + 2, sy + 1, sx + 1);
    assert |g| - 1 == Slot(0, sx + 2, sy + 1, sx + 1);
    TexCoordRange(sx, sy, x, y);
  }

  lemma TexCoordRange(sx: nat, sy: nat, x: nat, y: nat)
    requires x < sx + 2 && y < sy + 2
    ensures var t := PlaneTexCoord(sx, sy, x, y);
            |t| == 2 && 0.0 <= t[0] <= 1.0 && 0.0 <= t[1] <= 1.0
    ensures PlaneTexCoord(sx, sy, 0, 0) == [0.0, 0.0]
    ensures PlaneTexCoord(sx, sy, sx + 1, sy + 1) == [1.0, 1.0]
  {
    DivLeOne(x as real, (sx + 1) as real);
    DivLeOne(y as real, (sy + 1) as real);
    DivSelf((sx + 1) as real);
    DivSelf((sy + 1) as real);
  }

  /** Every entry of a grid of six-element sequences has six elements. */
  lemma GridUniform<T>(f: (nat, nat) -> seq<T>, w: nat, rows: nat, a: nat, data: seq<seq<T>>)
    requires data == Grid(f, w, rows)
    requires forall x: nat, y: nat :: x < w && y < rows ==> |f(x, y)| == a
    ensures Uniform(data, a)
  {
    GridLength(f, w, rows);
    forall k | 0 <= k < |data|
      ensures |data[k]| == a
    {
      var y, x := SlotOf(k, w, rows);
      GridAt(f, w, rows, y, x);
    }
  }

  // ---------------------------------------------------------------------------
  // Plane indices (`GeneratePlaneMeshIndexData`, `OffsetIndices`)

  /** The six indices of cell `(x, y)`: the top-left triangle `s, s+1, s+h` and
      the bottom-right triangle `s+h, s+1, s+h+1`, where `s` is the cell's top-left
      vertex. `s` is computed as a 32-bit value before the offset is added, and
      every stored index is truncated to 32 bits. */
  function CellIndices(h: nat, offset: nat, x: nat, y: nat): seq<u32>
  {
    var s := Wrap32(x + y * h) + offset;
    [Wrap32(s), Wrap32(s + 1), Wrap32(h + s), Wrap32(h + s), Wrap32(s + 1), Wrap32(h + s + 1)]
  }

  function Cell(h: nat, offset: nat): (nat, nat) -> seq<u32>
  {
    (x: nat, y: nat) => CellIndices(h, offset, x, y)
  }

  /** The indices of every cell, cell rows top to bottom. */
  function PlaneIndices(sx: nat, sy: nat, offset: nat): seq<u32>
  {
    Flatten(Grid(Cell(sx + 2, offset), sx + 1, sy + 1))
  }

  lemma CellsUniform(sx: nat, sy: nat, offset: nat)
    ensures Uniform(Grid(Cell(sx + 2, offset), sx + 1, sy + 1), 6)
  {
    GridUniform(Cell(sx + 2, offset), sx + 1, sy + 1, 6, Grid(Cell(sx + 2, offset), sx + 1, sy + 1));
  }

  /** `GeneratePlaneMeshIndexData`: appends (without clearing) the indices of
      every cell, offset by `indexOffset`. */
  method GeneratePlaneMeshIndexData(indices: seq<u32>, sx: nat, sy: nat, indexOffset: nat)
    returns (out: seq<u32>)
    ensures out == indices + PlaneIndices(sx, sy, indexOffset)
  {
    out := indices;
    for y: nat := 0 to sy + 1
      invariant out == indices + Flatten(Grid(Cell(sx + 2, indexOffset), sx + 1, y))
    {
      ghost var rowStart := out;
      out := GeneratePlaneRowIndexData(out, y, sx + 2, indexOffset);
      RowStep(Cell(sx + 2, indexOffset), sx + 1, y, indices, rowStart, out);
    }
  }

  /** The inner loop of `GeneratePlaneMeshIndexData`: appends the indices of the
      cells of row `y`, left to right. */
  method GeneratePlaneRowIndexData(rowStart: seq<u32>, y: nat, horVertices: nat, indexOffset: nat)
    returns (out: seq<u32>)
    requires horVertices >= 1
    ensures out == rowStart + Flatten(Row(Cell(horVertices, indexOffset), y, horVertices - 1))
  {
    TimesIsMul(y, horVertices);
    var rowBase: nat := y * horVertices;
    out := rowStart;
    for x: nat := 0 to horVertices - 1
      invariant out == rowStart + Flatten(Row(Cell(horVertices, indexOffset), y, x))
    {
      var startIndex: nat := Wrap32(x + rowBase) + indexOffset;
      // the top-left triangle, then the bottom-right triangle
      var triangles := [Wrap32(startIndex), Wrap32(startIndex + 1), Wrap32(horVertices + startIndex),
                        Wrap32(horVertices + startIndex), Wrap32(startIndex + 1), Wrap32(horVertices + startIndex + 1)];
      CellTriangles(horVertices, indexOffset, x, y, startIndex);
      CellStep(Cell(horVertices, indexOffset), x, y, triangles, rowStart, out);
      out := out + triangles;
    }
  }

  lemma CellTriangles(h: nat, offset: nat, x: nat, y: nat, startIndex: nat)
    requires startIndex == Wrap32(x + y * h) + offset
    ensures [Wrap32(startIndex), Wrap32(startIndex + 1), Wrap32(h + startIndex),
             Wrap32(h + startIndex), Wrap32(startIndex + 1), Wrap32(h + startIndex + 1)]
         == CellIndices(h, offset, x, y)
  {
  }

  lemma CellStep<T>(f: (nat, nat) -> seq<T>, x: nat, y: nat, e: seq<T>, prefix: seq<T>, done: seq<T>)
    requires e == f(x, y)
    requires done == prefix + Flatten(Row(f, y, x))
    ensures done + e == prefix + Flatten(Row(f, y, x + 1))
  {
    FlattenSnoc(Row(f, y, x), e);
  }

  lemma RowStep<T>(f: (nat, nat) -> seq<T>, w: nat, y: nat, prefix: seq<T>, rowStart: seq<T>, done: seq<T>)
    requires rowStart == prefix + Flatten(Grid(f, w, y))
    requires done == rowStart + Flatten(Row(f, y, w))
    ensures done == prefix + Flatten(Grid(f, w, y + 1))
  {
    FlattenAppend(Grid(f, w, y), Row(f, y, w));
  }

  lemma {:induction false} FlattenAppend<T>(a: seq<seq<T>>, b: seq<seq<T>>)
    ensures Flatten(a + b) == Flatten(a) + Flatten(b)
    decreases |b|
  {
    if b == [] {
      assert a + b == a;
    } else {
      var b' := b[..|b| - 1];
      assert (a + b)[..|a + b| - 1] == a + b';
      FlattenAppend(a, b');
    }
  }

  lemma FlattenSingle<T>(e: seq<T>)
    ensures Flatten([e]) == e
  {
    assert [e][..0] == [];
  }

  lemma FlattenSnoc<T>(data: seq<seq<T>>, e: seq<T>)
    ensures Flatten(data + [e]) == Flatten(data) + e
  {
    assert (data + [e])[..|data|] == data;
  }

  /** A plane has `6 * (sx + 1) * (sy + 1)` indices: two triangles per cell. */
  lemma PlaneIndexCount(sx: nat, sy: nat, offset: nat)
    ensures |PlaneIndices(sx, sy, offset)| == Times(Times(sy + 1, sx + 1), 6)
    ensures |PlaneIndices(sx, sy, offset)| == 6 * (sx + 1) * (sy + 1)
  {
    var g := Grid(Cell(sx + 2, offset), sx + 1, sy + 1);
    CellsUniform(sx, sy, offset);
    GridLength(Cell(sx + 2, offset), sx + 1, sy + 1);
    FlattenLength(g, 6);
    CellCountProduct(sx + 1, sy + 1);
  }

  lemma CellCountProduct(a: nat, b: nat)
    ensures Times(Times(b, a), 6) == 6 * a * b
  {
    TimesIsMul(b, a);
    TimesIsMul(b * a, 6);
  }

  /** Index `k` of cell `(x, y)`: when nothing overflows 32 bits, the cell's top-left
      vertex is `s = offset + x + y * (sx + 2)` and its triangles are
      `s, s+1, s+h` and `s+h, s+1, s+h+1` with `h = sx + 2`. */
  lemma PlaneCellIndices(sx: nat, sy: nat, offset: nat, x: nat, y: nat, k: nat)
    requires x < sx + 1 && y < sy + 1 && k < 6
    requires offset + PlaneVertices(sx, sy) <= U32_LIMIT
    ensures Slot(0, 6, Slot(0, sx + 1, y, x), k) < |PlaneIndices(sx, sy, offset)|
    ensures var h := sx + 2;
            var s := offset + x + Times(y, h);
            PlaneIndices(sx, sy, offset)[Slot(0, 6, Slot(0, sx + 1, y, x), k)] == Corners(s, h)[k]
    ensures offset <= PlaneIndices(sx, sy, offset)[Slot(0, 6, Slot(0, sx + 1, y, x), k)] < offset + PlaneVertices(sx, sy)
  {
    var h := sx + 2;
    var s := offset + x + Times(y, h);
    PlaneCellAt(sx, sy, offset, x, y, k);
    TimesMonotone(y + 1, sy + 1, h);
    CellCorner(h, offset, x, y, s, k, PlaneVertices(sx, sy));
  }

  /** Index `k` of cell `(x, y)` is entry `6 * (y * (sx + 1) + x) + k` of the
      plane's index list. */
  lemma PlaneCellAt(sx: nat, sy: nat, offset: nat, x: nat, y: nat, k: nat)
    requires x < sx + 1 && y < sy + 1 && k < 6
    ensures Slot(0, 6, Slot(0, sx + 1, y, x), k) < |PlaneIndices(sx, sy, offset)|
    ensures |CellIndices(sx + 2, offset, x, y)| == 6
    ensures PlaneIndices(sx, sy, offset)[Slot(0, 6, Slot(0, sx + 1, y, x), k)] == CellIndices(sx + 2, offset, x, y)[k]
  {
    var g := Grid(Cell(sx + 2, offset), sx + 1, sy + 1);
    CellsUniform(sx, sy, offset);
    GridAt(Cell(sx + 2, offset), sx + 1, sy + 1, y, x);
    FlattenAt(g, 6, Slot(0, sx + 1, y, x), k);
  }

  /** The top-left triangle `s, s+1, s+h` and the bottom-right triangle
      `s+h, s+1, s+h+1` of the cell whose top-left vertex is `s`, in a grid `h`
      vertices wide. */
  function Corners(s: nat, h: nat): seq<nat>
  {
    [s, s + 1, s + h, s + h, s + 1, s + h + 1]
  }

  /** Index `k` of cell `(x, y)` when the cell's indices do not wrap, and its
      bounds. */
  lemma CellCorner(h: nat, offset: nat, x: nat, y: nat, s: nat, k: nat, vertices: nat)
    requires s == offset + x + Times(y, h) && k < 6
    requires s + h + 1 < offset + vertices <= U32_LIMIT
    ensures |CellIndices(h, offset, x, y)| == 6
    ensures CellIndices(h, offset, x, y)[k] == Corners(s, h)[k]
    ensures offset <= Corners(s, h)[k] < offset + vertices
  {
    CellIndicesNoWrap(h, offset, x, y, s);
  }

  lemma CellIndicesNoWrap(h: nat, offset: nat, x: nat, y: nat, s: nat)
    requires s == offset + x + Times(y, h) && s + h + 1 < U32_LIMIT
    ensures CellIndices(h, offset, x, y) == Corners(s, h)
  {
    TimesIsMul(y, h);
    assert Wrap32(x + y * h) == x + y * h;
  }

  /** When `offset + (sx + 2) * (sy + 2)` fits in 32 bits, every index generated
      for the plane addresses one of its own vertices: it lies in
      `[offset, offset + (sx + 2) * (sy + 2))`. */
  lemma PlaneIndexRange(sx: nat, sy: nat, offset: nat)
    requires offset + PlaneVertices(sx, sy) <= U32_LIMIT
    ensures forall n :: 0 <= n < |PlaneIndices(sx, sy, offset)| ==>
              offset <= PlaneIndices(sx, sy, offset)[n] < offset + PlaneVertices(sx, sy)
  {
    var cells := Times(sy + 1, sx + 1);
    PlaneIndexCount(sx, sy, offset);
    forall n | 0 <= n < |PlaneIndices(sx, sy, offset)|
      ensures offset <= PlaneIndices(sx, sy, offset)[n] < offset + PlaneVertices(sx, sy)
    {
      var c, k := SlotOf(n, 6, cells);
      var y, x := SlotOf(c, sx + 1, sy + 1);
      PlaneCellIndices(sx, sy, offset, x, y, k);
    }
  }

  /** `OffsetIndices`: adds `offset` to every index in place, each sum truncated to
      32 bits; length and order are kept. */
  method OffsetIndices(indices: seq<u32>, offset: nat) returns (out: seq<u32>)
    ensures out == Rebased(indices, offset)
  {
    out := indices;
    for i := 0 to |out|
      invariant |out| == |indices|
      invariant forall n :: 0 <= n < i ==> out[n] == Wrap32(indices[n] + offset)
      invariant forall n :: i <= n < |out| ==> out[n] == indices[n]
    {
      out := out[i := Wrap32(out[i] + offset)];
    }
  }

  /** Rebasing by 0 changes nothing. */
  lemma RebasedZero(s: seq<u32>)
    ensures Rebased(s, 0) == s
  {
  }

  // ---------------------------------------------------------------------------
  // `CreatePlaneMesh`

  /** `glm::vec4` colour as four floats. */
  function ColorFloats(c: Linear.Vec4): (r: seq<real>)
    ensures |r| == Arity(Color)
  {
    [c.x, c.y, c.z, c.w]
  }

  /** What `CreatePlaneMesh` stores: full-length positions and texture coordinates,
      and a single normal and a single colour that are padded out on emission. */
  function PlaneAttributes(width: real, height: real, sx: nat, sy: nat, color: Linear.Vec4): Attributes
  {
    map[Position := Flatten(Grid(PlanePosition(width, height, sx, sy), sx + 2, sy + 2)),
        Uv := Flatten(Grid(PlaneUv(sx, sy), sx + 2, sy + 2)),
        Normal := [0.0, 0.0, -1.0],
        Color := ColorFloats(color)]
  }

  /** `CreatePlaneMesh` */
  method CreatePlaneMesh(width: real, height: real, sx: nat, sy: nat, color: Linear.Vec4) returns (plane: Mesh)
    ensures fresh(plane) && plane.Valid()
    ensures plane.attributes == PlaneAttributes(width, height, sx, sy, color)
    ensures plane.fill == [Normal, Color]
    ensures plane.indices == PlaneIndices(sx, sy, 0)
  {
    plane := new Mesh();
    var positions, uvs := GeneratePlaneMeshVertexData(width, height, sx, sy);
    var indices := GeneratePlaneMeshIndexData([], sx, sy, 0);
    PlaneGridsUniform(width, height, sx, sy);
    SingleUniform([0.0, 0.0, -1.0]);
    SingleUniform(ColorFloats(color));
    plane.AddVertexAttribute(Position, positions);
    plane.AddVertexAttribute(Uv, uvs);
    plane.AddVertexAttribute(Normal, [[0.0, 0.0, -1.0]]);
    plane.AddVertexAttribute(Color, [ColorFloats(color)]);
    plane.SetFillVertexAttribute(Normal, true);
    plane.SetFillVertexAttribute(Color, true);
    FillFromEmpty(Normal, Color);
    plane.SetIndices(indices);
    FlattenSingle([0.0, 0.0, -1.0]);
    FlattenSingle(ColorFloats(color));
  }

  lemma SingleUniform(e: seq<real>)
    ensures |[e]| > 0 && Uniform([e], |e|)
  {
  }

  /** Enabling two different kinds on an empty fill list lists them in order. */
  lemma FillFromEmpty(a: VertexAttribute, b: VertexAttribute)
    requires a != b
    ensures FillUpdated([], a, true) == [a]
    ensures FillUpdated([a], b, true) == [a, b]
  {
  }

  lemma PlaneGridsUniform(width: real, height: real, sx: nat, sy: nat)
    ensures |Grid(PlanePosition(width, height, sx, sy), sx + 2, sy + 2)| == PlaneVertices(sx, sy) > 0
    ensures |Grid(PlaneUv(sx, sy), sx + 2, sy + 2)| == PlaneVertices(sx, sy)
    ensures Uniform(Grid(PlanePosition(width, height, sx, sy), sx + 2, sy + 2), Arity(Position))
    ensures Uniform(Grid(PlaneUv(sx, sy), sx + 2, sy + 2), Arity(Uv))
  {
    GridLength(PlanePosition(width, height, sx, sy), sx + 2, sy + 2);
    GridLength(PlaneUv(sx, sy), sx + 2, sy + 2);
    GridUniform(PlanePosition(width, height, sx, sy), sx + 2, sy + 2, 3, Grid(PlanePosition(width, height, sx, sy), sx + 2, sy + 2));
    GridUniform(PlaneUv(sx, sy), sx + 2, sy + 2, 2, Grid(PlaneUv(sx, sy), sx + 2, sy + 2));
  }

  /** The plane's data can be emitted for any list of its four kinds that starts
      with POSITION or UV: both have one entry per vertex, and NORMAL and COLOR
      are fill-enabled single elements. Every emitted vertex then carries the
      normal (0, 0, -1) and the plane's colour. */
  lemma PlaneEmission(width: real, height: real, sx: nat, sy: nat, color: Linear.Vec4,
                      kinds: seq<VertexAttribute>, xf: Mat4, i: nat, t: nat)
    requires |kinds| > 0 && kinds[0] in {Position, Uv}
    requires forall q :: 0 <= q < |kinds| ==> kinds[q] in {Position, Uv, Normal, Color}
    requires i < PlaneVertices(sx, sy) && t < |kinds| && kinds[t] in {Normal, Color}
    ensures Composable(PlaneAttributes(width, height, sx, sy, color), [Normal, Color], kinds)
    ensures Count(PlaneAttributes(width, height, sx, sy, color), kinds[0]) == PlaneVertices(sx, sy)
    ensures var c := Composed(PlaneAttributes(width, height, sx, sy, color), [Normal, Color], kinds, xf);
            var base := Slot(0, StrideFloats(kinds), i, Offset(kinds, t));
            base + Arity(kinds[t]) <= |c| &&
            c[base .. base + Arity(kinds[t])] == (if kinds[t] == Normal then [0.0, 0.0, -1.0] else ColorFloats(color))
  {
    var attrs := PlaneAttributes(width, height, sx, sy, color);
    var fill := [Normal, Color];
    PlaneCounts(width, height, sx, sy, color);
    assert Composable(attrs, fill, kinds);
    var e := if kinds[t] == Normal then [0.0, 0.0, -1.0] else ColorFloats(color);
    BroadcastSingle(attrs, fill, kinds, xf, i, t, e);
  }

  /** Element counts of the plane's stored kinds and its two single elements. */
  lemma PlaneCounts(width: real, height: real, sx: nat, sy: nat, color: Linear.Vec4)
    ensures var attrs := PlaneAttributes(width, height, sx, sy, color);
            && Count(attrs, Position) == PlaneVertices(sx, sy)
            && Count(attrs, Uv) == PlaneVertices(sx, sy)
            && Count(attrs, Normal) == 1 && Element(attrs, Normal, 0) == [0.0, 0.0, -1.0]
            && Count(attrs, Color) == 1 && Element(attrs, Color, 0) == ColorFloats(color)
  {
    var attrs := PlaneAttributes(width, height, sx, sy, color);
    PlaneGridsUniform(width, height, sx, sy);
    FlattenRoundTrip(attrs, Grid(PlanePosition(width, height, sx, sy), sx + 2, sy + 2), Position, 0);
    FlattenRoundTrip(attrs, Grid(PlaneUv(sx, sy), sx + 2, sy + 2), Uv, 0);
    FlattenRoundTrip(attrs, [[0.0, 0.0, -1.0]], Normal, 0);
    FlattenRoundTrip(attrs, [ColorFloats(color)], Color, 0);
  }

  // ---------------------------------------------------------------------------
  // `CreateRectBox` / `CreateCubeMesh`

  /** `TransformVector` on a list of points (`Base/MathExtension.cpp`). */
  function TransformVector(ps: seq<seq<real>>, m: Mat4): (r: seq<seq<real>>)
    requires Uniform(ps, 3)
    ensures |r| == |ps| && Uniform(r, 3)
  {
    seq(|ps|, i requires 0 <= i < |ps| => TransformPoint(m, ps[i]))
  }

  /** The outward normal of face `k` in the order the box is assembled: front,
      back, right, left, top, bottom. */
  function FaceNormal(k: nat): (n: seq<real>)
    requires k < 6
    ensures |n| == 3
  {
    match k
    case 0 => [0.0, 0.0, -1.0]
    case 1 => [0.0, 0.0, 1.0]
    case 2 => [1.0, 0.0, 0.0]
    case 3 => [-1.0, 0.0, 0.0]
    case 4 => [0.0, 1.0, 0.0]
    case 5 => [0.0, -1.0, 0.0]
  }

  /** The front face: the `width` by `height` plane moved to z = -depth/2. */
  function FrontFace(width: real, height: real, depth: real, sx: nat, sy: nat): (r: seq<seq<real>>)
    ensures |r| == PlaneVertices(sx, sy) && Uniform(r, 3)
  {
    PlaneGridsUniform(width, height, sx, sy);
    TransformVector(Grid(PlanePosition(width, height, sx, sy), sx + 2, sy + 2), Translate(0.0, 0.0, -depth / 2.0))
  }

  /** The right face: the `depth` by `height` plane turned a quarter around y and
      moved to x = width/2. */
  function RightFace(width: real, height: real, depth: real, sx: nat, sy: nat): (r: seq<seq<real>>)
    ensures |r| == PlaneVertices(sx, sy) && Uniform(r, 3)
  {
    PlaneGridsUniform(depth, height, sx, sy);
    TransformVector(Grid(PlanePosition(depth, height, sx, sy), sx + 2, sy + 2), Placed(RotateY(0.0, -1.0), width / 2.0, 0.0, 0.0))
  }

  /** The top face: the `width` by `depth` plane turned a quarter around x and
      moved to y = height/2. */
  function TopFace(width: real, height: real, depth: real, sx: nat, sy: nat): (r: seq<seq<real>>)
    ensures |r| == PlaneVertices(sx, sy) && Uniform(r, 3)
  {
    PlaneGridsUniform(width, depth, sx, sy);
    TransformVector(Grid(PlanePosition(width, depth, sx, sy), sx + 2, sy + 2), Placed(RotateX(0.0, 1.0), 0.0, height / 2.0, 0.0))
  }

  /** The box's positions in assembly order; the back, left and bottom faces are
      the front, right and top faces turned half around y, y and x. */
  function BoxPositions(width: real, height: real, depth: real, sx: nat, sy: nat): seq<seq<real>>
  {
    var front := FrontFace(width, height, depth, sx, sy);
    var right := RightFace(width, height, depth, sx, sy);
    var top := TopFace(width, height, depth, sx, sy);
    front + TransformVector(front, RotateY(-1.0, 0.0))
    + right + TransformVector(right, RotateY(-1.0, 0.0))
    + top + TransformVector(top, RotateX(-1.0, 0.0))
  }

  /** Face `k`'s normal repeated once per vertex of the face. */
  function NormalBlocks(v: nat): (blocks: seq<seq<seq<real>>>)
    ensures |blocks| == 6
  {
    seq(6, k requires 0 <= k < 6 => seq(v, _ => FaceNormal(k)))
  }

  function BoxNormals(v: nat): seq<seq<real>>
  {
    Flatten(NormalBlocks(v))
  }

  /** Texture coordinates of the six faces: every face reuses the plane's. */
  function BoxUvs(sx: nat, sy: nat): seq<seq<real>>
  {
    var uv := Grid(PlaneUv(sx, sy), sx + 2, sy + 2);
    uv + uv + uv + uv + uv + uv
  }

  /** Six copies of a face's index list `g` rebased as the assembly does with
      faces of `v` vertices: by one block for the second copy, by two blocks for
      the third and one more for the fourth, by four blocks for the fifth and one
      more for the sixth. */
  function SixFaces(g: seq<u32>, v: nat): seq<u32>
  {
    g + Rebased(g, v) + Rebased(g, v * 2) + Rebased(Rebased(g, v * 2), v)
    + Rebased(g, v * 2 + v * 2) + Rebased(Rebased(g, v * 2 + v * 2), v)
  }

  lemma SixFacesLength(g: seq<u32>, v: nat)
    ensures |SixFaces(g, v)| == 6 * |g|
  {
  }

  lemma SixFacesIs(g: seq<u32>, v: nat, i1: seq<u32>, i2: seq<u32>, i3: seq<u32>, i4: seq<u32>, i5: seq<u32>, o2: nat, o4: nat)
    requires o2 == v * 2 && o4 == v * 2 + v * 2
    requires i1 == Rebased(g, v) && i2 == Rebased(g, o2) && i3 == Rebased(i2, v)
    requires i4 == Rebased(g, o4) && i5 == Rebased(i4, v)
    ensures g + i1 + i2 + i3 + i4 + i5 == SixFaces(g, v)
  {
  }

  /** Copy `k` of `g` rebased onto vertex block `k`. */
  function FaceBlocks(g: seq<u32>, v: nat): (blocks: seq<seq<u32>>)
    ensures |blocks| == 6 && Uniform(blocks, |g|)
  {
    seq(6, k requires 0 <= k < 6 => Rebased(g, Times(k, v)))
  }

  lemma FlattenSix<T>(a: seq<T>, b: seq<T>, c: seq<T>, d: seq<T>, e: seq<T>, f: seq<T>)
    ensures Flatten([a, b, c, d, e, f]) == a + b + c + d + e + f
  {
    FlattenSingle(a);
    FlattenSnoc([a], b);
    assert [a] + [b] == [a, b];
    FlattenSnoc([a, b], c);
    assert [a, b] + [c] == [a, b, c];
    FlattenSnoc([a, b, c], d);
    assert [a, b, c] + [d] == [a, b, c, d];
    FlattenSnoc([a, b, c, d], e);
    assert [a, b, c, d] + [e] == [a, b, c, d, e];
    FlattenSnoc([a, b, c, d, e], f);
    assert [a, b, c, d, e] + [f] == [a, b, c, d, e, f];
  }

  /** The assembly's rebasing steps add up: copy `k` ends up rebased by `k` blocks. */
  lemma SixFacesBlocks(g: seq<u32>, v: nat)
    ensures SixFaces(g, v) == Flatten(FaceBlocks(g, v))
  {
    var r := [g, Rebased(g, v), Rebased(g, v * 2), Rebased(Rebased(g, v * 2), v),
              Rebased(g, v * 2 + v * 2), Rebased(Rebased(g, v * 2 + v * 2), v)];
    RebasedZero(g);
    RebasedTwice(g, v * 2, v);
    RebasedTwice(g, v * 2 + v * 2, v);
    TimesIsMul(3, v);
    TimesIsMul(5, v);
    assert FaceBlocks(g, v) == r;
    FlattenSix(r[0], r[1], r[2], r[3], r[4], r[5]);
  }

  /** Index `n` of copy `k` is the face's index `n` moved by `k` blocks. */
  lemma SixFacesAt(g: seq<u32>, v: nat, k: nat, n: nat)
    requires k < 6 && n < |g|
    ensures |SixFaces(g, v)| == Times(6, |g|)
    ensures Slot(0, |g|, k, n) < |SixFaces(g, v)|
    ensures SixFaces(g, v)[Slot(0, |g|, k, n)] == Wrap32(g[n] + Times(k, v))
  {
    SixFacesBlocks(g, v);
    FaceBlocksAt(g, v, k, n);
  }

  lemma FaceBlocksAt(g: seq<u32>, v: nat, k: nat, n: nat)
    requires k < 6 && n < |g|
    ensures |Flatten(FaceBlocks(g, v))| == Times(6, |g|)
    ensures Slot(0, |g|, k, n) < |Flatten(FaceBlocks(g, v))|
    ensures Flatten(FaceBlocks(g, v))[Slot(0, |g|, k, n)] == Wrap32(g[n] + Times(k, v))
  {
    var blocks := FaceBlocks(g, v);
    FlattenLength(blocks, |g|);
    FlattenAt(blocks, |g|, k, n);
    assert blocks[k] == Rebased(g, Times(k, v));
  }

  /** The box's indices: the plane's, once per face, rebased onto the face's
      vertex block. */
  function BoxIndices(sx: nat, sy: nat): seq<u32>
  {
    SixFaces(PlaneIndices(sx, sy, 0), PlaneVertices(sx, sy))
  }

  /** What `CreateRectBox` stores: six faces' positions, normals and texture
      coordinates, and one colour that is padded out on emission. */
  function BoxAttributes(width: real, height: real, depth: real, sx: nat, sy: nat, color: Linear.Vec4): Attributes
  {
    map[Position := Flatten(BoxPositions(width, height, depth, sx, sy)),
        Normal := Flatten(BoxNormals(PlaneVertices(sx, sy))),
        Uv := Flatten(BoxUvs(sx, sy)),
        Color := ColorFloats(color)]
  }

  /** Two uniform lists concatenate to a uniform list. */
  lemma UniformAppend<T>(a: seq<seq<T>>, b: seq<seq<T>>, n: nat)
    requires Uniform(a, n) && Uniform(b, n)
    ensures Uniform(a + b, n)
  {
    forall k | 0 <= k < |a + b|
      ensures |(a + b)[k]| == n
    {
      if k >= |a| {
        assert (a + b)[k] == b[k - |a|];
      }
    }
  }

  /** Six lists of `v` elements of size `n` concatenate to `6 * v` such elements. */
  lemma SixUniform<T>(a: seq<seq<T>>, b: seq<seq<T>>, c: seq<seq<T>>, d: seq<seq<T>>, e: seq<seq<T>>, f: seq<seq<T>>, v: nat, n: nat)
    requires |a| == |b| == |c| == |d| == |e| == |f| == v
    requires Uniform(a, n) && Uniform(b, n) && Uniform(c, n)
    requires Uniform(d, n) && Uniform(e, n) && Uniform(f, n)
    ensures |a + b + c + d + e + f| == Times(6, v)
    ensures Uniform(a + b + c + d + e + f, n)
  {
    TimesIsMul(6, v);
    UniformAppend(a, b, n);
    UniformAppend(a + b, c, n);
    UniformAppend(a + b + c, d, n);
    UniformAppend(a + b + c + d, e, n);
    UniformAppend(a + b + c + d + e, f, n);
  }

  /** The box has six faces' worth of positions, one point each. */
  lemma BoxPositionsUniform(width: real, height: real, depth: real, sx: nat, sy: nat)
    ensures |BoxPositions(width, height, depth, sx, sy)| == Times(6, PlaneVertices(sx, sy))
    ensures Uniform(BoxPositions(width, height, depth, sx, sy), 3)
  {
    var front := FrontFace(width, height, depth, sx, sy);
    var right := RightFace(width, height, depth, sx, sy);
    var top := TopFace(width, height, depth, sx, sy);
    SixUniform(front, TransformVector(front, RotateY(-1.0, 0.0)), right, TransformVector(right, RotateY(-1.0, 0.0)),
               top, TransformVector(top, RotateX(-1.0, 0.0)), PlaneVertices(sx, sy), 3);
  }

  /** The box has six faces' worth of texture coordinates, the plane's repeated. */
  lemma BoxUvsUniform(sx: nat, sy: nat)
    ensures |BoxUvs(sx, sy)| == Times(6, PlaneVertices(sx, sy))
    ensures Uniform(BoxUvs(sx, sy), 2)
  {
    var uv := Grid(PlaneUv(sx, sy), sx + 2, sy + 2);
    PlaneGridsUniform(1.0, 1.0, sx, sy);
    SixUniform(uv, uv, uv, uv, uv, uv, PlaneVertices(sx, sy), 2);
  }

  /** Vertex `j` of face `k` carries face `k`'s normal, and there are `6 * v` normals. */
  lemma BoxNormalAt(v: nat, k: nat, j: nat)
    requires k < 6 && j < v
    ensures |BoxNormals(v)| == Times(6, v) && Uniform(BoxNormals(v), 3)
    ensures Slot(0, v, k, j) < |BoxNormals(v)| && BoxNormals(v)[Slot(0, v, k, j)] == FaceNormal(k)
  {
    BoxNormalsUniform(v);
    FlattenAt(NormalBlocks(v), v, k, j);
  }

  lemma BoxNormalsUniform(v: nat)
    ensures |BoxNormals(v)| == Times(6, v) && Uniform(BoxNormals(v), 3)
  {
    var blocks := NormalBlocks(v);
    assert Uniform(blocks, v);
    FlattenLength(blocks, v);
    forall n | 0 <= n < |Flatten(blocks)|
      ensures |Flatten(blocks)[n]| == 3
    {
      var k, j := SlotOf(n, v, 6);
      FlattenAt(blocks, v, k, j);
    }
  }

  /** When the box's `6 * (sx + 2) * (sy + 2)` vertices are addressable with 32
      bits, face `k`'s indices all address face `k`'s own vertex block
      `[k * v, (k + 1) * v)`. */
  lemma BoxIndexRange(sx: nat, sy: nat, k: nat, n: nat)
    requires Times(6, PlaneVertices(sx, sy)) <= U32_LIMIT
    requires k < 6 && n < |PlaneIndices(sx, sy, 0)|
    ensures Slot(0, |PlaneIndices(sx, sy, 0)|, k, n) < |BoxIndices(sx, sy)|
    ensures Times(k, PlaneVertices(sx, sy))
         <= BoxIndices(sx, sy)[Slot(0, |PlaneIndices(sx, sy, 0)|, k, n)]
         < Times(k + 1, PlaneVertices(sx, sy))
  {
    PlaneIndexRange(sx, sy, 0);
    SixFacesRange(PlaneIndices(sx, sy, 0), PlaneVertices(sx, sy), k, n);
  }

  /** Face `k`'s copy of an index below `v` lands in block `k`. */
  lemma SixFacesRange(g: seq<u32>, v: nat, k: nat, n: nat)
    requires Times(6, v) <= U32_LIMIT
    requires k < 6 && n < |g| && g[n] < v
    ensures Slot(0, |g|, k, n) < |SixFaces(g, v)|
    ensures Times(k, v) <= SixFaces(g, v)[Slot(0, |g|, k, n)] < Times(k + 1, v)
  {
    SixFacesAt(g, v, k, n);
    TimesMonotone(k + 1, 6, v);
    assert Times(k + 1, v) == Times(k, v) + v;
    var x := g[n] as nat + Times(k, v);
    assert x < U32_LIMIT;
    assert SixFaces(g, v)[Slot(0, |g|, k, n)] == x;
  }

  /** A box has six planes' worth of indices, `6 * (sx + 1) * (sy + 1)` each. */
  lemma BoxIndexCount(sx: nat, sy: nat)
    ensures |PlaneIndices(sx, sy, 0)| == 6 * (sx + 1) * (sy + 1)
    ensures |BoxIndices(sx, sy)| == 6 * |PlaneIndices(sx, sy, 0)|
  {
    PlaneIndexCount(sx, sy, 0);
    SixFacesLength(PlaneIndices(sx, sy, 0), PlaneVertices(sx, sy));
  }

  /** `std::fill(first, last, value)` on a list of vectors. */
  function Fill(v: seq<seq<real>>, first: nat, last: nat, value: seq<real>): (r: seq<seq<real>>)
    requires first <= last <= |v|
    ensures |r| == |v|
  {
    v[..first] + seq(last - first, _ => value) + v[last..]
  }

  /** `r` is `v` with the entries in `[first, last)` replaced by `value`. */
  predicate FilledRange(r: seq<seq<real>>, v: seq<seq<real>>, first: nat, last: nat, value: seq<real>)
  {
    |r| == |v| &&
    forall i :: 0 <= i < |r| ==> r[i] == (if first <= i < last then value else v[i])
  }

  /** `Fill` replaces exactly the entries in `[first, last)` and keeps the rest. */
  lemma FillAt(v: seq<seq<real>>, first: nat, last: nat, value: seq<real>)
    requires first <= last <= |v|
    ensures FilledRange(Fill(v, first, last, value), v, first, last, value)
  {
  }

  /** The first `k` blocks of `v` entries hold the first `k` face normals. */
  predicate NormalsUpTo(normals: seq<seq<real>>, v: nat, k: nat)
    requires k <= 6
  {
    forall q, j :: 0 <= q < k && 0 <= j < v ==> Slot(0, v, q, j) < |normals| && normals[Slot(0, v, q, j)] == FaceNormal(q)
  }

  /** Filling block `k` with face `k`'s normal extends `NormalsUpTo` by one block. */
  lemma NormalsStep(normals: seq<seq<real>>, next: seq<seq<real>>, v: nat, k: nat, k': nat, first: nat, last: nat)
    requires k < 6 && k' == k + 1 && |normals| == 6 * v
    requires first == k * v && last == first + v
    requires last <= |normals| && next == Fill(normals, first, last, FaceNormal(k))
    requires NormalsUpTo(normals, v, k)
    ensures |next| == 6 * v && NormalsUpTo(next, v, k')
  {
    MulMonotone(k + 1, 6, v);
    TimesIsMul(k, v);
    TimesIsMul(6, v);
    FillAt(normals, first, last, FaceNormal(k));
    forall q, j | 0 <= q < k + 1 && 0 <= j < v
      ensures Slot(0, v, q, j) < |next| && next[Slot(0, v, q, j)] == FaceNormal(q)
    {
      TimesMonotone(q + 1, 6, v);
      if q < k {
        TimesMonotone(q + 1, k, v);
      }
    }
  }

  lemma NormalsComplete(normals: seq<seq<real>>, v: nat)
    requires |normals| == 6 * v
    requires NormalsUpTo(normals, v, 6)
    ensures normals == BoxNormals(v)
  {
    var blocks := NormalBlocks(v);
    assert Uniform(blocks, v);
    FlattenLength(blocks, v);
    TimesIsMul(6, v);
    forall n | 0 <= n < |normals|
      ensures normals[n] == Flatten(blocks)[n]
    {
      var k, j := SlotOf(n, v, 6);
      FlattenAt(blocks, v, k, j);
    }
  }

  /** The normals of a box with `v` vertices per face after its first `k` face
      blocks: the fill position is at block `k` and blocks `0` to `k - 1` hold
      their faces' normals. */
  predicate BoxFill(normals: seq<seq<real>>, normalIt: nat, v: nat, k: nat)
  {
    k <= 6 && |normals| == 6 * v && normalIt == k * v && NormalsUpTo(normals, v, k)
  }

  /** The vertex part of one face block of `CreateRectBox`: transforms the face's
      points in place, appends them and its texture coordinates, and fills the
      face's stretch of the normals with its normal, advancing the fill position
      past it. */
  method AppendFace(positions: seq<seq<real>>, uvs: seq<seq<real>>, normals: seq<seq<real>>, normalIt: nat,
                    face: seq<seq<real>>, faceUvs: seq<seq<real>>, xf: Mat4, normal: seq<real>, ghost k: nat, ghost v: nat)
    returns (positions': seq<seq<real>>, uvs': seq<seq<real>>, normals': seq<seq<real>>, normalIt': nat, face': seq<seq<real>>)
    requires Uniform(face, 3)
    requires normalIt + |face| <= |normals|
    ensures face' == TransformVector(face, xf) && |face'| == |face|
    ensures positions' == positions + face'
    ensures uvs' == uvs + faceUvs
    ensures normals' == Fill(normals, normalIt, normalIt + |face|, normal)
    ensures normalIt' == normalIt + |face|
    // as block `k` of a box whose faces have `v` vertices each
    ensures (k < 6 && |face| == v && normal == FaceNormal(k) && BoxFill(normals, normalIt, v, k)) ==>
              BoxFill(normals', normalIt', v, k + 1)
  {
    face' := TransformVector(face, xf);
    positions' := positions + face';
    uvs' := uvs + faceUvs;
    normals' := Fill(normals, normalIt, normalIt + |face'|, normal);
    normalIt' := normalIt + |face'|;
    if k < 6 && |face| == v && normal == FaceNormal(k) && BoxFill(normals, normalIt, v, k) {
      NormalsStep(normals, normals', v, k, k + 1, normalIt, normalIt');
    }
  }

  /** Two consecutive face blocks of `CreateRectBox` that share a plane: the face
      is placed by `place` and appended, then turned by `turn` and appended again,
      the second block filled with the `opposite` normal. */
  method AppendFacePair(positions: seq<seq<real>>, uvs: seq<seq<real>>, normals: seq<seq<real>>, normalIt: nat,
                        face: seq<seq<real>>, faceUvs: seq<seq<real>>, place: Mat4, turn: Mat4,
                        normal: seq<real>, opposite: seq<real>, ghost k: nat, ghost v: nat)
    returns (positions': seq<seq<real>>, uvs': seq<seq<real>>, normals': seq<seq<real>>, normalIt': nat,
             placed: seq<seq<real>>, turned: seq<seq<real>>)
    requires Uniform(face, 3)
    requires normalIt + |face| + |face| <= |normals|
    ensures placed == TransformVector(face, place) && turned == TransformVector(placed, turn)
    ensures positions' == positions + placed + turned
    ensures uvs' == uvs + faceUvs + faceUvs
    ensures normals' == Fill(Fill(normals, normalIt, normalIt + |face|, normal),
                             normalIt + |face|, normalIt + |face| + |face|, opposite)
    ensures normalIt' == normalIt + |face| + |face|
    ensures (k < 5 && |face| == v && normal == FaceNormal(k) && opposite == FaceNormal(k + 1) &&
             BoxFill(normals, normalIt, v, k)) ==> BoxFill(normals', normalIt', v, k + 2)
  {
    positions', uvs', normals', normalIt', placed := AppendFace(positions, uvs, normals, normalIt, face, faceUvs, place, normal, k, v);
    positions', uvs', normals', normalIt', turned := AppendFace(positions', uvs', normals', normalIt', placed, faceUvs, turn, opposite, k + 1, v);
  }

  /** The appending half of the vertex assembly: the three generated planes, each
      placed on its side of the box and then turned onto the opposite side, with
      the normal buffer filled face by face. */
  method AssembleBox(front: seq<seq<real>>, frontUvs: seq<seq<real>>, side: seq<seq<real>>, sideUvs: seq<seq<real>>,
                     top: seq<seq<real>>, topUvs: seq<seq<real>>, width: real, height: real, depth: real)
    returns (positions: seq<seq<real>>, normals: seq<seq<real>>, uvs: seq<seq<real>>)
    requires Uniform(front, 3) && Uniform(side, 3) && Uniform(top, 3)
    requires |side| == |front| && |top| == |front|
    ensures var f, r, t := TransformVector(front, Translate(0.0, 0.0, -depth / 2.0)),
                           TransformVector(side, Placed(RotateY(0.0, -1.0), width / 2.0, 0.0, 0.0)),
                           TransformVector(top, Placed(RotateX(0.0, 1.0), 0.0, height / 2.0, 0.0));
            positions == f + TransformVector(f, RotateY(-1.0, 0.0)) + r + TransformVector(r, RotateY(-1.0, 0.0))
                         + t + TransformVector(t, RotateX(-1.0, 0.0))
    ensures normals == BoxNormals(|front|)
    ensures uvs == frontUvs + frontUvs + sideUvs + sideUvs + topUvs + topUvs
  {
    ghost var v := |front|;
    positions := [];
    uvs := [];
    normals := seq(|front| * 2 + |side| * 2 + |top| * 2, _ => [0.0, 0.0, 0.0]);
    var normalIt: nat := 0;
    assert BoxFill(normals, normalIt, v, 0);
    var f, b, r, l, t, d;
    // front, then back
    positions, uvs, normals, normalIt, f, b :=
      AppendFacePair(positions, uvs, normals, normalIt, front, frontUvs,
                     Translate(0.0, 0.0, -depth / 2.0), RotateY(-1.0, 0.0), FaceNormal(0), FaceNormal(1), 0, v);
    assert positions == f + b && uvs == frontUvs + frontUvs;
    // right, then left
    positions, uvs, normals, normalIt, r, l :=
      AppendFacePair(positions, uvs, normals, normalIt, side, sideUvs,
                     Placed(RotateY(0.0, -1.0), width / 2.0, 0.0, 0.0), RotateY(-1.0, 0.0), FaceNormal(2), FaceNormal(3), 2, v);
    // top, then bottom
    positions, uvs, normals, normalIt, t, d :=
      AppendFacePair(positions, uvs, normals, normalIt, top, topUvs,
                     Placed(RotateX(0.0, 1.0), 0.0, height / 2.0, 0.0), RotateX(-1.0, 0.0), FaceNormal(4), FaceNormal(5), 4, v);
    NormalsComplete(normals, v);
  }

  /** The vertex buffers `CreateRectBox` assembles: the six faces' positions,
      normals and texture coordinates. */
  method BoxVertexData(width: real, height: real, depth: real, sx: nat, sy: nat)
    returns (positions: seq<seq<real>>, normals: seq<seq<real>>, uvs: seq<seq<real>>)
    ensures positions == BoxPositions(width, height, depth, sx, sy)
    ensures normals == BoxNormals(PlaneVertices(sx, sy))
    ensures uvs == BoxUvs(sx, sy)
  {
    var frontPositions, frontUvs := GeneratePlaneMeshVertexData(width, height, sx, sy);
    var sidePositions, sideUvs := GeneratePlaneMeshVertexData(depth, height, sx, sy);
    var topPositions, topUvs := GeneratePlaneMeshVertexData(width, depth, sx, sy);
    PlaneGridsUniform(width, height, sx, sy);
    PlaneGridsUniform(depth, height, sx, sy);
    PlaneGridsUniform(width, depth, sx, sy);
    positions, normals, uvs := AssembleBox(frontPositions, frontUvs, sidePositions, sideUvs, topPositions, topUvs, width, height, depth);
  }

  /** The index buffer `CreateRectBox` assembles from the three planes' index
      lists and the sizes of their position lists: the back face's indices are the
      front face's moved past the front face, the right face's are moved past front
      and back, the left face's past the right face as well, and so on. */
  method BoxIndexData(sx: nat, sy: nat, frontSize: nat, sideSize: nat, topSize: nat) returns (indices: seq<u32>)
    requires frontSize == sideSize == topSize == PlaneVertices(sx, sy)
    ensures indices == BoxIndices(sx, sy)
  {
    var frontIndices := GeneratePlaneMeshIndexData([], sx, sy, 0);
    var sideIndices := GeneratePlaneMeshIndexData([], sx, sy, 0);
    var topIndices := GeneratePlaneMeshIndexData([], sx, sy, 0);
    ghost var v := PlaneVertices(sx, sy);
    ghost var g := PlaneIndices(sx, sy, 0);
    assert [] + g == g;
    assert frontIndices == g && sideIndices == g && topIndices == g;
    indices := [];
    // front
    indices := indices + frontIndices;
    // back
    frontIndices := OffsetIndices(frontIndices, frontSize);
    indices := indices + frontIndices;
    ghost var i1 := frontIndices;
    // right
    sideIndices := OffsetIndices(sideIndices, frontSize * 2);
    indices := indices + sideIndices;
    ghost var i2 := sideIndices;
    // left
    sideIndices := OffsetIndices(sideIndices, sideSize);
    indices := indices + sideIndices;
    ghost var i3 := sideIndices;
    // top
    var topOffset := frontSize * 2 + sideSize * 2;
    topIndices := OffsetIndices(topIndices, topOffset);
    indices := indices + topIndices;
    ghost var i4 := topIndices;
    // bottom
    topIndices := OffsetIndices(topIndices, topSize);
    indices := indices + topIndices;
    SixFacesIs(g, v, i1, i2, i3, i4, topIndices, frontSize * 2, topOffset);
  }

  /** `CreateRectBox` */
  method CreateRectBox(width: real, height: real, depth: real, sx: nat, sy: nat, color: Linear.Vec4) returns (box: Mesh)
    ensures fresh(box) && box.Valid()
    ensures box.attributes == BoxAttributes(width, height, depth, sx, sy, color)
    ensures box.fill == [Color]
    ensures box.indices == BoxIndices(sx, sy)
  {
    var positions, normals, uvs := BoxVertexData(width, height, depth, sx, sy);
    PlaneGridsUniform(width, height, sx, sy);
    PlaneGridsUniform(depth, height, sx, sy);
    PlaneGridsUniform(width, depth, sx, sy);
    var indices := BoxIndexData(sx, sy, PlaneVertices(sx, sy), PlaneVertices(sx, sy), PlaneVertices(sx, sy));
    BoxPositionsUniform(width, height, depth, sx, sy);
    BoxNormalsUniform(PlaneVertices(sx, sy));
    BoxUvsUniform(sx, sy);
    PlaneGridsUniform(width, height, sx, sy);
    TimesIsMul(6, PlaneVertices(sx, sy));
    SingleUniform(ColorFloats(color));
    FillFromEmpty(Color, Position);
    FlattenSingle(ColorFloats(color));
    box := new Mesh();
    box.AddVertexAttribute(Position, positions);
    box.AddVertexAttribute(Normal, normals);
    box.AddVertexAttribute(Uv, uvs);
    box.AddVertexAttribute(Color, [ColorFloats(color)]);
    box.SetFillVertexAttribute(Color, true);
    box.SetIndices(indices);
  }

  /** Element counts of the box's stored kinds: `6 * v` positions, normals and
      texture coordinates, one colour. */
  lemma BoxCounts(width: real, height: real, depth: real, sx: nat, sy: nat, color: Linear.Vec4)
    ensures var attrs := BoxAttributes(width, height, depth, sx, sy, color);
            var n := Times(6, PlaneVertices(sx, sy));
            && Count(attrs, Position) == n && Count(attrs, Normal) == n && Count(attrs, Uv) == n
            && Count(attrs, Color) == 1 && Element(attrs, Color, 0) == ColorFloats(color)
  {
    var attrs := BoxAttributes(width, height, depth, sx, sy, color);
    BoxPositionsUniform(width, height, depth, sx, sy);
    BoxNormalsUniform(PlaneVertices(sx, sy));
    BoxUvsUniform(sx, sy);
    PlaneGridsUniform(width, height, sx, sy);
    TimesIsMul(6, PlaneVertices(sx, sy));
    FlattenRoundTrip(attrs, BoxPositions(width, height, depth, sx, sy), Position, 0);
    FlattenRoundTrip(attrs, BoxNormals(PlaneVertices(sx, sy)), Normal, 0);
    FlattenRoundTrip(attrs, BoxUvs(sx, sy), Uv, 0);
    FlattenSingle(ColorFloats(color));
    SingleUniform(ColorFloats(color));
    FlattenRoundTrip(attrs, [ColorFloats(color)], Color, 0);
  }

  /** Stored normal `k * v + j` of a box is face `k`'s outward normal. */
  lemma BoxFaceNormal(width: real, height: real, depth: real, sx: nat, sy: nat, color: Linear.Vec4, k: nat, j: nat)
    requires k < 6 && j < PlaneVertices(sx, sy)
    ensures var attrs := BoxAttributes(width, height, depth, sx, sy, color);
            Slot(0, PlaneVertices(sx, sy), k, j) < Count(attrs, Normal) &&
            Element(attrs, Normal, Slot(0, PlaneVertices(sx, sy), k, j)) == FaceNormal(k)
  {
    var attrs := BoxAttributes(width, height, depth, sx, sy, color);
    var v := PlaneVertices(sx, sy);
    BoxNormalAt(v, k, j);
    FlattenRoundTrip(attrs, BoxNormals(v), Normal, Slot(0, v, k, j));
  }

  /** `CreateCubeMesh(size)` is `CreateRectBox(size, size, size)`. */
  method CreateCubeMesh(size: real, sx: nat, sy: nat, color: Linear.Vec4) returns (cube: Mesh)
    ensures fresh(cube) && cube.Valid()
    ensures cube.attributes == BoxAttributes(size, size, size, sx, sy, color)
    ensures cube.fill == [Color]
    ensures cube.indices == BoxIndices(sx, sy)
  {
    cube := CreateRectBox(size, size, size, sx, sy, color);
  }
}
