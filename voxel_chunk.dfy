/** Surface meshing of a cubic voxel chunk: every solid voxel that is not buried
    (interior, with all six face-neighbours solid) is emitted as a translated unit
    cube through the mesh composer's cursor interface, in y-outer, z-middle,
    x-inner order, into buffers sized for the worst case and trimmed afterwards. */
module VoxelChunkModel {
  import opened Common
  import opened VertexTypes
  import opened Linear
  import opened MeshModel
  import opened MeshShapes
  import opened DenseGrid

  /** `glm::vec3`, the chunk's world position and a query point. */
  datatype Vec3 = Vec3(x: real, y: real, z: real)

  /** `glm::ivec3`, a voxel id. */
  datatype VoxelId = VoxelId(x: int, y: int, z: int)

  /** Grid coordinates of an emitted cube. */
  datatype Cube = Cube(x: nat, y: nat, z: nat)

  /** The kinds each cube is emitted with. */
  const CubeKinds: seq<VertexAttribute> := [Position, Color, Normal]

  /** The colour of the chunk's cube mesh. */
  const CubeColor: Linear.Vec4 := Linear.Vec4(0.3, 0.6, 0.0, 1.0)

  /** Vertices of the unsubdivided cube: six faces of 2x2. */
  const CUBE_VERTICES: nat := 24

  /** Indices of the unsubdivided cube: six faces of two triangles. */
  const CUBE_INDICES: nat := 36

  /** Floats of one emitted cube: 24 vertices of 3 + 4 + 3 floats. */
  const CUBE_FLOATS: nat := 240

  // ---------------------------------------------------------------------------
  // The unit cube

  /** A box can be emitted with `CubeKinds`: its positions and normals have the
      same count and its one colour is fill-enabled; a vertex takes 10 floats. */
  lemma BoxEmittable(size: real, sx: nat, sy: nat, color: Linear.Vec4)
    ensures Composable(BoxAttributes(size, size, size, sx, sy, color), [Color], CubeKinds)
    ensures Count(BoxAttributes(size, size, size, sx, sy, color), Position) == Times(6, PlaneVertices(sx, sy))
  {
    BoxCounts(size, size, size, sx, sy, color);
  }

  /** A cube vertex takes 12 + 16 + 12 bytes, 10 floats. */
  lemma CubeStride()
    ensures Stride(CubeKinds) == 40 && StrideFloats(CubeKinds) == 10
  {
    assert CubeKinds[..2] == [Position, Color];
    assert CubeKinds[..2][..1] == [Position];
    assert [Position][..0] == [];
  }

  /** When a box's vertices are addressable with 32 bits, every one of its indices
      addresses one of them. */
  lemma BoxIndicesBelow(sx: nat, sy: nat)
    requires Times(6, PlaneVertices(sx, sy)) <= U32_LIMIT
    ensures forall p :: 0 <= p < |BoxIndices(sx, sy)| ==> BoxIndices(sx, sy)[p] < Times(6, PlaneVertices(sx, sy))
  {
    var g := |PlaneIndices(sx, sy, 0)|;
    BoxIndexCount(sx, sy);
    TimesIsMul(6, g);
    forall p | 0 <= p < |BoxIndices(sx, sy)|
      ensures BoxIndices(sx, sy)[p] < Times(6, PlaneVertices(sx, sy))
    {
      var k, n := SlotOf(p, g, 6);
      BoxIndexRange(sx, sy, k, n);
      TimesMonotone(k + 1, 6, PlaneVertices(sx, sy));
    }
  }

  /** The unsubdivided cube has 24 vertices and 36 indices, each addressing one
      of the 24. */
  lemma CubeCounts()
    ensures PlaneVertices(0, 0) == 4 && Times(6, PlaneVertices(0, 0)) == CUBE_VERTICES
    ensures |BoxIndices(0, 0)| == CUBE_INDICES
    ensures forall p :: 0 <= p < |BoxIndices(0, 0)| ==> BoxIndices(0, 0)[p] < CUBE_VERTICES
  {
    BoxIndexCount(0, 0);
    BoxIndicesBelow(0, 0);
  }

  // ---------------------------------------------------------------------------
  // Culling

  /** The voxel at (x, y, z) of an `n x n x n` grid stored in `cells`. */
  function Voxel(cells: seq<u32>, n: nat, x: nat, y: nat, z: nat): u32
    requires |cells| == n * n * n && x < n && y < n && z < n
  {
    InBoundsIsSafe(x, y, z, n, n, n);
    cells[Index3(x, y, z, n, n)]
  }

  /** A voxel off every face of the grid. */
  predicate Interior(n: nat, x: nat, y: nat, z: nat)
  {
    0 < x && 0 < y && 0 < z && x + 1 < n && y + 1 < n && z + 1 < n
  }

  /** An interior voxel whose six face-neighbours are all solid. */
  predicate Buried(cells: seq<u32>, n: nat, x: nat, y: nat, z: nat)
    requires |cells| == n * n * n && Interior(n, x, y, z)
  {
    && Voxel(cells, n, x + 1, y, z) != 0 && Voxel(cells, n, x, y + 1, z) != 0
    && Voxel(cells, n, x, y, z + 1) != 0 && Voxel(cells, n, x - 1, y, z) != 0
    && Voxel(cells, n, x, y - 1, z) != 0 && Voxel(cells, n, x, y, z - 1) != 0
  }

  /** The voxel gets a cube: it is solid and not buried. */
  predicate Emits(cells: seq<u32>, n: nat, x: nat, y: nat, z: nat)
    requires |cells| == n * n * n && x < n && y < n && z < n
  {
    Voxel(cells, n, x, y, z) != 0 && !(Interior(n, x, y, z) && Buried(cells, n, x, y, z))
  }

  /** The culling decision for every coordinate of the chunk. */
  function Emitter(cells: seq<u32>, n: nat): (e: (nat, nat, nat) -> bool)
    requires |cells| == n * n * n
    ensures forall x: nat, y: nat, z: nat :: e(x, y, z) <==> x < n && y < n && z < n && Emits(cells, n, x, y, z)
  {
    (x: nat, y: nat, z: nat) => x < n && y < n && z < n && Emits(cells, n, x, y, z)
  }

  /** A position of the emission loops: layer y, row z, voxel x; a finished row
      is written as x == n and a finished layer as z == n. */
  predicate Cursor(n: nat, y: nat, z: nat, x: nat)
  {
    x <= n && z <= n && (z == n ==> x == 0)
  }

  /** The cubes emitted before the loops reach (y, z, x), in emission order. */
  function Visited(e: (nat, nat, nat) -> bool, n: nat, y: nat, z: nat, x: nat): seq<Cube>
    requires Cursor(n, y, z, x)
    decreases y, z, x
  {
    if x > 0 then Visited(e, n, y, z, x - 1) + (if e(x - 1, y, z) then [Cube(x - 1, y, z)] else [])
    else if z > 0 then Visited(e, n, y, z - 1, n)
    else if y > 0 then Visited(e, n, y - 1, n, 0)
    else []
  }

  /** Every cube the chunk emits, in emission order. */
  function VisibleCubes(cells: seq<u32>, n: nat): seq<Cube>
    requires |cells| == n * n * n
  {
    Visited(Emitter(cells, n), n, n, 0, 0)
  }

  /** `a` is visited before `b`: y first, then z, then x. */
  predicate Before(a: Cube, b: Cube)
  {
    a.y < b.y || (a.y == b.y && (a.z < b.z || (a.z == b.z && a.x < b.x)))
  }

  /** Each cube is visited before the next one. */
  predicate Ordered(s: seq<Cube>)
  {
    forall i :: 0 < i < |s| ==> Before(s[i - 1], s[i])
  }

  lemma BeforeTransitive(a: Cube, b: Cube, c: Cube)
    requires Before(a, b) && Before(b, c)
    ensures Before(a, c)
  {
  }

  /** In an ordered run every cube is visited before every later one, so no cube
      appears twice. */
  lemma {:induction false} OrderedStrict(s: seq<Cube>, i: nat, j: nat)
    requires Ordered(s) && i < j < |s|
    ensures Before(s[i], s[j]) && s[i] != s[j]
    decreases j - i
  {
    if i + 1 < j {
      OrderedStrict(s, i, j - 1);
      BeforeTransitive(s[i], s[j - 1], s[j]);
    }
  }

  /** Two ordered runs, the last cube of the first visited before the first cube
      of the second, concatenate to an ordered run. */
  lemma OrderedAppend(s: seq<Cube>, a: seq<Cube>, b: seq<Cube>)
    requires s == a + b
    requires Ordered(a) && Ordered(b)
    requires a != [] && b != [] ==> Before(a[|a| - 1], b[0])
    ensures Ordered(s)
  {
    forall i | 0 < i < |s|
      ensures Before(s[i - 1], s[i])
    {
      if i < |a| {
        assert s[i - 1] == a[i - 1] && s[i] == a[i];
      } else if i == |a| {
        assert s[i - 1] == a[|a| - 1] && s[i] == b[0];
      } else {
        assert s[i - 1] == b[i - 1 - |a|] && s[i] == b[i - |a|];
      }
    }
  }

  /** A cube has been emitted before (y, z, x) exactly when it lies in the chunk's
      rows, comes earlier in visiting order and its voxel emits. */
  lemma {:induction false} VisitedMember(e: (nat, nat, nat) -> bool, n: nat, y: nat, z: nat, x: nat, c: Cube)
    requires Cursor(n, y, z, x)
    ensures c in Visited(e, n, y, z, x) <==>
      c.x < n && c.z < n && Before(c, Cube(x, y, z)) && e(c.x, c.y, c.z)
    decreases y, z, x
  {
    if x > 0 {
      VisitedMember(e, n, y, z, x - 1, c);
    } else if z > 0 {
      VisitedMember(e, n, y, z - 1, n, c);
    } else if y > 0 {
      VisitedMember(e, n, y - 1, n, 0, c);
    }
  }

  /** The cubes come out in visiting order. */
  lemma {:induction false} VisitedOrdered(e: (nat, nat, nat) -> bool, n: nat, y: nat, z: nat, x: nat)
    requires Cursor(n, y, z, x)
    ensures Ordered(Visited(e, n, y, z, x))
    decreases y, z, x
  {
    if x > 0 {
      var init := Visited(e, n, y, z, x - 1);
      var last: seq<Cube> := if e(x - 1, y, z) then [Cube(x - 1, y, z)] else [];
      VisitedOrdered(e, n, y, z, x - 1);
      if init != [] && last != [] {
        VisitedMember(e, n, y, z, x - 1, init[|init| - 1]);
      }
      OrderedAppend(Visited(e, n, y, z, x), init, last);
    } else if z > 0 {
      VisitedOrdered(e, n, y, z - 1, n);
    } else if y > 0 {
      VisitedOrdered(e, n, y - 1, n, 0);
    }
  }

  /** At most one cube per voxel visited: `y` layers of `n * n`, `z` rows of `n`
      and `x` voxels. */
  lemma {:induction false} VisitedLength(e: (nat, nat, nat) -> bool, n: nat, y: nat, z: nat, x: nat)
    requires Cursor(n, y, z, x)
    ensures |Visited(e, n, y, z, x)| <= Times(y, Times(n, n)) + Times(z, n) + x
    decreases y, z, x
  {
    if x > 0 {
      VisitedLength(e, n, y, z, x - 1);
    } else if z > 0 {
      VisitedLength(e, n, y, z - 1, n);
    } else if y > 0 {
      VisitedLength(e, n, y - 1, n, 0);
    }
  }

  /** The chunk emits a cube for a voxel exactly when the voxel is solid and not
      buried: a zero voxel never, a solid voxel on a face of the grid always, an
      interior solid voxel unless all six neighbours are solid. */
  lemma VisibleMember(cells: seq<u32>, n: nat, x: nat, y: nat, z: nat)
    requires |cells| == n * n * n && x < n && y < n && z < n
    ensures Cube(x, y, z) in VisibleCubes(cells, n) <==> Emits(cells, n, x, y, z)
    ensures Voxel(cells, n, x, y, z) == 0 ==> Cube(x, y, z) !in VisibleCubes(cells, n)
    ensures Voxel(cells, n, x, y, z) != 0 && !Interior(n, x, y, z) ==> Cube(x, y, z) in VisibleCubes(cells, n)
    ensures Voxel(cells, n, x, y, z) != 0 && Interior(n, x, y, z) ==>
      (Cube(x, y, z) in VisibleCubes(cells, n) <==> !Buried(cells, n, x, y, z))
  {
    VisitedMember(Emitter(cells, n), n, n, 0, 0, Cube(x, y, z));
  }

  /** Every emitted cube lies inside the chunk. */
  lemma VisibleInside(cells: seq<u32>, n: nat, c: Cube)
    requires |cells| == n * n * n
    requires c in VisibleCubes(cells, n)
    ensures c.x < n && c.y < n && c.z < n
  {
    VisitedMember(Emitter(cells, n), n, n, 0, 0, c);
  }

  /** Each cube appears once, in y-outer, z-middle, x-inner order, and there are
      at most `n^3` of them. */
  lemma VisibleCubesOrdered(cells: seq<u32>, n: nat)
    requires |cells| == n * n * n
    ensures forall i, j :: 0 <= i < j < |VisibleCubes(cells, n)| ==>
      Before(VisibleCubes(cells, n)[i], VisibleCubes(cells, n)[j])
    ensures |VisibleCubes(cells, n)| <= n * n * n
  {
    var s := VisibleCubes(cells, n);
    VisitedOrdered(Emitter(cells, n), n, n, 0, 0);
    forall i, j | 0 <= i < j < |s|
      ensures Before(s[i], s[j])
    {
      OrderedStrict(s, i, j);
    }
    VisitedLength(Emitter(cells, n), n, n, 0, 0);
    Cubed(n);
  }

  lemma Cubed(n: nat)
    ensures Times(n, Times(n, n)) == n * n * n
  {
    TimesIsMul(n, n);
    TimesIsMul(n, n * n);
    assert n * (n * n) == n * n * n;
  }

  /** An all-zero chunk emits nothing. */
  lemma EmptyChunk(cells: seq<u32>, n: nat)
    requires |cells| == n * n * n
    requires forall i :: 0 <= i < |cells| ==> cells[i] == 0
    ensures VisibleCubes(cells, n) == []
  {
    if VisibleCubes(cells, n) != [] {
      var c := VisibleCubes(cells, n)[0];
      VisibleInside(cells, n, c);
      VisibleMember(cells, n, c.x, c.y, c.z);
      InBoundsIsSafe(c.x, c.y, c.z, n, n, n);
      assert false;
    }
  }

  /** A coordinate on one of the two faces of its axis. */
  predicate OnFace(n: nat, v: nat)
  {
    v == 0 || v + 1 == n
  }

  /** The emission decision of a fully solid chunk: every voxel off the interior. */
  ghost predicate SurfaceOnly(e: (nat, nat, nat) -> bool, n: nat)
  {
    forall x: nat, y: nat, z: nat :: e(x, y, z) <==> x < n && y < n && z < n && !Interior(n, x, y, z)
  }

  /** Surface voxels among the first `x` of row (y, z): the whole prefix on a face
      row, otherwise only the two end voxels. */
  function RowSurface(n: nat, y: nat, z: nat, x: nat): int
  {
    if OnFace(n, y) || OnFace(n, z) then x
    else if x == 0 then 0
    else if x < n then 1
    else 2
  }

  /** Surface voxels among the first `z` rows of layer y: whole rows on a face
      layer, otherwise two full face rows and two voxels per inner row. */
  function LayerSurface(n: nat, y: nat, z: nat): int
  {
    if OnFace(n, y) then z * n
    else if z == 0 then 0
    else if z < n then n + 2 * (z - 1)
    else 2 * n + 2 * (n - 2)
  }

  /** Surface voxels among the first `y` layers: n² per face layer and
      n² − (n − 2)² = 4n − 4 per inner layer. */
  function VolumeSurface(n: nat, y: nat): int
  {
    if y == 0 then 0
    else if y < n then n * n + (y - 1) * (4 * n - 4)
    else if n == 1 then 1
    else 2 * n * n + (n - 2) * (4 * n - 4)
  }

  lemma {:induction false} SurfaceRow(e: (nat, nat, nat) -> bool, n: nat, y: nat, z: nat, x: nat)
    requires SurfaceOnly(e, n) && y < n && z < n && x <= n
    ensures |Visited(e, n, y, z, x)| == |Visited(e, n, y, z, 0)| + RowSurface(n, y, z, x)
  {
    if x > 0 {
      SurfaceRow(e, n, y, z, x - 1);
      assert e(x - 1, y, z) <==> !Interior(n, x - 1, y, z);
    }
  }

  lemma {:induction false} SurfaceLayer(e: (nat, nat, nat) -> bool, n: nat, y: nat, z: nat)
    requires SurfaceOnly(e, n) && y < n && z <= n
    ensures |Visited(e, n, y, z, 0)| == |Visited(e, n, y, 0, 0)| + LayerSurface(n, y, z)
  {
    if z > 0 {
      SurfaceLayer(e, n, y, z - 1);
      SurfaceRow(e, n, y, z - 1, n);
      var row := RowSurface(n, y, z - 1, n);
      if OnFace(n, y) {
        assert row == n;
        assert LayerSurface(n, y, z - 1) + row == z * n by {
          MulMonotone(z - 1, z, n);
        }
      } else if z == 1 {
        assert row == n;
      } else if z < n {
        assert row == 2;
      } else {
        assert row == n;
        assert LayerSurface(n, y, z - 1) == n + 2 * (n - 2);
      }
    }
  }

  lemma {:induction false} SurfaceVolume(e: (nat, nat, nat) -> bool, n: nat, y: nat)
    requires SurfaceOnly(e, n) && y <= n
    ensures |Visited(e, n, y, 0, 0)| == VolumeSurface(n, y)
  {
    if y > 0 {
      SurfaceVolume(e, n, y - 1);
      SurfaceLayer(e, n, y - 1, n);
      assert LayerSurface(n, y - 1, n) == if OnFace(n, y - 1) then n * n else 4 * n - 4;
      if 1 < y < n {
        assert (y - 2) * (4 * n - 4) + (4 * n - 4) == (y - 1) * (4 * n - 4);
      } else if y == n && n > 2 {
        assert (n - 3) * (4 * n - 4) + (4 * n - 4) == (n - 2) * (4 * n - 4);
      }
    }
  }

  /** 2n² + (n − 2)(4n − 4) is n³ − (n − 2)³. */
  lemma ShellVolume(n: int)
    ensures 2 * n * n + (n - 2) * (4 * n - 4) == n * n * n - (n - 2) * (n - 2) * (n - 2)
  {
    var m := n - 2;
    assert n * n * n == (m + 2) * (m + 2) * (m + 2);
    assert (m + 2) * (m + 2) * (m + 2) == m * m * m + 6 * m * m + 12 * m + 8;
  }

  /** In a chunk solid in every voxel, a voxel emits exactly when it lies off the
      interior. */
  lemma SolidEmitsSurface(cells: seq<u32>, n: nat, x: nat, y: nat, z: nat)
    requires |cells| == n * n * n && x < n && y < n && z < n
    requires forall i :: 0 <= i < |cells| ==> cells[i] != 0
    ensures Emits(cells, n, x, y, z) <==> !Interior(n, x, y, z)
  {
    InBoundsIsSafe(x, y, z, n, n, n);
    if Interior(n, x, y, z) {
      InBoundsIsSafe(x + 1, y, z, n, n, n);
      InBoundsIsSafe(x, y + 1, z, n, n, n);
      InBoundsIsSafe(x, y, z + 1, n, n, n);
      InBoundsIsSafe(x - 1, y, z, n, n, n);
      InBoundsIsSafe(x, y - 1, z, n, n, n);
      InBoundsIsSafe(x, y, z - 1, n, n, n);
    }
  }

  /** A chunk solid in every voxel emits exactly its surface: n³ − (n − 2)³ cubes
      once n ≥ 2, and one cube for a single voxel. */
  lemma SolidChunk(cells: seq<u32>, n: nat)
    requires |cells| == n * n * n
    requires forall i :: 0 <= i < |cells| ==> cells[i] != 0
    ensures |VisibleCubes(cells, n)| == if n < 2 then n else n * n * n - (n - 2) * (n - 2) * (n - 2)
    ensures forall x: nat, y: nat, z: nat :: x < n && y < n && z < n ==>
      (Cube(x, y, z) in VisibleCubes(cells, n) <==> !Interior(n, x, y, z))
  {
    var e := Emitter(cells, n);
    forall x: nat, y: nat, z: nat
      ensures e(x, y, z) <==> x < n && y < n && z < n && !Interior(n, x, y, z)
    {
      if x < n && y < n && z < n {
        SolidEmitsSurface(cells, n, x, y, z);
      }
    }
    SurfaceVolume(e, n, n);
    if n >= 2 {
      ShellVolume(n);
    }
    forall x: nat, y: nat, z: nat | x < n && y < n && z < n
      ensures Cube(x, y, z) in VisibleCubes(cells, n) <==> !Interior(n, x, y, z)
    {
      VisibleMember(cells, n, x, y, z);
      SolidEmitsSurface(cells, n, x, y, z);
    }
  }

  // ---------------------------------------------------------------------------
  // The emitted buffers

  /** The attributes of the chunk's cube mesh, an unsubdivided unit box. */
  function CubeAttributes(): (attrs: Attributes)
    ensures Composable(attrs, [Color], CubeKinds)
  {
    BoxEmittable(1.0, 0, 0, CubeColor);
    BoxAttributes(1.0, 1.0, 1.0, 0, 0, CubeColor)
  }

  /** The cube mesh can be emitted with `CubeKinds`: 24 vertices of 10 floats,
      36 indices. */
  lemma CubeEmission()
    ensures Composable(CubeAttributes(), [Color], CubeKinds)
    ensures Count(CubeAttributes(), Position) == CUBE_VERTICES
    ensures StrideFloats(CubeKinds) == 10 && Stride(CubeKinds) == 40
    ensures |BoxIndices(0, 0)| == CUBE_INDICES
    ensures Times(CUBE_VERTICES, 10) == CUBE_FLOATS
  {
    BoxEmittable(1.0, 0, 0, CubeColor);
    CubeCounts();
    CubeStride();
    TimesIsMul(CUBE_VERTICES, 10);
  }

  /** The translation the cube of voxel `c` is emitted with: to the voxel's
      centre, offset by the chunk's position. */
  function CubeTransform(position: Vec3, c: Cube): Mat4
  {
    Translate(c.x as real + position.x + 0.5, c.y as real + position.y + 0.5, c.z as real + position.z + 0.5)
  }

  /** Floats one cube of mesh attributes `attrs` takes. */
  function CubeSize(attrs: Attributes): nat
  {
    Times(Count(attrs, Position), StrideFloats(CubeKinds))
  }

  /** The floats the cube mesh `attrs` contributes for voxel `c`. */
  function CubeFloats(attrs: Attributes, position: Vec3, c: Cube): (r: seq<real>)
    requires Composable(attrs, [Color], CubeKinds)
    ensures |r| == CubeSize(attrs)
  {
    Composed(attrs, [Color], CubeKinds, CubeTransform(position, c))
  }

  /** Each cube's floats, one block per cube. */
  function CubeBlocks(attrs: Attributes, cubes: seq<Cube>, position: Vec3): (blocks: seq<seq<real>>)
    requires Composable(attrs, [Color], CubeKinds)
    ensures |blocks| == |cubes| && Uniform(blocks, CubeSize(attrs))
  {
    seq(|cubes|, i requires 0 <= i < |cubes| => CubeFloats(attrs, position, cubes[i]))
  }

  /** The vertex buffer after emitting `cubes`: each cube's floats, in order. */
  function VertexStream(attrs: Attributes, cubes: seq<Cube>, position: Vec3): seq<real>
    requires Composable(attrs, [Color], CubeKinds)
  {
    Flatten(CubeBlocks(attrs, cubes, position))
  }

  /** The index buffer after emitting `count` cubes of index list `g` and `v`
      vertices each: the k-th copy of `g` is rebased by `k * v`, truncated to
      32 bits as the offset parameter is. */
  function IndexStream(g: seq<u32>, v: nat, count: nat): (r: seq<u32>)
    ensures |r| == Times(count, |g|)
  {
    if count == 0 then []
    else IndexStream(g, v, count - 1) + Rebased(g, Wrap32(Times(count - 1, v)))
  }

  /** Emitting one more cube appends exactly its floats. */
  lemma VertexStreamAppend(attrs: Attributes, cubes: seq<Cube>, c: Cube, position: Vec3)
    requires Composable(attrs, [Color], CubeKinds)
    ensures VertexStream(attrs, cubes + [c], position) == VertexStream(attrs, cubes, position) + CubeFloats(attrs, position, c)
  {
    var blocks := CubeBlocks(attrs, cubes + [c], position);
    assert blocks[..|cubes|] == CubeBlocks(attrs, cubes, position);
  }

  /** Cube `k`'s block of the vertex stream holds exactly that cube's floats, and
      the stream holds `CubeSize` floats per cube. */
  lemma VertexStreamBlock(attrs: Attributes, cubes: seq<Cube>, position: Vec3, k: nat)
    requires Composable(attrs, [Color], CubeKinds)
    requires k < |cubes|
    ensures |VertexStream(attrs, cubes, position)| == Times(|cubes|, CubeSize(attrs))
    ensures Times(k, CubeSize(attrs)) + CubeSize(attrs) <= |VertexStream(attrs, cubes, position)|
    ensures VertexStream(attrs, cubes, position)[Times(k, CubeSize(attrs)) .. Times(k, CubeSize(attrs)) + CubeSize(attrs)]
         == CubeFloats(attrs, position, cubes[k])
  {
    FlattenElement(CubeBlocks(attrs, cubes, position), CubeSize(attrs), k);
  }

  /** Copy `k` of the index list addresses copy `k` of the vertices, as long as
      the offsets stay below 2^32. */
  lemma {:induction false} IndexStreamBlock(g: seq<u32>, v: nat, count: nat, k: nat, p: nat)
    requires k < count && Times(count, v) <= U32_LIMIT
    requires p < |g| && g[p] < v
    ensures Slot(0, |g|, k, p) < |IndexStream(g, v, count)|
    ensures Times(k, v) <= IndexStream(g, v, count)[Slot(0, |g|, k, p)] < Times(k + 1, v)
  {
    var pre := IndexStream(g, v, count - 1);
    if k < count - 1 {
      IndexStreamBlock(g, v, count - 1, k, p);
      TimesMonotone(k + 1, count - 1, |g|);
      TimesMonotone(count - 1, count, v);
    } else {
      TimesMonotone(k + 1, count, v);
      assert Rebased(g, Wrap32(Times(k, v)))[p] == Wrap32(g[p] + Times(k, v));
    }
  }

  /** Every index of the stream addresses a vertex the stream's cubes hold:
      below `count * v`. */
  lemma IndexStreamBelow(g: seq<u32>, v: nat, count: nat)
    requires Times(count, v) <= U32_LIMIT
    requires forall p :: 0 <= p < |g| ==> g[p] < v
    ensures forall i :: 0 <= i < |IndexStream(g, v, count)| ==> IndexStream(g, v, count)[i] < Times(count, v)
  {
    forall i | 0 <= i < |IndexStream(g, v, count)|
      ensures IndexStream(g, v, count)[i] < Times(count, v)
    {
      var k, p := SlotOf(i, |g|, count);
      IndexStreamBlock(g, v, count, k, p);
      TimesMonotone(k + 1, count, v);
    }
  }

  /** A cursor inside the chunk has fewer voxels before it than the chunk has. */
  lemma CursorInside(n: nat, y: nat, z: nat, x: nat)
    requires x < n && y < n && z < n
    ensures Times(y, Times(n, n)) + Times(z, n) + x < Times(n, Times(n, n)) == n * n * n
  {
    TimesMonotone(z + 1, n, n);
    TimesMonotone(y + 1, n, Times(n, n));
    Cubed(n);
  }

  /** A buffer with room for `s` items per voxel of the chunk has room for one
      more cube's items after `count` cubes emitted before the cursor. */
  lemma RoomForCube(n: nat, y: nat, z: nat, x: nat, count: nat, s: nat)
    requires x < n && y < n && z < n
    requires count <= Times(y, Times(n, n)) + Times(z, n) + x
    ensures Times(count + 1, s) <= Times(Times(n, Times(n, n)), s)
  {
    CursorInside(n, y, z, x);
    TimesMonotone(count + 1, Times(n, Times(n, n)), s);
  }

  /** `k` items for each voxel of an `n`-cube, counted either way round. */
  lemma PerVoxel(n: nat, k: nat)
    ensures n * n * n * k == k * n * n * n == Times(Times(n, Times(n, n)), k)
  {
    Cubed(n);
    TimesIsMul(n * n * n, k);
    MulAssoc(k, n, n);
    MulAssoc(k, n * n, n);
    assert k * n * n * n == (n * n * n) * k;
  }

  /** `GetVoxel`'s clamp of one axis: `min(max(v, 0), extent - 1)`, where
      `extent - 1` is taken as a signed value (-1 for an empty axis). A coordinate
      inside the axis is kept, one below it goes to 0, one above it to the last
      cell. */
  function ClampAxis(v: int, extent: nat): (r: int)
    ensures extent > 0 ==> 0 <= r < extent
    ensures 0 <= v < extent ==> r == v
    ensures extent > 0 && v < 0 ==> r == 0
    ensures v >= extent ==> r == extent - 1
  {
    var low := if v < 0 then 0 else v;
    if extent - 1 < low then extent - 1 else low
  }

  /** The vertex buffer holds the floats of the cubes `emitted` and the write
      cursor stands right after them. */
  ghost predicate VerticesEmitted(vbuf: array<real>, attrs: Attributes, position: Vec3, emitted: seq<Cube>, writePos: nat)
    reads vbuf
  {
    && Composable(attrs, [Color], CubeKinds)
    && writePos == Times(|emitted|, CubeSize(attrs)) && writePos <= vbuf.Length
    && vbuf[..writePos] == VertexStream(attrs, emitted, position)
  }

  /** The index buffer holds `count` rebased copies of the index list `g` and the
      write cursor stands right after them. */
  ghost predicate IndicesEmitted(ibuf: array<u32>, g: seq<u32>, v: nat, count: nat, indexWritePos: nat)
    reads ibuf
  {
    && indexWritePos == Times(count, |g|) && indexWritePos <= ibuf.Length
    && ibuf[..indexWritePos] == IndexStream(g, v, count)
  }

  /** What the emission loops have produced for the cubes `emitted`: both buffers
      hold their streams, the counters equal the cursors, and the vertex offset
      has advanced by the cube mesh's vertex count per cube. */
  ghost predicate Emitted(vbuf: array<real>, ibuf: array<u32>, attrs: Attributes, g: seq<u32>, position: Vec3,
                          emitted: seq<Cube>, writePos: nat, indexWritePos: nat, vertexOffset: nat,
                          vertexCount: nat, indexCount: nat)
    reads vbuf, ibuf
  {
    && VerticesEmitted(vbuf, attrs, position, emitted, writePos)
    && IndicesEmitted(ibuf, g, Count(attrs, Position), |emitted|, indexWritePos)
    && vertexCount == writePos && indexCount == indexWritePos
    && vertexOffset == Times(|emitted|, Count(attrs, Position))
  }

  /** A voxel chunk: a grid of voxel values placed at `position`, and the vertex
      and index buffers of its surface mesh. */
  class VoxelChunk {
    var voxelData: Array3D<u32>
    var position: Vec3
    var vertices: seq<real>
    var indices: seq<u32>

    /** The grid holds its cells. */
    ghost predicate Valid()
      reads this, voxelData
    {
      voxelData.Valid()
    }

    /** The grid is as wide and high as it is deep: the shape `GenerateMesh`
        meshes whole, since all three of its loops run to `GetDepth()`. */
    ghost predicate Cubic()
      reads this, voxelData
    {
      voxelData.width == voxelData.height == voxelData.depth
    }

    /** The voxel values, in the grid's flat order. */
    function Cells(): (cells: seq<u32>)
      reads this, voxelData, voxelData.data
      requires Valid()
      ensures |cells| == voxelData.width * voxelData.height * voxelData.depth
    {
      voxelData.data[..]
    }

    /** Copies the voxel grid; the buffers start empty. */
    constructor (data: Array3D<u32>, position: Vec3)
      requires data.Valid()
      ensures Valid() && fresh(voxelData) && fresh(voxelData.data)
      ensures voxelData.width == data.width && voxelData.height == data.height && voxelData.depth == data.depth
      ensures voxelData.data[..] == data.data[..]
      ensures this.position == position && vertices == [] && indices == []
    {
      voxelData := new Array3D.CopyOf(data);
      this.position := position;
      vertices := [];
      indices := [];
      assert data.data[..data.width * data.height * data.depth] == data.data[..];
    }

    /** One emission branch of `GenerateMesh`: counts the cube's floats and
        indices, writes its vertices and indices, and advances the vertex offset
        by the cube mesh's vertex count. */
    method EmitCube(cubeMesh: Mesh, ghost attrs: Attributes, ghost g: seq<u32>,
                    vbuf: array<real>, ibuf: array<u32>, cubeDataSize: nat, c: Cube,
                    ghost emitted: seq<Cube>, writePos: nat, indexWritePos: nat, vertexOffset: nat,
                    vertexCount: nat, indexCount: nat)
      returns (writePos': nat, indexWritePos': nat, vertexOffset': nat, vertexCount': nat, indexCount': nat)
      requires attrs == cubeMesh.attributes && g == cubeMesh.indices
      requires cubeMesh.fill == [Color] && cubeDataSize == CubeSize(attrs)
      requires Emitted(vbuf, ibuf, attrs, g, position, emitted,
                       writePos, indexWritePos, vertexOffset, vertexCount, indexCount)
      requires Times(|emitted| + 1, CubeSize(attrs)) <= vbuf.Length
      requires Times(|emitted| + 1, |g|) <= ibuf.Length
      modifies vbuf, ibuf
      ensures Emitted(vbuf, ibuf, attrs, g, position, emitted + [c],
                      writePos', indexWritePos', vertexOffset', vertexCount', indexCount')
    {
      ghost var v, n := Count(attrs, Position), |emitted|;
      assert Times(n + 1, cubeDataSize) == writePos + cubeDataSize;
      assert Times(n + 1, |g|) == indexWritePos + |g|;
      vertexCount' := vertexCount + cubeDataSize;
      indexCount' := indexCount + cubeMesh.GetIndexCount();
      writePos' := EmitVertices(cubeMesh, vbuf, c, emitted, writePos);
      assert IndicesEmitted(ibuf, g, v, n, indexWritePos);
      indexWritePos' := EmitIndices(cubeMesh, ibuf, vertexOffset, n, indexWritePos);
      assert VerticesEmitted(vbuf, attrs, position, emitted + [c], writePos');
      vertexOffset' := vertexOffset + cubeMesh.GetVertexCount(CubeKinds);
      assert vertexOffset' == Times(n + 1, v);
    }

    /** The vertex half of an emission: the cube mesh's vertices translated to the
        centre of voxel `c`, offset by the chunk's position, written at the cursor. */
    method EmitVertices(cubeMesh: Mesh, vbuf: array<real>, c: Cube, ghost emitted: seq<Cube>, writePos: nat)
      returns (writePos': nat)
      requires cubeMesh.fill == [Color]
      requires VerticesEmitted(vbuf, cubeMesh.attributes, position, emitted, writePos)
      requires writePos + CubeSize(cubeMesh.attributes) <= vbuf.Length
      modifies vbuf
      ensures VerticesEmitted(vbuf, cubeMesh.attributes, position, emitted + [c], writePos')
    {
      ghost var attrs := cubeMesh.attributes;
      TimesIsMul(Count(attrs, Position), StrideFloats(CubeKinds));
      var translation := Translate(c.x as real + position.x + 0.5, c.y as real + position.y + 0.5, c.z as real + position.z + 0.5);
      ghost var stream, floats := VertexStream(attrs, emitted, position), CubeFloats(attrs, position, c);
      assert translation == CubeTransform(position, c);
      writePos' := cubeMesh.CreateVerticesAt(CubeKinds, vbuf, writePos, translation);
      assert vbuf[..writePos] == stream;
      assert vbuf[writePos..writePos'] == floats;
      VertexStreamAppend(attrs, emitted, c, position);
      assert vbuf[..writePos'] == stream + floats by {
        assert vbuf[..writePos'] == vbuf[..writePos] + vbuf[writePos..writePos'];
      }
    }

    /** The index half of an emission: the cube mesh's indices rebased by the
        vertex offset, passed as a 32-bit parameter, written at the cursor. */
    method EmitIndices(cubeMesh: Mesh, ibuf: array<u32>, vertexOffset: nat, ghost count: nat, indexWritePos: nat)
      returns (indexWritePos': nat)
      requires vertexOffset == Times(count, Count(cubeMesh.attributes, Position))
      requires IndicesEmitted(ibuf, cubeMesh.indices, Count(cubeMesh.attributes, Position), count, indexWritePos)
      requires indexWritePos + |cubeMesh.indices| <= ibuf.Length
      modifies ibuf
      ensures IndicesEmitted(ibuf, cubeMesh.indices, Count(cubeMesh.attributes, Position), count + 1, indexWritePos')
    {
      ghost var g, v := cubeMesh.indices, Count(cubeMesh.attributes, Position);
      ghost var stream := IndexStream(g, v, count);
      indexWritePos' := cubeMesh.GetIndicesAt(Wrap32(vertexOffset), ibuf, indexWritePos);
      assert ibuf[..indexWritePos] == stream;
      assert ibuf[..indexWritePos'] == stream + Rebased(g, Wrap32(vertexOffset)) by {
        assert ibuf[..indexWritePos'] == ibuf[..indexWritePos] + ibuf[indexWritePos..indexWritePos'];
      }
    }

    /** Reading a voxel through the grid yields the chunk's voxel at (x, y, z). */
    lemma VoxelRead(x: nat, y: nat, z: nat)
      requires Valid() && Cubic() && x < voxelData.depth && y < voxelData.depth && z < voxelData.depth
      ensures voxelData.Chained(x, y, z) == Voxel(Cells(), voxelData.depth, x, y, z)
    {
    }

    /** The tests `GenerateMesh` makes on voxel (x, y, z), through the grid, decide
        exactly the culling rule: emit a solid voxel unless it is interior with six
        solid face-neighbours. */
    lemma EmitTest(x: nat, y: nat, z: nat)
      requires Valid() && Cubic() && x < voxelData.depth && y < voxelData.depth && z < voxelData.depth
      ensures Emits(Cells(), voxelData.depth, x, y, z) <==>
        voxelData.Chained(x, y, z) != 0 &&
        (!(x != 0 && y != 0 && z != 0 && x != voxelData.GetWidth() - 1 && y != voxelData.GetHeight() - 1 && z != voxelData.GetDepth() - 1) ||
         !(voxelData.Chained(x + 1, y, z) != 0 && voxelData.Chained(x, y + 1, z) != 0 && voxelData.Chained(x, y, z + 1) != 0
           && voxelData.Chained(x - 1, y, z) != 0 && voxelData.Chained(x, y - 1, z) != 0 && voxelData.Chained(x, y, z - 1) != 0))
    {
      var n := voxelData.depth;
      VoxelRead(x, y, z);
      if Interior(n, x, y, z) {
        VoxelRead(x + 1, y, z);
        VoxelRead(x, y + 1, z);
        VoxelRead(x, y, z + 1);
        VoxelRead(x - 1, y, z);
        VoxelRead(x, y - 1, z);
        VoxelRead(x, y, z - 1);
      }
    }

    /** The body of `GenerateMesh`'s x loop at voxel (x, y, z): a zero voxel is
        skipped; a solid voxel on a face of the grid is emitted; an interior solid
        voxel is emitted unless its six face-neighbours are all solid. */
    method EmitVoxel(cubeMesh: Mesh, ghost attrs: Attributes, ghost g: seq<u32>,
                     vbuf: array<real>, ibuf: array<u32>, cubeDataSize: nat, x: nat, y: nat, z: nat,
                     ghost cells: seq<u32>, ghost emitted: seq<Cube>, writePos: nat, indexWritePos: nat, vertexOffset: nat,
                     vertexCount: nat, indexCount: nat)
      returns (writePos': nat, indexWritePos': nat, vertexOffset': nat, vertexCount': nat, indexCount': nat,
               ghost emitted': seq<Cube>)
      requires Valid() && Cubic() && ibuf != voxelData.data && cells == Cells()
      requires x < voxelData.depth && y < voxelData.depth && z < voxelData.depth
      requires attrs == cubeMesh.attributes && g == cubeMesh.indices
      requires cubeMesh.fill == [Color] && cubeDataSize == CubeSize(attrs)
      requires Emitted(vbuf, ibuf, attrs, g, position, emitted,
                       writePos, indexWritePos, vertexOffset, vertexCount, indexCount)
      requires Times(|emitted| + 1, CubeSize(attrs)) <= vbuf.Length
      requires Times(|emitted| + 1, |g|) <= ibuf.Length
      modifies vbuf, ibuf
      ensures emitted' == emitted + if Emits(cells, voxelData.depth, x, y, z) then [Cube(x, y, z)] else []
      ensures Emitted(vbuf, ibuf, attrs, g, position, emitted',
                      writePos', indexWritePos', vertexOffset', vertexCount', indexCount')
    {
      writePos', indexWritePos', vertexOffset', vertexCount', indexCount' := writePos, indexWritePos, vertexOffset, vertexCount, indexCount;
      emitted' := emitted;
      EmitTest(x, y, z);
      if voxelData.Chained(x, y, z) != 0 {
        if x != 0 && y != 0 && z != 0 && x != voxelData.GetWidth() - 1 && y != voxelData.GetHeight() - 1 && z != voxelData.GetDepth() - 1 {
          if voxelData.Chained(x + 1, y, z) != 0 && voxelData.Chained(x, y + 1, z) != 0 && voxelData.Chained(x, y, z + 1) != 0
             && voxelData.Chained(x - 1, y, z) != 0 && voxelData.Chained(x, y - 1, z) != 0 && voxelData.Chained(x, y, z - 1) != 0
          {
          } else {
            writePos', indexWritePos', vertexOffset', vertexCount', indexCount' :=
              EmitCube(cubeMesh, attrs, g, vbuf, ibuf, cubeDataSize, Cube(x, y, z), emitted,
                       writePos, indexWritePos, vertexOffset, vertexCount, indexCount);
            emitted' := emitted + [Cube(x, y, z)];
          }
        } else {
          writePos', indexWritePos', vertexOffset', vertexCount', indexCount' :=
            EmitCube(cubeMesh, attrs, g, vbuf, ibuf, cubeDataSize, Cube(x, y, z), emitted,
                     writePos, indexWritePos, vertexOffset, vertexCount, indexCount);
          emitted' := emitted + [Cube(x, y, z)];
        }
      }
    }

    /** The x loop of `GenerateMesh` over row (y, z). */
    method EmitRow(cubeMesh: Mesh, ghost attrs: Attributes, ghost g: seq<u32>,
                   vbuf: array<real>, ibuf: array<u32>, cubeDataSize: nat, y: nat, z: nat,
                   ghost cells: seq<u32>, ghost emitted: seq<Cube>, writePos: nat, indexWritePos: nat, vertexOffset: nat,
                   vertexCount: nat, indexCount: nat)
      returns (writePos': nat, indexWritePos': nat, vertexOffset': nat, vertexCount': nat, indexCount': nat,
               ghost emitted': seq<Cube>)
      requires Valid() && Cubic() && ibuf != voxelData.data && cells == Cells()
      requires y < voxelData.depth && z < voxelData.depth
      requires attrs == cubeMesh.attributes && g == cubeMesh.indices
      requires cubeMesh.fill == [Color] && cubeDataSize == CubeSize(attrs)
      requires emitted == Visited(Emitter(cells, voxelData.depth), voxelData.depth, y, z, 0)
      requires Emitted(vbuf, ibuf, attrs, g, position, emitted,
                       writePos, indexWritePos, vertexOffset, vertexCount, indexCount)
      requires Times(Times(voxelData.depth, Times(voxelData.depth, voxelData.depth)), CubeSize(attrs)) <= vbuf.Length
      requires Times(Times(voxelData.depth, Times(voxelData.depth, voxelData.depth)), |g|) <= ibuf.Length
      modifies vbuf, ibuf
      ensures emitted' == Visited(Emitter(cells, voxelData.depth), voxelData.depth, y, z, voxelData.depth)
      ensures Emitted(vbuf, ibuf, attrs, g, position, emitted',
                      writePos', indexWritePos', vertexOffset', vertexCount', indexCount')
    {
      var n := voxelData.GetDepth();
      ghost var e := Emitter(cells, n);
      writePos', indexWritePos', vertexOffset', vertexCount', indexCount' := writePos, indexWritePos, vertexOffset, vertexCount, indexCount;
      emitted' := emitted;
      for x := 0 to n
        invariant emitted' == Visited(e, n, y, z, x)
        invariant Emitted(vbuf, ibuf, attrs, g, position, emitted',
                          writePos', indexWritePos', vertexOffset', vertexCount', indexCount')
      {
        VisitedLength(e, n, y, z, x);
        RoomForCube(n, y, z, x, |emitted'|, CubeSize(attrs));
        RoomForCube(n, y, z, x, |emitted'|, |g|);
        assert Visited(e, n, y, z, x + 1) == emitted' + if e(x, y, z) then [Cube(x, y, z)] else [];
        writePos', indexWritePos', vertexOffset', vertexCount', indexCount', emitted' :=
          EmitVoxel(cubeMesh, attrs, g, vbuf, ibuf, cubeDataSize, x, y, z, cells, emitted',
                    writePos', indexWritePos', vertexOffset', vertexCount', indexCount');
      }
    }

    /** The y and z loops of `GenerateMesh`: every row of the chunk in turn. */
    method EmitChunk(cubeMesh: Mesh, ghost attrs: Attributes, ghost g: seq<u32>,
                     vbuf: array<real>, ibuf: array<u32>, cubeDataSize: nat)
      returns (vertexCount: nat, indexCount: nat)
      requires Valid() && Cubic() && ibuf != voxelData.data
      requires attrs == cubeMesh.attributes && g == cubeMesh.indices
      requires cubeMesh.fill == [Color] && cubeDataSize == CubeSize(attrs)
      requires Composable(attrs, [Color], CubeKinds)
      requires Times(Times(voxelData.depth, Times(voxelData.depth, voxelData.depth)), CubeSize(attrs)) <= vbuf.Length
      requires Times(Times(voxelData.depth, Times(voxelData.depth, voxelData.depth)), |g|) <= ibuf.Length
      modifies vbuf, ibuf
      ensures vertexCount <= vbuf.Length && indexCount <= ibuf.Length
      ensures vbuf[..vertexCount] == VertexStream(attrs, VisibleCubes(Cells(), voxelData.depth), position)
      ensures ibuf[..indexCount] ==
        IndexStream(g, Count(attrs, Position), |VisibleCubes(Cells(), voxelData.depth)|)
    {
      var size := voxelData.GetDepth();
      var writePos := 0;
      var vertexOffset := 0;
      var indexWritePos := 0;
      vertexCount := 0;
      indexCount := 0;
      ghost var cells := Cells();
      ghost var e := Emitter(cells, size);
      ghost var emitted: seq<Cube> := [];
      for y := 0 to size
        invariant emitted == Visited(e, size, y, 0, 0)
        invariant Emitted(vbuf, ibuf, attrs, g, position, emitted,
                          writePos, indexWritePos, vertexOffset, vertexCount, indexCount)
      {
        for z := 0 to size
          invariant emitted == Visited(e, size, y, z, 0)
          invariant Emitted(vbuf, ibuf, attrs, g, position, emitted,
                            writePos, indexWritePos, vertexOffset, vertexCount, indexCount)
        {
          writePos, indexWritePos, vertexOffset, vertexCount, indexCount, emitted :=
            EmitRow(cubeMesh, attrs, g, vbuf, ibuf, cubeDataSize, y, z, cells, emitted,
                    writePos, indexWritePos, vertexOffset, vertexCount, indexCount);
        }
      }
    }

    /** `CreateCubeMesh(1, {0, 0}, colour)`, the cube every voxel is drawn with. */
    static method CreateChunkCube() returns (cube: Mesh)
      ensures fresh(cube)
      ensures cube.attributes == CubeAttributes() && cube.indices == BoxIndices(0, 0) && cube.fill == [Color]
      ensures Composable(cube.attributes, [Color], CubeKinds)
      ensures Count(cube.attributes, Position) == CUBE_VERTICES && |cube.indices| == CUBE_INDICES
    {
      cube := CreateCubeMesh(1.0, 0, 0, CubeColor);
      CubeEmission();
    }

    /** Rebuilds the chunk's surface mesh: one unit cube per emitting voxel, in
        y-outer, z-middle, x-inner order, written into buffers sized for a cube
        per voxel and trimmed to what was written. */
    method GenerateMesh()
      requires Valid() && Cubic()
      modifies this
      ensures Valid() && Cubic() && voxelData == old(voxelData) && position == old(position)
      ensures vertices == VertexStream(CubeAttributes(), VisibleCubes(Cells(), voxelData.depth), position)
      ensures indices == IndexStream(BoxIndices(0, 0), CUBE_VERTICES, |VisibleCubes(Cells(), voxelData.depth)|)
    {
      var cubeMesh := CreateChunkCube();
      MeshWith(cubeMesh, CubeAttributes(), BoxIndices(0, 0));
    }

    /** The rest of `GenerateMesh` once the cube mesh exists, for any cube mesh of
        24 vertices and 36 indices that can be emitted with position, colour and
        normal: buffers of a cube per voxel, the emission loops, the trim. */
    method MeshWith(cubeMesh: Mesh, ghost attrs: Attributes, ghost g: seq<u32>)
      requires Valid() && Cubic() && attrs == cubeMesh.attributes && g == cubeMesh.indices
      requires cubeMesh.fill == [Color] && Composable(attrs, [Color], CubeKinds)
      requires Count(attrs, Position) == CUBE_VERTICES && |g| == CUBE_INDICES
      modifies this
      ensures Valid() && Cubic() && voxelData == old(voxelData) && position == old(position)
      ensures vertices == VertexStream(attrs, VisibleCubes(Cells(), voxelData.depth), position)
      ensures indices == IndexStream(g, CUBE_VERTICES, |VisibleCubes(Cells(), voxelData.depth)|)
    {
      var attributes := CubeKinds;
      CubeStride();
      TimesIsMul(CUBE_VERTICES, 10);
      var dataSize := cubeMesh.GetVertexDataSize(attributes);
      var cubeDataSize := dataSize / FLOAT_SIZE;
      var size := voxelData.GetDepth();
      assert cubeDataSize == CUBE_FLOATS == CubeSize(attrs);
      PerVoxel(size, CUBE_FLOATS);
      PerVoxel(size, CUBE_INDICES);
      var vbuf := new real[size * size * size * cubeDataSize];
      var ibuf := new u32[cubeMesh.GetIndexCount() * size * size * size];
      var vertexCount, indexCount := EmitChunk(cubeMesh, attrs, g, vbuf, ibuf, cubeDataSize);
      vertices := vbuf[..vertexCount];
      indices := ibuf[..indexCount];
    }

    /** `GetVoxel(p)`: the voxel holding point `p`, each coordinate floored and
        clamped into its axis; x is clamped by `GetWidth()`, the stored height. */
    function GetVoxel(p: Vec3): (id: VoxelId)
      reads this, voxelData
      ensures voxelData.GetWidth() > 0 ==> 0 <= id.x < voxelData.GetWidth()
      ensures voxelData.GetHeight() > 0 ==> 0 <= id.y < voxelData.GetHeight()
      ensures voxelData.GetDepth() > 0 ==> 0 <= id.z < voxelData.GetDepth()
      ensures 0 <= (p.x - position.x).Floor < voxelData.GetWidth() ==> id.x == (p.x - position.x).Floor
      ensures 0 <= (p.y - position.y).Floor < voxelData.GetHeight() ==> id.y == (p.y - position.y).Floor
      ensures 0 <= (p.z - position.z).Floor < voxelData.GetDepth() ==> id.z == (p.z - position.z).Floor
    {
      VoxelId(ClampAxis((p.x - position.x).Floor, voxelData.GetWidth()),
              ClampAxis((p.y - position.y).Floor, voxelData.GetHeight()),
              ClampAxis((p.z - position.z).Floor, voxelData.GetDepth()))
    }

    /** The id names a cell of the grid. */
    ghost predicate Readable(id: VoxelId)
      reads this, voxelData
    {
      0 <= id.x && 0 <= id.y && 0 <= id.z &&
      InBounds3(id.x as nat, id.y as nat, id.z as nat, voxelData.width, voxelData.height, voxelData.depth)
    }

    /** In a non-empty chunk as wide as it is high, every point maps to a voxel
        that can be read: the swapped x and y extents then agree. */
    lemma GetVoxelReadable(p: Vec3)
      requires Valid() && voxelData.width == voxelData.height > 0 && voxelData.depth > 0
      ensures Readable(GetVoxel(p))
    {
    }

    /** In a chunk whose width and height differ, a point beyond the smaller of
        the two along its axis maps to a voxel outside the grid: x is clamped
        into the height and y into the width. */
    lemma GetVoxelOutside(p: Vec3)
      requires Valid()
      ensures voxelData.width < voxelData.height && (p.x - position.x).Floor >= voxelData.width ==>
        GetVoxel(p).x >= voxelData.width && !Readable(GetVoxel(p))
      ensures voxelData.height < voxelData.width && (p.y - position.y).Floor >= voxelData.height ==>
        GetVoxel(p).y >= voxelData.height && !Readable(GetVoxel(p))
    {
    }
  }
}
