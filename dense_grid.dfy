/** Dense row-major grids over one flat heap array: `Array3D<T>` (cell (x,y,z)
    at `x*H*D + y*D + z`) and `Array2D<T>` (cell (x,y) at `x*H + y`), the
    non-owning views `IArray3D`/`IArray2D` that chained `[x][y][z]` access goes
    through, and the copy/move semantics of the owning classes, quirks included. */
module DenseGrid {

  import opened Common

  /** Flat position of cell (x, y, z) in a grid of the given height and depth. */
  function Index3(x: nat, y: nat, z: nat, height: nat, depth: nat): nat
  {
    x * height * depth + y * depth + z
  }

  /** Flat position of cell (x, y) in a grid of the given height. */
  function Index2(x: nat, y: nat, height: nat): nat
  {
    x * height + y
  }

  /** A coordinate inside the extents lands inside the `W*H` storage of a 2D grid. */
  lemma Index2InRange(x: nat, y: nat, width: nat, height: nat)
    requires x < width && y < height
    ensures Index2(x, y, height) < width * height
  {
    assert x * height + y < (x + 1) * height <= width * height;
  }

  /** A coordinate inside the extents lands inside the `W*H*D` storage of a 3D grid. */
  lemma Index3InRange(x: nat, y: nat, z: nat, width: nat, height: nat, depth: nat)
    requires x < width && y < height && z < depth
    ensures Index3(x, y, z, height, depth) < width * height * depth
  {
    Index2InRange(y, z, height, depth);
    assert x * height * depth == x * (height * depth);
    assert width * height * depth == width * (height * depth);
    Index2InRange(x, y * depth + z, width, height * depth);
  }

  /** Distinct in-range cells occupy distinct flat positions. */
  lemma Index3Injective(x: nat, y: nat, z: nat, x': nat, y': nat, z': nat, height: nat, depth: nat)
    requires y < height && z < depth && y' < height && z' < depth
    requires Index3(x, y, z, height, depth) == Index3(x', y', z', height, depth)
    ensures x == x' && y == y' && z == z'
  {
    Index2InRange(y, z, height, depth);
    Index2InRange(y', z', height, depth);
    assert x * height * depth == x * (height * depth);
    assert x' * height * depth == x' * (height * depth);
    QuotRemUnique(x, y * depth + z, x', y' * depth + z', height * depth);
    QuotRemUnique(y, z, y', z', depth);
  }

  /** The condition `IArray2D::at` asserts: the flat index is below `Height*Width`. */
  predicate AtAsserted2(x: nat, y: nat, width: nat, height: nat)
  {
    Index2(x, y, height) < height * width
  }

  /** `IArray2D<T>`: a non-owning `width x height` window on `data`, starting at `base`. */
  datatype View2D<T> = View2D(data: array<T>, base: nat, width: nat, height: nat)
  {
    /** The condition `IArray2D::at` asserts. */
    predicate AtAsserted(x: nat, y: nat)
    {
      AtAsserted2(x, y, width, height)
    }

    /** `IArray2D::operator[](x)`: the flat position where row x starts. */
    function Row(x: nat): (p: nat)
      requires x < width
      ensures forall y :: 0 <= y < height ==> p + y == base + Index2(x, y, height)
    {
      base + x * height
    }
  }

  /** The defect in `IArray3D::at`: its assertion compares the flat index with
      `Height*Width` instead of `Width*Height*Depth`. */
  predicate AtAsserted3(x: nat, y: nat, z: nat, width: nat, height: nat, depth: nat)
  {
    Index3(x, y, z, height, depth) < height * width
  }

  /** The bounds check `IArray3D::at` evidently intends. */
  predicate InBounds3(x: nat, y: nat, z: nat, width: nat, height: nat, depth: nat)
  {
    x < width && y < height && z < depth
  }

  /** The assertion as written rejects a cell that exists and accepts a coordinate
      that does not: in a 1x1x2 grid cell (0,0,1) fails it, and in a 2x2x1 grid
      the out-of-range (0,0,3) passes it. */
  lemma AtAssertionWrong()
    ensures InBounds3(0, 0, 1, 1, 1, 2) && !AtAsserted3(0, 0, 1, 1, 1, 2)
    ensures !InBounds3(0, 0, 3, 2, 2, 1) && AtAsserted3(0, 0, 3, 2, 2, 1)
  {
  }

  /** The intended check is sufficient for the access: every in-bounds cell lies
      inside the `W*H*D` storage. */
  lemma InBoundsIsSafe(x: nat, y: nat, z: nat, width: nat, height: nat, depth: nat)
    requires InBounds3(x, y, z, width, height, depth)
    ensures Index3(x, y, z, height, depth) < width * height * depth
  {
    Index3InRange(x, y, z, width, height, depth);
  }

  /** Slice x of a `width x height x depth` grid ends within its cells. */
  lemma SliceWithin(x: nat, width: nat, height: nat, depth: nat)
    requires x < width
    ensures Index3(x, 0, 0, height, depth) + height * depth <= width * height * depth
  {
    var hd := height * depth;
    MulAssoc(x, height, depth);
    MulAssoc(width, height, depth);
    MulMonotone(x + 1, width, hd);
    MulMonotone(x, width, hd);
  }

  /** `Array2D<T>`: owns `width * height` cells. */
  class Array2D<T(0)> {
    var data: array<T>
    var width: nat
    var height: nat

    ghost predicate Valid()
      reads this
    {
      data.Length == width * height
    }

    /** The interface struct `m_Interface` the accessors delegate to. */
    function View(): View2D<T>
      reads this
    {
      View2D(data, 0, width, height)
    }

    /** Allocates `width * height` cells; unlike `Array3D`, it does not initialise them. */
    constructor (width: nat, height: nat)
      ensures Valid() && fresh(data)
      ensures this.width == width && this.height == height
      ensures GetWidth() == height && GetHeight() == width
    {
      this.width := width;
      this.height := height;
      data := new T[width * height];
    }

    /** Copy (and move) construction: both run the copy assignment. */
    constructor CopyOf(other: Array2D<T>)
      requires other.data.Length >= other.width * other.height
      ensures Valid() && fresh(data)
      ensures width == other.width && height == other.height
      ensures data[..] == other.data[..width * height]
    {
      var n := other.width * other.height;
      var cells := new T[n];
      forall i | 0 <= i < n {
        cells[i] := other.data[i];
      }
      width, height, data := other.width, other.height, cells;
    }

    /** Copy assignment as intended: a deep copy of `W*H` cells into new storage. */
    method CopyAssign(other: Array2D<T>)
      requires other != this
      requires other.data.Length >= other.width * other.height
      modifies this
      ensures Valid() && fresh(data)
      ensures width == other.width && height == other.height
      ensures data[..] == other.data[..width * height]
    {
      width := other.width;
      height := other.height;
      var n := other.width * other.height;
      data := new T[n];
      forall i | 0 <= i < n {
        data[i] := other.data[i];
      }
    }

    /** Move assignment: the two misnamed temporaries cancel out, so storage,
        width and height are swapped between the two objects. */
    method MoveAssign(other: Array2D<T>)
      modifies this, other
      ensures data == old(other.data) && width == old(other.width) && height == old(other.height)
      ensures other.data == old(data) && other.width == old(width) && other.height == old(height)
      ensures old(Valid()) && old(other.Valid()) ==> Valid() && other.Valid()
    {
      var h := other.width;
      var w := other.height;
      var p := other.data;
      other.width := width;
      other.height := height;
      other.data := data;
      width := h;
      height := w;
      data := p;
    }

    /** `at(x, y)`: guarded only by `x*Height + y < Height*Width`. */
    function At(x: nat, y: nat): (v: T)
      reads this, data
      requires Valid() && View().AtAsserted(x, y)
      ensures v == data[Index2(x, y, height)]
      ensures Index2(x, y, height) < data.Length
    {
      data[Index2(x, y, height)]
    }

    /** The guard of `at` is exactly "the flat index is inside the storage"; every
        coordinate inside the extents passes it. */
    lemma AtGuardExact(x: nat, y: nat)
      requires Valid()
      ensures View().AtAsserted(x, y) <==> Index2(x, y, height) < data.Length
      ensures x < width && y < height ==> View().AtAsserted(x, y)
    {
      if x < width && y < height {
        Index2InRange(x, y, width, height);
      }
    }

    /** `GetWidth()` reports the stored height. */
    function GetWidth(): (r: nat)
      reads this
      ensures r == height
    {
      height
    }

    /** `GetHeight()` reports the stored width. */
    function GetHeight(): (r: nat)
      reads this
      ensures r == width
    {
      width
    }
  }

  /** The guard of `IArray2D::at` checks the flat index only, so a column
      index one past the row is accepted and reads the next row's first cell. */
  lemma RowOverrunAliases(width: nat, height: nat)
    requires width >= 2 && height >= 1
    ensures AtAsserted2(0, height, width, height)
    ensures Index2(0, height, height) == Index2(1, 0, height)
  {
    assert height < 2 * height <= height * width;
  }

  /** `Array3D<T>`: owns `width * height * depth` cells. The fields are those of
      its interface struct `m_Interface`. */
  class Array3D<T(0)> {
    var data: array<T>
    var width: nat
    var height: nat
    var depth: nat

    ghost predicate Valid()
      reads this
    {
      data.Length == width * height * depth
    }

    /** Allocates `width * height * depth` cells and sets each to `zero` (`T()`). */
    constructor (width: nat, height: nat, depth: nat, zero: T)
      ensures Valid() && fresh(data)
      ensures this.width == width && this.height == height && this.depth == depth
      ensures forall i :: 0 <= i < data.Length ==> data[i] == zero
      ensures GetWidth() == height && GetHeight() == width
    {
      this.width := width;
      this.height := height;
      this.depth := depth;
      var n := width * height * depth;
      var cells := new T[n];
      for i := 0 to n
        invariant forall j :: 0 <= j < i ==> cells[j] == zero
      {
        cells[i] := zero;
      }
      data := cells;
    }

    /** Copy construction; the move constructor also lands here, because inside it
        `other` is an lvalue and `*this = other` picks the copy assignment. */
    constructor CopyOf(other: Array3D<T>)
      requires other.data.Length >= other.width * other.height * other.depth
      ensures Valid() && fresh(data)
      ensures width == other.width && height == other.height && depth == other.depth
      ensures data[..] == other.data[..width * height * depth]
    {
      var n := other.height * other.width * other.depth;
      assert n == other.width * other.height * other.depth;
      var cells := new T[n];
      forall i | 0 <= i < n {
        cells[i] := other.data[i];
      }
      width, height, depth, data := other.width, other.height, other.depth, cells;
    }

    /** Copy assignment: equal extents and contents in fresh, independent storage.
        Self-assignment is excluded: the source frees the storage it then copies from. */
    method CopyAssign(other: Array3D<T>)
      requires other != this
      requires other.data.Length >= other.width * other.height * other.depth
      modifies this
      ensures Valid() && fresh(data)
      ensures width == other.width && height == other.height && depth == other.depth
      ensures data[..] == other.data[..width * height * depth]
    {
      width := other.width;
      height := other.height;
      depth := other.depth;
      var n := height * width * depth;
      assert n == width * height * depth;
      data := new T[n];
      forall i | 0 <= i < n {
        data[i] := other.data[i];
      }
    }

    /** Move assignment as written: storage, width and height are swapped, but the
        depth is not transferred. This object keeps its own depth, and `other`
        receives this object's depth. */
    method MoveAssign(other: Array3D<T>)
      modifies this, other
      ensures data == old(other.data) && width == old(other.width) && height == old(other.height)
      ensures depth == old(depth)
      ensures other.data == old(data) && other.width == old(width) && other.height == old(height)
      ensures other.depth == old(depth)
    {
      var h := other.width;
      var w := other.height;
      var d := other.depth;
      var p := other.data;
      other.width := width;
      other.height := height;
      other.depth := depth;
      other.data := data;
      width := h;
      height := w;
      data := p;
    }

    /** Move assignment as evidently intended: every field, depth included, is
        exchanged, so both objects stay consistent. */
    method SwapAssign(other: Array3D<T>)
      requires Valid() && other.Valid()
      modifies this, other
      ensures data == old(other.data) && width == old(other.width)
      ensures height == old(other.height) && depth == old(other.depth)
      ensures other.data == old(data) && other.width == old(width)
      ensures other.height == old(height) && other.depth == old(depth)
      ensures Valid() && other.Valid()
    {
      var w, h, d, p := other.width, other.height, other.depth, other.data;
      other.width, other.height, other.depth, other.data := width, height, depth, data;
      width, height, depth, data := w, h, d, p;
    }

    /** `at(x, y, z)` with the bounds check strengthened to the coordinates. */
    function At(x: nat, y: nat, z: nat): (v: T)
      reads this, data
      requires Valid() && InBounds3(x, y, z, width, height, depth)
      ensures Index3(x, y, z, height, depth) < data.Length
      ensures v == data[Index3(x, y, z, height, depth)]
    {
      InBoundsIsSafe(x, y, z, width, height, depth);
      data[Index3(x, y, z, height, depth)]
    }

    /** `operator[](x)`: the `height x depth` slice for a fixed x. It starts at
        cell (x, 0, 0) and, in a consistent grid, ends within the storage. */
    function Slice(x: nat): (s: View2D<T>)
      reads this
      requires x < width
      ensures s.data == data && s.width == height && s.height == depth
      ensures s.base == Index3(x, 0, 0, height, depth)
      ensures Valid() ==> s.base + height * depth <= data.Length
    {
      SliceWithin(x, width, height, depth);
      View2D(data, x * height * depth, height, depth)
    }

    /** Chained access `a[x][y][z]`: through the slice, then the row pointer. It
        reaches the same cell as `at(x, y, z)`. */
    function Chained(x: nat, y: nat, z: nat): (v: T)
      reads this, data
      requires Valid() && InBounds3(x, y, z, width, height, depth)
      ensures v == At(x, y, z)
    {
      var row := Slice(x).Row(y);
      assert row + z == Index3(x, y, z, height, depth);
      InBoundsIsSafe(x, y, z, width, height, depth);
      data[row + z]
    }

    /** Writing through the reference `at(x, y, z)` returns: the cell reads back the
        value written, every other cell is unchanged. */
    method Set(x: nat, y: nat, z: nat, v: T)
      requires Valid() && InBounds3(x, y, z, width, height, depth)
      modifies data
      ensures Valid() && At(x, y, z) == v
      ensures forall x': nat, y': nat, z': nat :: InBounds3(x', y', z', width, height, depth) && (x', y', z') != (x, y, z) ==>
        At(x', y', z') == old(At(x', y', z'))
    {
      InBoundsIsSafe(x, y, z, width, height, depth);
      data[Index3(x, y, z, height, depth)] := v;
      forall x': nat, y': nat, z': nat | InBounds3(x', y', z', width, height, depth) && (x', y', z') != (x, y, z)
        ensures At(x', y', z') == old(At(x', y', z'))
      {
        InBoundsIsSafe(x', y', z', width, height, depth);
        if Index3(x', y', z', height, depth) == Index3(x, y, z, height, depth) {
          Index3Injective(x', y', z', x, y, z, height, depth);
        }
      }
    }

    /** `GetWidth()` reports the stored height. */
    function GetWidth(): (r: nat)
      reads this
      ensures r == height
    {
      height
    }

    /** `GetHeight()` reports the stored width. */
    function GetHeight(): (r: nat)
      reads this
      ensures r == width
    {
      width
    }

    /** `GetDepth()`, which callers use but the class does not declare; modelled
        as the stored depth. */
    function GetDepth(): (r: nat)
      reads this
      ensures r == depth
    {
      depth
    }
  }

  /** Move assignment between grids of different depth leaves the destination
      inconsistent: a 1x1x1 grid assigned from a 1x1x2 grid takes the two-cell
      storage but keeps depth 1. The source receives all of the destination's old
      fields and stays consistent. */
  method MoveAssignDropsDepth() returns (dstConsistent: bool, srcConsistent: bool)
    ensures !dstConsistent && srcConsistent
  {
    var dst := new Array3D<int>(1, 1, 1, 0);
    var src := new Array3D<int>(1, 1, 2, 0);
    dst.MoveAssign(src);
    dstConsistent := dst.data.Length == dst.width * dst.height * dst.depth;
    srcConsistent := src.data.Length == src.width * src.height * src.depth;
  }

  /** The intended move keeps both grids consistent on the same inputs. */
  method SwapAssignKeepsDepth() returns (dstConsistent: bool, srcConsistent: bool)
    ensures dstConsistent && srcConsistent
  {
    var dst := new Array3D<int>(1, 1, 1, 0);
    var src := new Array3D<int>(1, 1, 2, 0);
    dst.SwapAssign(src);
    dstConsistent := dst.data.Length == dst.width * dst.height * dst.depth;
    srcConsistent := src.data.Length == src.width * src.height * src.depth;
  }

  /** The scenario of the voxel demo's entry point: a fresh 10x20x15 grid of
      zeros, one cell set to 5 through chained access; that cell reads 5 and its
      neighbours still read 0. */
  method WriteReadScenario() returns (written: int, neighbour: int)
    ensures written == 5 && neighbour == 0
  {
    var grid := new Array3D<int>(10, 20, 15, 0);
    assert grid.data.Length == 3000 && Index3(0, 5, 5, 20, 15) == 80;
    assert grid.At(0, 5, 5) == 0;
    grid.Set(0, 5, 4, 5);
    assert grid.At(0, 5, 5) == 0;
    written := grid.Chained(0, 5, 4);
    neighbour := grid.Chained(0, 5, 5);
  }
}
