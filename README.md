# VulkanApps CPU core in Dafny

This project models the CPU-side geometry and bookkeeping code of the VulkanApps
renderer. Everything that talks to Vulkan, GLFW or ImGui is outside the model.
The modelled parts are:

- **Dense grids.** `Array3D`/`Array2D` keep a flat row-major heap array, with
  non-owning `IArray3D`/`IArray2D` views (`DenseGrid`, `dense_grid.dfy`).
- **Vertex-attribute table.** Component counts per attribute kind and stride sums
  (`VertexTypes`).
- **Mesh vertex composer.** Interleaves per-kind float arrays into a caller
  buffer, with fill-to-last-element and a concrete 4×4 model transform
  (`MeshModel`). The matrices and their application to points are in `Linear`.
- **Shape generators.** Subdivided planes and six-face boxes, with rebased
  indices and per-face normals (`MeshShapes`).
- **Voxel chunk mesher.** The triple loop that culls buried voxels and appends one
  cube per visible voxel through the mesh cursor API, plus the `GetVoxel` clamp
  (`VoxelChunkModel`).
- **Path helpers.** `GetFilePath`, `GetSuffix` and `GetFileName` over
  `std::string` searches (`Paths`).
- **Vertex input layouts.** Both versions: the wrapper library's, driven by the
  attribute table, and the engine's, with its own size table and padding kinds.
  Vulkan structs are plain records (`VulkanRecords`, `WrapperVertexLayout`,
  `EngineVertexLayout`).
- **Descriptor bookkeeping.** Binding numbering in descriptor sets and layouts,
  and the group-by-type pool-size tally, in both library versions
  (`DescriptorRecords`, `WrapperDescriptors`, `EngineDescriptors`).

Conventions:

- `uint32_t` values are `u32`. Every truncating assignment or `+=` on one goes
  through `Wrap32` (reduction modulo 2^32). This covers index rebasing, pool
  counters, binding numbers and vertex-layout offsets.
- `size_t` counters are unbounded `nat`, except in the path helpers. There,
  `npos` (2^64 − 1) and its wrap to 0 under `+ 1` are part of the behaviour, so
  they are written out.
- Floats are exact `real`s, with no rounding. The plane generator's position
  steps and texture coordinates, and the model transform, are computed exactly
  over them. The other float data is only copied.
- Stateful code keeps its form: classes with `modifies` clauses, loops with
  invariants, and the caller's buffers as `array`s. Each method is proved against
  a specification function (`Composed`, `Grid`, `PlaneIndices`, `VisibleCubes`,
  `VertexStream`, `Tally`, `Described` …), and the properties of that function are
  proved as separate lemmas.

## Model

| member | source | states |
|---|---|---|
| DenseGrid.Index3Injective | Base/Array3D.h:17-20 | distinct in-range coordinates have distinct flat positions `x*H*D + y*D + z` |
| DenseGrid.Index3InRange | Base/Array3D.h:19 | an in-range cell's flat position lies below W·H·D |
| DenseGrid.Index2InRange | Base/Array2D.h:14-17 | an in-range cell's flat position `x*H + y` lies below W·H |
| DenseGrid.AtAssertionWrong | Base/Array3D.h:18 | the `< Height*Width` assertion rejects an existing cell (0,0,1) of a 1×1×2 grid and accepts the missing cell (0,0,3) of a 2×2×1 grid |
| DenseGrid.InBoundsIsSafe | Base/Array3D.h:17-20 | the intended per-axis bounds check keeps every access inside the W·H·D storage |
| DenseGrid.View2D.Row | Base/Array2D.h:19-23 | row x starts at `x*Height`, so its y-th element is the flat cell `x*H + y` |
| DenseGrid.Array2D.constructor | Base/Array2D.h:34-39 | fresh storage of exactly W·H cells; `GetWidth`/`GetHeight` report the swapped fields |
| DenseGrid.Array2D.CopyOf | Base/Array2D.h:42-45 | copy construction yields equal dimensions and equal contents in fresh storage |
| DenseGrid.Array2D.CopyAssign | Base/Array2D.h:48-56 | the intended deep copy: equal dimensions, equal first W·H cells, fresh storage; self-assignment excluded |
| DenseGrid.Array2D.MoveAssign | Base/Array2D.h:65-77 | storage, width and height are exchanged between the two objects, and consistency is kept on both sides |
| DenseGrid.Array2D.At | Base/Array2D.h:14-17 | `at(x,y)` reads flat cell `x*H + y`; its guard keeps the read inside the storage |
| DenseGrid.Array2D.AtGuardExact | Base/Array2D.h:15 | the guard `x*H + y < H*W` holds exactly when the flat index is inside the storage, and holds for every in-extent coordinate |
| DenseGrid.RowOverrunAliases | Base/Array2D.h:15-16 | for every width ≥ 2 and height ≥ 1, the guard lets column H of row 0 through, and that index reads the first cell of row 1 |
| DenseGrid.Array2D.GetWidth | Base/Array2D.h:94 | `GetWidth()` returns the stored height |
| DenseGrid.Array2D.GetHeight | Base/Array2D.h:95 | `GetHeight()` returns the stored width |
| DenseGrid.Array3D.constructor | Base/Array3D.h:41-51 | fresh storage of W·H·D cells, every one set to the default value |
| DenseGrid.Array3D.CopyOf | Base/Array3D.h:54-57 | copy construction yields equal dimensions and equal contents in fresh storage |
| DenseGrid.Array3D.CopyAssign | Base/Array3D.h:60-69 | equal dimensions and equal W·H·D cells in fresh storage; self-assignment excluded |
| DenseGrid.Array3D.MoveAssign | Base/Array3D.h:78-93 | as written: pointer, width and height are swapped, but the destination keeps its own depth and the source receives the destination's old depth |
| DenseGrid.Array3D.SwapAssign | Base/Array3D.h:78-93 | the intended move: all four fields are exchanged and both grids stay consistent |
| DenseGrid.Array3D.At | Base/Array3D.h:101-103 | `at(x,y,z)` reads flat cell `x*H*D + y*D + z`, inside the storage |
| DenseGrid.Array3D.Slice | Base/Array3D.h:22-30 | slice x is a Height × Depth view over the same storage that starts at cell (x, 0, 0) and, in a consistent grid, ends within the storage |
| DenseGrid.Array3D.Chained | Base/Array3D.h:22-30 | chained `[x][y][z]` access through the slice reads the same cell as `at(x,y,z)` |
| DenseGrid.Array3D.Set | Base/Array3D.h:101-103 | writing a cell and reading it back gives the value written; every other cell is unchanged |
| DenseGrid.Array3D.GetWidth | Base/Array3D.h:110 | `GetWidth()` returns the stored height |
| DenseGrid.Array3D.GetHeight | Base/Array3D.h:111 | `GetHeight()` returns the stored width |
| DenseGrid.Array3D.GetDepth | Apps/VoxelChunk.cpp:18 | the depth accessor the chunk calls; `Array3D` declares none, so the model assumes it returns the stored depth |
| DenseGrid.MoveAssignDropsDepth | Base/Array3D.h:78-93 | moving a 1×1×2 grid into a 1×1×1 grid leaves the destination's storage size inconsistent with its dimensions, while the source stays consistent |
| DenseGrid.SwapAssignKeepsDepth | Base/Array3D.h:78-93 | the corrected move keeps both grids consistent on the same inputs |
| DenseGrid.WriteReadScenario | Apps/VoxelRendering/Main.cpp:11-35 | a single scenario, kept as documentation of the app's use of the grid: in a 10×20×15 grid of zeros, cell (0,5,4) is set to 5 and reads back 5, while its neighbour reads 0 |
| VertexTypes.TypeSize | Base/VertexTypes.cpp:3-21 | every size is a positive multiple of `sizeof(float)`, at most four floats |
| VertexTypes.Arity | Base/VertexTypes.cpp:3-21 | every kind has 1 to 4 components, and the component count times 4 is its byte size |
| VertexTypes.SizeTable | Base/VertexTypes.cpp:3-21 | exactly FLOAT/PADDINGFLOAT have 1 float; UV/VEC2/PADDINGVEC2 have 2; COLOR/VEC4/PADDINGVEC4 have 4; all others have 3 |
| VertexTypes.TransformAffectedKinds | Base/VertexTypes.cpp:33-46 | exactly POSITION, TANGENT and BITANGENT are transformed (NORMAL is not), and each has 3 floats, more than the asserted 2 |
| VertexTypes.GetStride | Base/VertexTypes.cpp:23-31 | the accumulating loop returns the sum of the sizes |
| VertexTypes.StrideFloatsOf | Base/VertexTypes.cpp:23-31 | a stride is a whole number of floats and at least one float per kind |
| VertexTypes.StrideAppend | Base/VertexTypes.cpp:23-31 | the stride is additive over concatenation |
| VertexTypes.StrideBySize | Base/VertexTypes.cpp:23-31 | the stride counts 4, 8, 12 and 16 bytes per kind of that size |
| VertexTypes.FourByteKinds | Base/VertexTypes.cpp:7-9 | the 4-byte kinds are counted by the FLOAT and PADDINGFLOAT multiplicities |
| VertexTypes.EightByteKinds | Base/VertexTypes.cpp:10-13 | the 8-byte kinds are counted by the UV, VEC2 and PADDINGVEC2 multiplicities |
| VertexTypes.TwelveByteKinds | Base/VertexTypes.cpp:18-19 | the 12-byte kinds are counted by the multiplicities of the default kinds |
| VertexTypes.SixteenByteKinds | Base/VertexTypes.cpp:14-17 | the 16-byte kinds are counted by the COLOR, VEC4 and PADDINGVEC4 multiplicities |
| VertexTypes.StridePermutation | Base/VertexTypes.cpp:23-31 | the stride does not depend on the order of the kinds |
| Linear.TranslateAfterRotate | DataHandling/MeshShapes.cpp:138-140 | translating after an affine rotation places the rotated frame at the translation |
| MeshModel.CountBounds | DataHandling/Mesh.cpp:128-138 | the attribute count is the stored length divided by the kind's arity, and 0 for an absent kind |
| MeshModel.FlattenRoundTrip | DataHandling/Mesh.h:25-33 | data stored as `|data|·arity` floats reads back element by element: count and elements equal the input |
| MeshModel.RemoveAll | DataHandling/Mesh.cpp:123 | erase-remove leaves no copy of the kind, keeps every other kind, and keeps the list duplicate-free |
| MeshModel.Clamp | DataHandling/Mesh.cpp:24-37 | the element written for vertex i is i itself while data lasts, and the last element after that |
| MeshModel.Written | DataHandling/Mesh.cpp:87-108 | an attribute is copied verbatim unless its kind is transform-affected and the transform is not the identity |
| MeshModel.ComposedVertex | DataHandling/Mesh.cpp:13-41 | float `i*S + r` of the composed buffer is float r of vertex i's interleaved fields |
| MeshModel.ComposedAt | DataHandling/Mesh.cpp:17-39 | float `i*S + off_k + j` is component j of kind k's element `min(i, count_k − 1)`, transformed as `WriteVertexAttribute` does |
| MeshModel.UnaffectedVerbatim | DataHandling/Mesh.cpp:93-107 | a kind not affected by the transform is copied verbatim into every vertex |
| MeshModel.TranslationShifts | DataHandling/Mesh.cpp:93-107 | under a translation, each affected 3-float attribute is shifted by the offset |
| MeshModel.BroadcastSingle | DataHandling/Mesh.cpp:29-37 | a fill-enabled kind with one element repeats that element in every vertex |
| MeshModel.IdentitySkipUnobservable | DataHandling/Mesh.cpp:93 | applying the identity would write the same floats as skipping it |
| MeshModel.FillSetSemantics | DataHandling/Mesh.cpp:112-125 | enabling adds the kind once (idempotent); disabling removes it; other kinds are untouched; no duplicates arise |
| MeshModel.FilledIsComposed | DataHandling/Mesh.cpp:19-39 | once every column is written for every vertex, the written range equals the composed vertex buffer |
| MeshModel.Mesh.constructor | DataHandling/Mesh.h:9 | a new mesh has no attributes, no indices and no fill kinds |
| MeshModel.Mesh.AddVertexAttribute | DataHandling/Mesh.h:25-33 | stores exactly `|data|·arity` floats for the kind, replaces the previous array, and gives the kind count `|data|` |
| MeshModel.Mesh.SetIndices | DataHandling/Mesh.cpp:43-46 | replaces the index list and nothing else |
| MeshModel.Mesh.SetFillVertexAttribute | DataHandling/Mesh.cpp:112-125 | the fill list becomes `FillUpdated`, whose set semantics `FillSetSemantics` proves |
| MeshModel.Mesh.GetVertexAttributeCount | DataHandling/Mesh.cpp:128-138 | the count of elements stored for the kind |
| MeshModel.Mesh.GetVertexCount | DataHandling/Mesh.cpp:76-79 | the vertex count is the first requested kind's element count |
| MeshModel.Mesh.GetIndices | DataHandling/Mesh.cpp:60-63 | returns the stored index list, the one `SetIndices` stored and that `GetIndicesAt` rebases and `GetIndexCount` counts |
| MeshModel.Mesh.GetIndexCount | DataHandling/Mesh.cpp:81-84 | the number of stored indices |
| MeshModel.Mesh.GetVertexDataSize | DataHandling/Mesh.cpp:48-57 | the loop's total is the vertex count times the stride |
| MeshModel.Mesh.WriteVertexAttribute | DataHandling/Mesh.cpp:87-108 | writes the (possibly transformed) element at the write position and nothing else |
| MeshModel.Mesh.WriteAttributeColumn | DataHandling/Mesh.cpp:22-37 | both inner loops write kind k's column for every vertex, clamping to the last element, and touch nothing outside the emission |
| MeshModel.Mesh.CreateVerticesAt | DataHandling/Mesh.cpp:13-41 | the buffer slice written equals `Composed`; the result is `pos + vertexCount·S`; memory outside the slice is unchanged |
| MeshModel.Mesh.CreateVertices | DataHandling/Mesh.cpp:5-11 | the vector form returns `vertexCount·S` floats equal to `Composed` |
| MeshModel.Mesh.GetIndicesAt | DataHandling/Mesh.cpp:65-74 | writes every index plus the offset (mod 2^32), returns `pos + |indices|`, and leaves the rest of memory unchanged |
| MeshShapes.GeneratePlaneMeshVertexData | DataHandling/MeshShapes.cpp:6-29 | the outputs are cleared, then hold the (sx+2)·(sy+2) row-major grids of positions and UVs |
| MeshShapes.GridAt | DataHandling/MeshShapes.cpp:20-28 | the grid holds rows·w entries; entry `y*w + x` is the point for (x, y), y outer and x inner |
| MeshShapes.PlaneRowMajor | DataHandling/MeshShapes.cpp:20-28 | plane vertex `y*(sx+2) + x` is the position for column x, row y |
| MeshShapes.PlaneCorners | DataHandling/MeshShapes.cpp:16-25 | the first vertex is the top-left corner (−w/2, h/2, 0), and the last is the bottom-right corner |
| MeshShapes.PlaneFlat | DataHandling/MeshShapes.cpp:25 | every plane position lies in the z = 0 plane |
| MeshShapes.TexCoordRange | DataHandling/MeshShapes.cpp:26 | every UV lies in [0,1]²; the corners are (0,0) and (1,1) |
| MeshShapes.PlaneUvRange | DataHandling/MeshShapes.cpp:26 | over the whole generated plane grid, entry j is a two-component UV in [0,1]², the first entry is (0,0) and the last is (1,1) |
| MeshShapes.GeneratePlaneMeshIndexData | DataHandling/MeshShapes.cpp:39-60 | appends, without clearing, exactly the plane's index list `PlaneIndices` |
| MeshShapes.PlaneIndexCount | DataHandling/MeshShapes.cpp:44-59 | the plane has 6·(sx+1)·(sy+1) indices |
| MeshShapes.PlaneCellIndices | DataHandling/MeshShapes.cpp:44-59 | cell (x,y) contributes `s, s+1, s+h, s+h, s+1, s+h+1` with `s = x + y·h + offset`, each inside the plane's vertex range |
| MeshShapes.PlaneIndexRange | DataHandling/MeshShapes.cpp:44-59 | every index lies in `[offset, offset + (sx+2)(sy+2))` |
| MeshShapes.OffsetIndices | DataHandling/MeshShapes.cpp:31-37 | adds the offset to every index in place, preserving length and order |
| MeshShapes.CreatePlaneMesh | DataHandling/MeshShapes.cpp:62-80 | POSITION and UV grids, a single NORMAL (0,0,−1), the single colour, NORMAL and COLOR fill-enabled, and the plane's indices |
| MeshShapes.PlaneCounts | DataHandling/MeshShapes.cpp:72-75 | POSITION and UV have full length; NORMAL and COLOR have one element each |
| MeshShapes.PlaneEmission | DataHandling/MeshShapes.cpp:72-77 | emitting a plane broadcasts the normal and the colour into every vertex |
| MeshShapes.SixFacesAt | DataHandling/MeshShapes.cpp:132-174 | face k's copy of the plane indices is rebased by k·V through the cumulative `OffsetIndices` calls |
| MeshShapes.SixFacesRange | DataHandling/MeshShapes.cpp:132-174 | face k's indices land in `[kV, (k+1)V)` |
| MeshShapes.BoxIndexRange | DataHandling/MeshShapes.cpp:103-175 | in the box's index list, face k's indices lie in `[kV, (k+1)V)` |
| MeshShapes.BoxIndexCount | DataHandling/MeshShapes.cpp:103-175 | the box has 6·I indices, I = 6(sx+1)(sy+1) |
| MeshShapes.NormalsComplete | DataHandling/MeshShapes.cpp:115-176 | filling six blocks of V through the advancing iterator gives the six constant normal blocks |
| MeshShapes.AppendFace | DataHandling/MeshShapes.cpp:118-125 | one face: transform, append positions and UVs, fill V normals, advance the iterator |
| MeshShapes.AssembleBox | DataHandling/MeshShapes.cpp:118-176 | positions are the six placed faces in order; normals are the six constant blocks; UVs are the face UVs, each twice |
| MeshShapes.BoxVertexData | DataHandling/MeshShapes.cpp:99-176 | the box's positions, normals and UVs are `BoxPositions`, `BoxNormals` and `BoxUvs` |
| MeshShapes.BoxIndexData | DataHandling/MeshShapes.cpp:103-175 | the six rebased index copies form `BoxIndices` |
| MeshShapes.CreateRectBox | DataHandling/MeshShapes.cpp:87-187 | the box mesh holds those attributes, a single fill-enabled COLOR, and the box indices |
| MeshShapes.BoxCounts | DataHandling/MeshShapes.cpp:179-182 | 6V positions, normals and UVs, with one colour element |
| MeshShapes.BoxFaceNormal | DataHandling/MeshShapes.cpp:124-176 | in the box mesh's NORMAL attribute, vertex j of face k carries face k's normal: (0,0,−1), (0,0,1), (1,0,0), (−1,0,0), (0,1,0), (0,−1,0) for front, back, right, left, top, bottom |
| MeshShapes.CreateCubeMesh | DataHandling/MeshShapes.cpp:82-85 | a cube is the rect box with equal width, height and depth |
| VoxelChunkModel.CubeEmission | Apps/VoxelChunk.cpp:14-16 | the unit cube has 24 vertices of 10 floats (cubeDataSize 240) and 36 indices |
| VoxelChunkModel.CubeCounts | Apps/VoxelChunk.cpp:14 | an unsubdivided box has 24 vertices and 36 indices, every index below 24 |
| VoxelChunkModel.VisibleMember | Apps/VoxelChunk.cpp:34-60 | a voxel is emitted iff it is nonzero and either on a face of the grid or not buried by six nonzero neighbours |
| VoxelChunkModel.SolidEmitsSurface | Apps/VoxelChunk.cpp:34-60 | in a chunk solid in every voxel, a voxel is emitted iff it is not interior |
| VoxelChunkModel.SolidChunk | Apps/VoxelChunk.cpp:34-60 | a solid n³ chunk emits exactly its surface voxels, n³ − (n − 2)³ cubes for n ≥ 2 and one for n = 1 |
| VoxelChunkModel.EmptyChunk | Apps/VoxelChunk.cpp:28-66 | an all-zero chunk emits no cube |
| VoxelChunkModel.VisibleCubesOrdered | Apps/VoxelChunk.cpp:28-32 | emitted cubes appear in y-outer, z-middle, x-inner order, at most N³ of them |
| VoxelChunkModel.VisibleInside | Apps/VoxelChunk.cpp:28-32 | every emitted cube lies inside the grid |
| VoxelChunkModel.VertexStreamBlock | Apps/VoxelChunk.cpp:47 | block k of the vertex buffer is the k-th emitted cube's vertices |
| VoxelChunkModel.IndexStreamBlock | Apps/VoxelChunk.cpp:48-49 | the k-th cube's indices lie in `[24k, 24k+24)` |
| VoxelChunkModel.IndexStreamBelow | Apps/VoxelChunk.cpp:48-49 | every index stays below the number of emitted vertices |
| VoxelChunkModel.RoomForCube | Apps/VoxelChunk.cpp:20-24 | the worst-case `size³` preallocation leaves room for the next cube at every voxel |
| VoxelChunkModel.ClampAxis | Apps/VoxelChunk.cpp:140-142 | a coordinate is clamped into `[0, extent−1]` and unchanged when already inside |
| VoxelChunkModel.VoxelChunk.constructor | Apps/VoxelChunk.cpp:6-10 | the chunk deep-copies any grid, of any shape, and stores the position |
| VoxelChunkModel.VoxelChunk.VoxelRead | Apps/VoxelChunk.cpp:34 | chained grid access reads the voxel the culling rule is stated on |
| VoxelChunkModel.VoxelChunk.EmitTest | Apps/VoxelChunk.cpp:34-41 | the nested ifs, with truthiness in the last test, decide exactly `Emits` |
| VoxelChunkModel.VoxelChunk.EmitCube | Apps/VoxelChunk.cpp:44-49 | one cube advances both write cursors and `vertexOffset`, and appends that cube's vertices and rebased indices |
| VoxelChunkModel.VoxelChunk.EmitVoxel | Apps/VoxelChunk.cpp:34-60 | the voxel's cube is appended iff it is emitted |
| VoxelChunkModel.VoxelChunk.EmitRow | Apps/VoxelChunk.cpp:32-61 | after the x loop, the buffers hold every cube visited so far |
| VoxelChunkModel.VoxelChunk.EmitChunk | Apps/VoxelChunk.cpp:18-64 | after the loop nest, the counted prefixes are the vertex and index streams of the visible cubes |
| VoxelChunkModel.VoxelChunk.MeshWith | Apps/VoxelChunk.cpp:12-67 | after trimming, the member vectors are exactly those streams |
| VoxelChunkModel.VoxelChunk.GenerateMesh | Apps/VoxelChunk.cpp:12-67 | the same, with the unit cube mesh |
| VoxelChunkModel.VoxelChunk.GetVoxel | Apps/VoxelChunk.cpp:137-144 | each floored coordinate is clamped into the grid's reported extent, and kept when inside it |
| VoxelChunkModel.VoxelChunk.GetVoxelReadable | Apps/VoxelChunk.cpp:137-144 | on a non-empty chunk as wide as it is high (depth arbitrary), every point's clamped id is a readable cell |
| VoxelChunkModel.VoxelChunk.GetVoxelOutside | Apps/VoxelChunk.cpp:140-141 | when width and height differ, x is clamped into the height and y into the width, so a point beyond the smaller extent gets an id outside the grid |
| Paths.FindLastOf | DataHandling/Helper.cpp:25 | the last position holding one of the characters, or `npos` exactly when there is none |
| Paths.Substr | DataHandling/Helper.cpp:26 | at most `count` characters from `pos`, copied in order |
| Paths.SizeAdd | DataHandling/Helper.cpp:38 | `size_t` addition wraps, so `npos + 1` is 0 |
| Paths.GetFilePath | DataHandling/Helper.cpp:23-27 | the path is a prefix of the string |
| Paths.GetSuffix | DataHandling/Helper.cpp:30-34 | the suffix is a tail of the string |
| Paths.GetFileName | DataHandling/Helper.cpp:36-45 | with no separator the name is the whole string (`npos + 1` wraps to 0); with the last separator at p it is `s[p+1..]`; with `removeExtension` it is a stretch of the string starting at the same place (see also `NoSeparator`, `PathSplit`, `FileNameHasNoSeparator` and `StripExtension`) |
| Paths.NoSeparator | DataHandling/Helper.cpp:23-27 | without a separator, both path and name are the whole string (`substr(0, npos)`, and `npos + 1` wraps to 0) |
| Paths.PathSplit | DataHandling/Helper.cpp:23-38 | with the last separator at p, path + separator + name is the string |
| Paths.FileNameHasNoSeparator | DataHandling/Helper.cpp:36-45 | a file name never contains '/' or '\\' |
| Paths.StripExtension | DataHandling/Helper.cpp:39-43 | removing the extension cuts at the name's last '.', and leaves a name without one unchanged |
| Paths.SuffixAfterLastDot | DataHandling/Helper.cpp:30-34 | the suffix follows the last '.', contains none, and is "" when there is no '.' |
| Paths.DirectoryDotSuffix | DataHandling/Helper.cpp:32-33 | a single example, kept as documentation of `GetSuffix`'s whole-path search: a '.' only in a directory gives a suffix across the separator: "a.b/c" has suffix "b/c" |
| VulkanRecords.Resize | VulkanWrapper/VertexLayout.cpp:31 | `resize` keeps the existing entries and default-initialises new ones |
| WrapperVertexLayout.FormatMatchesSize | VulkanWrapper/VertexLayout.cpp:35-58 | 4/8/12/16-byte kinds get R32/R32G32/R32G32B32/R32G32B32A32, so the fallback `assert` is unreachable |
| WrapperVertexLayout.VertexLayout.constructor | VulkanWrapper/VertexLayout.cpp:4-11 | the stride is the 32-bit sum of the kinds' sizes |
| WrapperVertexLayout.VertexLayout.GetStride | VulkanWrapper/VertexLayout.cpp:13-16 | returns the stored stride |
| WrapperVertexLayout.VertexLayout.GetLayout | VulkanWrapper/VertexLayout.cpp:18-21 | returns the layout as constructed |
| WrapperVertexLayout.VertexLayout.CreateVertexDescription | VulkanWrapper/VertexLayout.cpp:23-71 | one binding (0, stride, per-vertex); entry i, padding included, has location i, binding 0, the format by size, and the prefix offset; a second call rebuilds the same arrays |
| WrapperVertexLayout.AttributesFit | VulkanWrapper/VertexLayout.cpp:30-62 | attributes do not overlap and all end within the stride |
| WrapperVertexLayout.LastAttributeEndsAtStride | VulkanWrapper/VertexLayout.cpp:30-62 | the final running offset equals the stride |
| EngineVertexLayout.KindSize | Engine/Engine/VertexLayout.h:27-41 | every kind takes 4, 8, 12 or 16 bytes |
| EngineVertexLayout.VertexLayout.constructor | Engine/Engine/VertexLayout.h:22-42 | the stride adds 8 for UV, 4 for PADDINGFLOAT, 16 for PADDINGVEC4 and 12 otherwise, in 32 bits |
| EngineVertexLayout.VertexLayout.GetStride | Engine/Engine/VertexLayout.h:44 | returns the stored stride |
| EngineVertexLayout.VertexLayout.GetLayout | Engine/Engine/VertexLayout.h:45 | returns the layout as constructed |
| EngineVertexLayout.VertexLayout.CreateVertexDescription | Engine/Engine/VertexLayout.cpp:4-49 | one binding (0, stride, per-vertex); non-padding entry i has location i, binding 0, R32G32 for UV or R32G32B32, and the running offset; padding entries stay default |
| EngineVertexLayout.StrideByKinds | Engine/Engine/VertexLayout.h:22-42 | the stride is 12 per kind, minus 4 per UV, minus 8 per PADDINGFLOAT, plus 4 per PADDINGVEC4 |
| EngineVertexLayout.StridePermutation | Engine/Engine/VertexLayout.h:22-42 | the stride does not depend on the order of the kinds |
| EngineVertexLayout.ColorIsThreeFloats | Engine/Engine/VertexLayout.h:38-40 | COLOR counts 12 bytes here, against 16 in the attribute table, and is described as R32G32B32 |
| EngineVertexLayout.DescriptionsFit | Engine/Engine/VertexLayout.cpp:13-39 | formats match the table sizes; offsets are increasing and non-overlapping, and end within the stride |
| DescriptorRecords.FindType | VulkanWrapper/DescriptorPool.cpp:28-30 | `find_if` returns the first entry of the type, or the end |
| DescriptorRecords.GroupByTypeFacts | VulkanWrapper/DescriptorPool.cpp:26-42 | the reference grouping has distinct types, one entry per type present, each counting that type's total |
| DescriptorRecords.GroupByTypeStep | VulkanWrapper/DescriptorPool.cpp:28-41 | merging one binding into the grouping of a prefix gives the grouping of the longer prefix |
| DescriptorRecords.TallyIsGroupByType | VulkanWrapper/DescriptorPool.cpp:26-42 | the incremental find-or-append tally equals the reference grouping |
| DescriptorRecords.TallyGroupsByType | VulkanWrapper/DescriptorPool.cpp:26-42 | pool sizes have pairwise distinct types, an entry for every type present, and each count equals the 32-bit total of that type |
| DescriptorRecords.FirstTypesDistinct | VulkanWrapper/DescriptorPool.cpp:28-41 | entries appear once per type, in first-occurrence order |
| DescriptorRecords.TallySnoc | VulkanWrapper/DescriptorPool.cpp:28-41 | tallying one more binding is one find-or-append step |
| WrapperDescriptors.DescriptorSet.constructor | VulkanWrapper/DescriptorSet.cpp:7-9 | a new set has no writes, no layout bindings and null handles |
| WrapperDescriptors.DescriptorSet.AddImageBinding | VulkanWrapper/DescriptorSet.cpp:16-30 | appends one write (image info, binding = prior count, null set) and one matching layout binding; the lists stay paired |
| WrapperDescriptors.DescriptorSet.AddBufferBinding | VulkanWrapper/DescriptorSet.cpp:32-46 | the same, with buffer info |
| WrapperDescriptors.DescriptorSet.AddDescriptorSetLayoutBinding | VulkanWrapper/DescriptorSet.cpp:97-105 | appends a one-descriptor layout binding with the given number |
| WrapperDescriptors.DescriptorSet.Allocate | VulkanWrapper/DescriptorSet.cpp:48-75 | every stored write is patched in place to target the allocated set, with nothing else changed |
| WrapperDescriptors.DescriptorSet.GetDescriptorSetLayoutBindings | VulkanWrapper/DescriptorSet.cpp:82-85 | returns the layout bindings |
| WrapperDescriptors.AllocatedWritesTargetSet | VulkanWrapper/DescriptorSet.cpp:67-70 | after allocation, write k targets the set, keeps binding k and its info |
| WrapperDescriptors.DescriptorPool.constructor | VulkanWrapper/DescriptorPool.cpp:7-10 | a new pool owns no sets, has no pool sizes, a zero set counter and an empty create info |
| WrapperDescriptors.DescriptorPool.AddDescriptorSet | VulkanWrapper/DescriptorPool.cpp:23-44 | appends the set, merges each binding's count into the entry of its type (keeping the tally invariant), and increments the set counter |
| WrapperDescriptors.MergeBinding | VulkanWrapper/DescriptorPool.cpp:28-41 | one binding: growing the entry of its type by its count, or appending a new entry, keeps the pool sizes equal to the tally of every binding seen |
| WrapperDescriptors.DescriptorPool.Allocate | VulkanWrapper/DescriptorPool.cpp:46-51 | `poolSizeCount` is the entry count, and `maxSets` is the set counter |
| EngineDescriptors.DescriptorSet.constructor | Engine/Engine/DescriptorSet.cpp:7-9 | a new set has no writes, no layout bindings and null handles |
| EngineDescriptors.DescriptorSet.AddImageBinding | Engine/Engine/DescriptorSet.cpp:16-30 | appends one write (binding = prior count) and one layout binding numbered 0 |
| EngineDescriptors.DescriptorSet.AddBufferBinding | Engine/Engine/DescriptorSet.cpp:32-46 | the same, with buffer info |
| EngineDescriptors.DescriptorSet.AddDescriptorSetLayoutBinding | Engine/Engine/DescriptorSet.cpp:86-94 | appends a one-descriptor layout binding numbered 0 |
| EngineDescriptors.DescriptorSet.Allocate | Engine/Engine/DescriptorSet.cpp:48-74 | the by-value loop changes nothing: stored writes and the update keep a null set |
| EngineDescriptors.DescriptorSet.GetDescriptorSetLayoutBindings | Engine/Engine/DescriptorSet.cpp:76-79 | returns the layout bindings |
| EngineDescriptors.LayoutNumbersCollide | Engine/Engine/DescriptorSet.cpp:86-94 | with two bindings, the layout numbers repeat 0 while write 1 names binding 1, which no layout binding has |
| EngineDescriptors.DescriptorSetLayout.constructor | Engine/Engine/DescriptorSetLayout.cpp:3-5 | a new layout has no bindings |
| EngineDescriptors.DescriptorSetLayout.AddBinding | Engine/Engine/DescriptorSetLayout.cpp:7-15 | appends one binding numbered by the prior length, with count 1 and the given type and stage |
| EngineDescriptors.DescriptorSetLayout.GetSize | Engine/Engine/DescriptorSetLayout.cpp:17-20 | the number of bindings added |
| EngineDescriptors.DescriptorSetLayout.GetRaw | Engine/Engine/DescriptorSetLayout.cpp:22-25 | the bindings in insertion order, the k-th numbered k |
| EngineDescriptors.DescriptorPool.constructor | Engine/Engine/DescriptorPool.cpp:7-10 | a new pool has no pool sizes, has counted no sets and has an empty create info |
| EngineDescriptors.DescriptorPool.AddDescriptorSet | Engine/Engine/DescriptorPool.cpp:16-36 | counts one descriptor per binding in the entry of its type (count 1 for a new type), keeps no set, and increments the set counter |
| EngineDescriptors.CountBinding | Engine/Engine/DescriptorPool.cpp:20-33 | one binding: incrementing the entry of its type, or appending it with count 1, keeps the pool sizes equal to the unit tally of every binding seen |
| EngineDescriptors.DescriptorPool.Allocate | Engine/Engine/DescriptorPool.cpp:38-43 | `poolSizeCount` is the entry count, and `maxSets` is the set counter |
| EngineDescriptors.UnitTotals | Engine/Engine/DescriptorPool.cpp:23-33 | counting one per binding, a type's total is its number of bindings, whatever their `descriptorCount` |

## Left out

- The model makes no Vulkan calls: no `vkCreate*`, `vkAllocate*` or `vkUpdateDescriptorSets`, and no queue waits. The handles these calls would return are parameters of the `Allocate` methods.
- `WrapperDescriptors.DescriptorPool.Allocate` does not model the loop that allocates every owned set, because that loop only forwards device handles to `DescriptorSet::Allocate`.
- `readFile` is file I/O, and is not part of this model.
- `VoxelChunk::Raycast` and `IsInChunk` are left out. They are float geometry with epsilon guards, as are the ray slab test, the camera, and the numerics of the glm rotations.
- The model treats floats as exact reals: there is no rounding or NaN. `TransformVector` and the rotations use the exact cosines and sines (0, ±1) of the angles the source rotates by.
- The dangling references are not modelled. `Array3D::operator[]` returns its slice by value in the model, and `GetVoxel` returns its id by value.
- The two `AddBinding` overloads of each descriptor set are named `AddImageBinding` and `AddBufferBinding`.
- Descriptor and image infos are identified by a number, not by a pointer.
- `size_t` and attribute locations are unbounded naturals. No model reaches 2^64.
- Strings are assumed shorter than `npos`.
- `VoxelChunkModel.VoxelChunk.GenerateMesh`: requires a cubic chunk (so do `MeshWith`, `EmitChunk`, `EmitRow`, `EmitVoxel`, `VoxelRead` and `EmitTest`). All three source loops run to `GetDepth()`, and the face tests compare x and y against the swapped `GetWidth()`/`GetHeight()`. On a non-cubic grid the source therefore meshes only the depth × depth × depth corner, when depth is at most both sides, with a face test that does not match the grid's faces. It reads out of range when depth exceeds a side. The model does not describe meshing a non-cubic chunk. The chunk itself, and `GetVoxel`, accept any shape.
- `DenseGrid.Array3D.GetDepth`: `Array3D` declares only `GetWidth` and `GetHeight`, so the `GetDepth()` calls in the chunk name a member that is absent from the class. The model assumes it returns the stored depth.
- `MeshModel.Mesh.AddVertexAttribute`: requires a non-empty element list. For an empty vector the source takes `&data[0]` and `data[data.size()-1]`, which is undefined behaviour, so the model describes no result for it.
- `MeshShapes.GeneratePlaneMeshVertexData`, `MeshShapes.GeneratePlaneMeshIndexData`, `MeshShapes.CreatePlaneMesh`, `MeshShapes.BoxVertexData`, `MeshShapes.BoxIndexData`, `MeshShapes.CreateRectBox` and `MeshShapes.CreateCubeMesh`: take the subdivision as two naturals. The source takes a signed `glm::ivec2` and converts each component with `size_t(subdivision.x) + 2`. A component of −1 gives one vertex per row, and the position step `width / (horVertices - 1)` divides by zero. A component of −2 gives no vertices, while `vertVertices - 1` wraps to the largest `size_t`, so the index loops run for about 2^64 steps. Other negative components wrap to huge vertex counts. The model covers only non-negative subdivisions.
- `MeshModel.Mesh.CreateVerticesAt`: requires the requested list to be composable. That means every kind present, no count above the first kind's, and every shorter kind fill-enabled with at least one element. Otherwise the source overruns the buffer, fires its assertion, or underflows `count − 1`. The comment on `SetFillVertexAttribute` (DataHandling/Mesh.h:35) promises that a fill-enabled kind with no data is zero-initialised. The code instead reads element `vertexAttributeCount - 1` (DataHandling/Mesh.cpp:35), which wraps to 2^64 − 1 when the count is 0. The requirement excludes that case, so the model describes neither the promised zero column nor the out-of-range read.
- The pool's `AddDescriptorSet` loop updates a local copy of the pool sizes and stores it once the loop ends. No other code runs in between, so the final state is the same as updating the member in place.
- The composing loop nest is split into methods: `CreateVerticesAt` → `WriteKind` → `WriteAttributeColumn` → `WriteSlot`. The chunk's triple loop is split the same way: `EmitChunk` → `EmitRow` → `EmitVoxel` → `EmitCube`.
- `DenseGrid.Array2D.CopyAssign`: models the intended deep copy. The source's copy assignment names the members `m_Height` and `m_Width`, which do not exist, so that template cannot be instantiated as written.
- The move constructors of both grids run the copy assignment, because `other` is an lvalue there. They are modelled by `CopyOf`.

## Findings

| source | as written | input that shows it | evidently intended | confidence | as-written member | corrected member |
|---|---|---|---|---|---|---|
| Base/Array3D.h:18 | `at` asserts `x*H*D + y*D + z < Height*Width` | 1×1×2 grid, cell (0,0,1): index 1 fails `1 < 1`; 2×2×1 grid, (0,0,3): index 3 passes `3 < 4` | the per-axis bound `x < W && y < H && z < D`, which keeps every access within W·H·D | not executed | DenseGrid.AtAssertionWrong | DenseGrid.InBoundsIsSafe |
| Base/Array3D.h:78-93 | move assignment swaps pointer, width and height, but never sets its own depth | moving a 1×1×2 grid into a 1×1×1 grid leaves the destination with 2 cells and depth 1 | exchange depth too | not executed | DenseGrid.MoveAssignDropsDepth | DenseGrid.SwapAssignKeepsDepth |
