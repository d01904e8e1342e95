/**
 * The `Chunk` class of GameEngine.h: a 16 x 16 x 256 grid of block bytes
 * filled with a fixed terrain profile, and the mesh of its visible faces,
 * rebuilt behind a dirty flag.
 *
 * The mesh is specified by functions that follow the loops of `getBuffer`:
 * `CellMesh` is what one cell contributes, and `ColumnMesh`, `SliceMesh` and
 * `ChunkMeshUpTo` concatenate those contributions in the order z, then y,
 * then x.
 */
module Chunks {
  import opened Buffers
  import opened Blocks

  const WIDTH: int := 16
  const HEIGHT: int := 256

  /** `Biome::SEA_LEVEL`. */
  const SEA_LEVEL: int := 62

  /** A chunk's coordinate on the chunk grid. */
  type Location = (int, int)

  /** The dimensions of a chunk's block array. */
  predicate IsGrid(a: array3<bv8>)
  {
    a.Length0 == WIDTH && a.Length1 == WIDTH && a.Length2 == HEIGHT
  }

  predicate InChunk(x: int, y: int, z: int)
  {
    0 <= x < WIDTH && 0 <= y < WIDTH && 0 <= z < HEIGHT
  }

  /** The block the terrain fill leaves at height `z` of every column. */
  function TerrainAt(z: int): bv8
  {
    if z <= SEA_LEVEL - 4 then Stone
    else if z < SEA_LEVEL then Dirt
    else if z == SEA_LEVEL then Grass
    else Air
  }

  /** The terrain profile: solid up to sea level, grass exactly at sea level, stone at the bottom of every column. */
  lemma TerrainLayers(z: int)
    ensures TerrainAt(z) != Air <==> z <= SEA_LEVEL
    ensures TerrainAt(z) == Grass <==> z == SEA_LEVEL
    ensures TerrainAt(z) == Dirt <==> SEA_LEVEL - 4 < z < SEA_LEVEL
    ensures TerrainAt(z) == Stone <==> z <= SEA_LEVEL - 4
  {
  }

  /** The grid holds the terrain profile in every column. */
  ghost predicate IsTerrain(a: array3<bv8>)
    reads a
    requires IsGrid(a)
  {
    forall x, y, z | InChunk(x, y, z) :: a[x, y, z] == TerrainAt(z)
  }

  /**
   * Whether face `f` of cell (x, y, z) can be seen: the cell one step along
   * the face's outward normal is outside the chunk or holds air.
   */
  predicate Exposed(a: array3<bv8>, x: int, y: int, z: int, f: Face)
    reads a
    requires IsGrid(a) && InChunk(x, y, z)
  {
    var n := Normal(f);
    var nx, ny, nz := x + n.x, y + n.y, z + n.z;
    !InChunk(nx, ny, nz) || a[nx, ny, nz] == Air
  }

  /** The faces in the order `getBuffer` tests them. */
  function TestOrder(i: int): Face
  {
    if i == 0 then Right else if i == 1 then Left else if i == 2 then Back
    else if i == 3 then Front else if i == 4 then Top else Bottom
  }

  /** The face set holding each of the first `k` faces of the test order that is exposed. */
  function SidesFrom(a: array3<bv8>, x: int, y: int, z: int, k: nat): bv8
    reads a
    requires IsGrid(a) && InChunk(x, y, z)
  {
    if k == 0 then 0
    else SidesFrom(a, x, y, z, k - 1) | (if Exposed(a, x, y, z, TestOrder(k - 1)) then Mask(TestOrder(k - 1)) else 0)
  }

  /** The face set `getBuffer` computes for the cell (x, y, z). */
  function VisibleSides(a: array3<bv8>, x: int, y: int, z: int): bv8
    reads a
    requires IsGrid(a) && InChunk(x, y, z)
  {
    SidesFrom(a, x, y, z, 6)
  }

  /** The tests `getBuffer` makes for each face are exactly the exposure conditions. */
  lemma NeighbourTests(a: array3<bv8>, x: int, y: int, z: int)
    requires IsGrid(a) && InChunk(x, y, z)
    ensures Exposed(a, x, y, z, Right) <==> x == WIDTH - 1 || a[x + 1, y, z] == Air
    ensures Exposed(a, x, y, z, Left) <==> x == 0 || a[x - 1, y, z] == Air
    ensures Exposed(a, x, y, z, Back) <==> y == WIDTH - 1 || a[x, y + 1, z] == Air
    ensures Exposed(a, x, y, z, Front) <==> y == 0 || a[x, y - 1, z] == Air
    ensures Exposed(a, x, y, z, Top) <==> z == HEIGHT - 1 || a[x, y, z + 1] == Air
    ensures Exposed(a, x, y, z, Bottom) <==> z == 0 || a[x, y, z - 1] == Air
  {
  }

  /** The visible set spelled out bit by bit. */
  lemma VisibleSidesBits(a: array3<bv8>, x: int, y: int, z: int)
    requires IsGrid(a) && InChunk(x, y, z)
    ensures VisibleSides(a, x, y, z) ==
      (if Exposed(a, x, y, z, Right) then 0x8 else 0) | (if Exposed(a, x, y, z, Left) then 0x4 else 0)
      | (if Exposed(a, x, y, z, Back) then 0x2 else 0) | (if Exposed(a, x, y, z, Front) then 0x1 else 0)
      | (if Exposed(a, x, y, z, Top) then 0x10 else 0) | (if Exposed(a, x, y, z, Bottom) then 0x20 else 0)
  {
    var r, l, b, fr, t := Exposed(a, x, y, z, Right), Exposed(a, x, y, z, Left), Exposed(a, x, y, z, Back),
      Exposed(a, x, y, z, Front), Exposed(a, x, y, z, Top);
    assert SidesFrom(a, x, y, z, 1) == (if r then 0x8 else 0);
    assert SidesFrom(a, x, y, z, 2) == (if r then 0x8 else 0) | (if l then 0x4 else 0);
    assert SidesFrom(a, x, y, z, 3) == (if r then 0x8 else 0) | (if l then 0x4 else 0) | (if b then 0x2 else 0);
    assert SidesFrom(a, x, y, z, 4) ==
      (if r then 0x8 else 0) | (if l then 0x4 else 0) | (if b then 0x2 else 0) | (if fr then 0x1 else 0);
    assert SidesFrom(a, x, y, z, 5) ==
      (if r then 0x8 else 0) | (if l then 0x4 else 0) | (if b then 0x2 else 0) | (if fr then 0x1 else 0)
      | (if t then 0x10 else 0);
  }

  /** A face is in the visible set exactly when it is exposed; no bit outside the six faces is set. */
  lemma VisibleSidesExposed(a: array3<bv8>, x: int, y: int, z: int)
    requires IsGrid(a) && InChunk(x, y, z)
    ensures forall f: Face :: VisibleSides(a, x, y, z) & Mask(f) != 0 <==> Exposed(a, x, y, z, f)
    ensures VisibleSides(a, x, y, z) & 0xc0 == 0
  {
    VisibleSidesBits(a, x, y, z);
  }

  /** The world-space offset, in half-block units, of cell (x, y, z) of the chunk at `loc`. */
  function CellOffset(loc: Location, x: int, y: int, z: int): Point
  {
    Point(2 * (loc.0 * WIDTH + x), 2 * (loc.1 * WIDTH + y), 2 * z)
  }

  /** What cell (x, y, z) adds to the chunk mesh: nothing for air, else its block's visible faces moved into place. */
  function CellMesh(a: array3<bv8>, loc: Location, x: int, y: int, z: int): seq<Vertex>
    reads a
    requires IsGrid(a) && InChunk(x, y, z)
  {
    if a[x, y, z] == Air then []
    else
      var o := CellOffset(loc, x, y, z);
      Translated(BlockVertices(a[x, y, z], VisibleSides(a, x, y, z)), o.x, o.y, o.z)
  }

  /** The mesh of cells (x, y, 0) .. (x, y, z - 1). */
  function ColumnMesh(a: array3<bv8>, loc: Location, x: int, y: int, z: int): seq<Vertex>
    reads a
    requires IsGrid(a) && 0 <= x < WIDTH && 0 <= y < WIDTH && 0 <= z <= HEIGHT
    decreases z
  {
    if z == 0 then [] else ColumnMesh(a, loc, x, y, z - 1) + CellMesh(a, loc, x, y, z - 1)
  }

  /** The mesh of columns (x, 0) .. (x, y - 1). */
  function SliceMesh(a: array3<bv8>, loc: Location, x: int, y: int): seq<Vertex>
    reads a
    requires IsGrid(a) && 0 <= x < WIDTH && 0 <= y <= WIDTH
    decreases y
  {
    if y == 0 then [] else SliceMesh(a, loc, x, y - 1) + ColumnMesh(a, loc, x, y - 1, HEIGHT)
  }

  /** The mesh of slices 0 .. x - 1. */
  function ChunkMeshUpTo(a: array3<bv8>, loc: Location, x: int): seq<Vertex>
    reads a
    requires IsGrid(a) && 0 <= x <= WIDTH
    decreases x
  {
    if x == 0 then [] else ChunkMeshUpTo(a, loc, x - 1) + SliceMesh(a, loc, x - 1, WIDTH)
  }

  /** The vertices `getBuffer` builds for the chunk at `loc` whose blocks are `a`. */
  function ChunkMesh(a: array3<bv8>, loc: Location): seq<Vertex>
    reads a
    requires IsGrid(a)
  {
    ChunkMeshUpTo(a, loc, WIDTH)
  }

  /** The number of faces cell (x, y, z) shows: none for air. */
  function CellFaces(a: array3<bv8>, x: int, y: int, z: int): nat
    reads a
    requires IsGrid(a) && InChunk(x, y, z)
  {
    if a[x, y, z] == Air then 0 else FaceCount(VisibleSides(a, x, y, z))
  }

  function ColumnFaces(a: array3<bv8>, x: int, y: int, z: int): nat
    reads a
    requires IsGrid(a) && 0 <= x < WIDTH && 0 <= y < WIDTH && 0 <= z <= HEIGHT
    decreases z
  {
    if z == 0 then 0 else ColumnFaces(a, x, y, z - 1) + CellFaces(a, x, y, z - 1)
  }

  function SliceFaces(a: array3<bv8>, x: int, y: int): nat
    reads a
    requires IsGrid(a) && 0 <= x < WIDTH && 0 <= y <= WIDTH
    decreases y
  {
    if y == 0 then 0 else SliceFaces(a, x, y - 1) + ColumnFaces(a, x, y - 1, HEIGHT)
  }

  function ChunkFacesUpTo(a: array3<bv8>, x: int): nat
    reads a
    requires IsGrid(a) && 0 <= x <= WIDTH
    decreases x
  {
    if x == 0 then 0 else ChunkFacesUpTo(a, x - 1) + SliceFaces(a, x - 1, WIDTH)
  }

  /** The number of visible faces of non-air cells in the whole chunk. */
  function ChunkFaces(a: array3<bv8>): nat
    reads a
    requires IsGrid(a)
  {
    ChunkFacesUpTo(a, WIDTH)
  }

  /** A cell contributes six vertices per visible face; an air cell contributes none. */
  lemma CellVertexCount(a: array3<bv8>, loc: Location, x: int, y: int, z: int)
    requires IsGrid(a) && InChunk(x, y, z)
    ensures |CellMesh(a, loc, x, y, z)| == 6 * CellFaces(a, x, y, z)
    ensures a[x, y, z] == Air ==> CellMesh(a, loc, x, y, z) == []
    ensures CellFaces(a, x, y, z) <= 6
  {
    BlockVertexCount(a[x, y, z], VisibleSides(a, x, y, z));
  }

  lemma {:induction false} ColumnVertexCount(a: array3<bv8>, loc: Location, x: int, y: int, z: int)
    requires IsGrid(a) && 0 <= x < WIDTH && 0 <= y < WIDTH && 0 <= z <= HEIGHT
    ensures |ColumnMesh(a, loc, x, y, z)| == 6 * ColumnFaces(a, x, y, z)
    decreases z
  {
    if z > 0 {
      ColumnVertexCount(a, loc, x, y, z - 1);
      CellVertexCount(a, loc, x, y, z - 1);
    }
  }

  lemma {:induction false} SliceVertexCount(a: array3<bv8>, loc: Location, x: int, y: int)
    requires IsGrid(a) && 0 <= x < WIDTH && 0 <= y <= WIDTH
    ensures |SliceMesh(a, loc, x, y)| == 6 * SliceFaces(a, x, y)
    decreases y
  {
    if y > 0 {
      SliceVertexCount(a, loc, x, y - 1);
      ColumnVertexCount(a, loc, x, y - 1, HEIGHT);
    }
  }

  lemma {:induction false} ChunkVertexCountUpTo(a: array3<bv8>, loc: Location, x: int)
    requires IsGrid(a) && 0 <= x <= WIDTH
    ensures |ChunkMeshUpTo(a, loc, x)| == 6 * ChunkFacesUpTo(a, x)
    decreases x
  {
    if x > 0 {
      ChunkVertexCountUpTo(a, loc, x - 1);
      SliceVertexCount(a, loc, x - 1, WIDTH);
    }
  }

  /** The chunk buffer holds exactly six vertices for every visible face of every non-air block. */
  lemma ChunkVertexCount(a: array3<bv8>, loc: Location)
    requires IsGrid(a)
    ensures |ChunkMesh(a, loc)| == 6 * ChunkFaces(a)
  {
    ChunkVertexCountUpTo(a, loc, WIDTH);
  }

  /**
   * In a terrain chunk every block at or below sea level shows its top only
   * at sea level, its bottom only at z = 0, and a side only where that side
   * lies on the chunk's edge: the edges are always meshed.
   */
  lemma TerrainSides(a: array3<bv8>, x: int, y: int, z: int)
    requires IsGrid(a) && IsTerrain(a) && InChunk(x, y, z) && z <= SEA_LEVEL
    ensures VisibleSides(a, x, y, z) & Mask(Top) != 0 <==> z == SEA_LEVEL
    ensures VisibleSides(a, x, y, z) & Mask(Bottom) != 0 <==> z == 0
    ensures VisibleSides(a, x, y, z) & Mask(Left) != 0 <==> x == 0
    ensures VisibleSides(a, x, y, z) & Mask(Right) != 0 <==> x == WIDTH - 1
    ensures VisibleSides(a, x, y, z) & Mask(Front) != 0 <==> y == 0
    ensures VisibleSides(a, x, y, z) & Mask(Back) != 0 <==> y == WIDTH - 1
  {
    VisibleSidesExposed(a, x, y, z);
    TerrainLayers(z + 1);
    TerrainLayers(z - 1);
    assert Exposed(a, x, y, z, Top) <==> z == SEA_LEVEL;
  }

  function Indicator(b: bool): nat
  {
    if b then 1 else 0
  }

  /** The number of the chunk's x edges that column x touches. */
  function XEdges(x: int): nat
  {
    Indicator(x == 0) + Indicator(x == WIDTH - 1)
  }

  /** The number of the chunk's vertical edges that column (x, y) touches. */
  function EdgeCount(x: int, y: int): nat
  {
    XEdges(x) + Indicator(y == 0) + Indicator(y == WIDTH - 1)
  }

  /** The faces a terrain cell shows: its edge faces, plus its top at sea level and its bottom at z = 0. */
  lemma TerrainCellFaces(a: array3<bv8>, x: int, y: int, z: int)
    requires IsGrid(a) && IsTerrain(a) && InChunk(x, y, z)
    ensures CellFaces(a, x, y, z) ==
      if z > SEA_LEVEL then 0
      else EdgeCount(x, y) + Indicator(z == SEA_LEVEL) + Indicator(z == 0)
  {
    TerrainLayers(z);
    if z <= SEA_LEVEL {
      TerrainSides(a, x, y, z);
      FaceCountBits(VisibleSides(a, x, y, z));
    }
  }

  lemma {:induction false} TerrainColumnFaces(a: array3<bv8>, x: int, y: int, z: int)
    requires IsGrid(a) && IsTerrain(a) && 0 <= x < WIDTH && 0 <= y < WIDTH && 0 <= z <= HEIGHT
    ensures ColumnFaces(a, x, y, z) ==
      if z <= SEA_LEVEL + 1 then z * EdgeCount(x, y) + Indicator(z > 0) + Indicator(z == SEA_LEVEL + 1)
      else (SEA_LEVEL + 1) * EdgeCount(x, y) + 2
    decreases z
  {
    if z > 0 {
      TerrainColumnFaces(a, x, y, z - 1);
      TerrainCellFaces(a, x, y, z - 1);
      assert (z - 1) * EdgeCount(x, y) + EdgeCount(x, y) == z * EdgeCount(x, y);
    }
  }

  lemma {:induction false} TerrainSliceFaces(a: array3<bv8>, x: int, y: int)
    requires IsGrid(a) && IsTerrain(a) && 0 <= x < WIDTH && 0 <= y <= WIDTH
    ensures SliceFaces(a, x, y) ==
      y * ((SEA_LEVEL + 1) * XEdges(x) + 2) + (SEA_LEVEL + 1) * (Indicator(y > 0) + Indicator(y == WIDTH))
    decreases y
  {
    if y > 0 {
      TerrainSliceFaces(a, x, y - 1);
      TerrainColumnFaces(a, x, y - 1, HEIGHT);
      var c := (SEA_LEVEL + 1) * XEdges(x) + 2;
      assert (y - 1) * c + c == y * c;
    }
  }

  lemma {:induction false} TerrainChunkFacesUpTo(a: array3<bv8>, x: int)
    requires IsGrid(a) && IsTerrain(a) && 0 <= x <= WIDTH
    ensures ChunkFacesUpTo(a, x) == 158 * x + 1008 * (Indicator(x > 0) + Indicator(x == WIDTH))
    decreases x
  {
    if x > 0 {
      TerrainChunkFacesUpTo(a, x - 1);
      TerrainSliceFaces(a, x - 1, WIDTH);
    }
  }

  /**
   * A freshly filled chunk shows 4544 faces: the 256 grass tops, the 256
   * stone bottoms, and the 4 x 16 x 63 faces on its four side walls, which are
   * meshed even though a neighbouring chunk may cover them. Its buffer holds
   * 6 vertices for each.
   */
  lemma TerrainChunkMesh(a: array3<bv8>, loc: Location)
    requires IsGrid(a) && IsTerrain(a)
    ensures ChunkFaces(a) == 4544
    ensures |ChunkMesh(a, loc)| == 27264
  {
    TerrainChunkFacesUpTo(a, WIDTH);
    ChunkVertexCount(a, loc);
  }

  /** Every vertex of cell (x, y, z) is a corner of the unit cube centred on the cell's world position. */
  lemma CellOnCube(a: array3<bv8>, loc: Location, x: int, y: int, z: int)
    requires IsGrid(a) && InChunk(x, y, z)
    ensures var o := CellOffset(loc, x, y, z);
      forall v | v in CellMesh(a, loc, x, y, z) ::
        && (v.position.x == o.x - 1 || v.position.x == o.x + 1)
        && (v.position.y == o.y - 1 || v.position.y == o.y + 1)
        && (v.position.z == o.z - 1 || v.position.z == o.z + 1)
  {
    if a[x, y, z] != Air {
      var s := BlockVertices(a[x, y, z], VisibleSides(a, x, y, z));
      var r := CellMesh(a, loc, x, y, z);
      BlockOnCube(a[x, y, z], VisibleSides(a, x, y, z));
      var o := CellOffset(loc, x, y, z);
      TranslatedPointwise(s, o.x, o.y, o.z);
      forall v | v in r
        ensures var o := CellOffset(loc, x, y, z);
          && (v.position.x == o.x - 1 || v.position.x == o.x + 1)
          && (v.position.y == o.y - 1 || v.position.y == o.y + 1)
          && (v.position.z == o.z - 1 || v.position.z == o.z + 1)
      {
        var i :| 0 <= i < |r| && r[i] == v;
        assert s[i] in s;
      }
    }
  }

  /**
   * A vertex lies within the chunk at `loc`: its world position is inside
   * the chunk's 16 x 16 x 256 box of blocks, block corners included.
   */
  predicate InFootprint(loc: Location, v: Vertex)
  {
    && 2 * loc.0 * WIDTH - 1 <= v.position.x <= 2 * (loc.0 * WIDTH + WIDTH) - 1
    && 2 * loc.1 * WIDTH - 1 <= v.position.y <= 2 * (loc.1 * WIDTH + WIDTH) - 1
    && -1 <= v.position.z <= 2 * HEIGHT - 1
  }

  lemma CellInFootprint(a: array3<bv8>, loc: Location, x: int, y: int, z: int)
    requires IsGrid(a) && InChunk(x, y, z)
    ensures forall v | v in CellMesh(a, loc, x, y, z) :: InFootprint(loc, v)
  {
    CellOnCube(a, loc, x, y, z);
  }

  lemma {:induction false} ColumnInFootprint(a: array3<bv8>, loc: Location, x: int, y: int, z: int)
    requires IsGrid(a) && 0 <= x < WIDTH && 0 <= y < WIDTH && 0 <= z <= HEIGHT
    ensures forall v | v in ColumnMesh(a, loc, x, y, z) :: InFootprint(loc, v)
    decreases z
  {
    if z > 0 {
      ColumnInFootprint(a, loc, x, y, z - 1);
      CellInFootprint(a, loc, x, y, z - 1);
    }
  }

  lemma {:induction false} SliceInFootprint(a: array3<bv8>, loc: Location, x: int, y: int)
    requires IsGrid(a) && 0 <= x < WIDTH && 0 <= y <= WIDTH
    ensures forall v | v in SliceMesh(a, loc, x, y) :: InFootprint(loc, v)
    decreases y
  {
    if y > 0 {
      SliceInFootprint(a, loc, x, y - 1);
      ColumnInFootprint(a, loc, x, y - 1, HEIGHT);
    }
  }

  lemma {:induction false} ChunkInFootprintUpTo(a: array3<bv8>, loc: Location, x: int)
    requires IsGrid(a) && 0 <= x <= WIDTH
    ensures forall v | v in ChunkMeshUpTo(a, loc, x) :: InFootprint(loc, v)
    decreases x
  {
    if x > 0 {
      ChunkInFootprintUpTo(a, loc, x - 1);
      SliceInFootprint(a, loc, x - 1, WIDTH);
    }
  }

  /** Every vertex of a chunk's mesh lies within that chunk: the per-block offsets place it in world space. */
  lemma ChunkInFootprint(a: array3<bv8>, loc: Location)
    requires IsGrid(a)
    ensures forall v | v in ChunkMesh(a, loc) :: InFootprint(loc, v)
  {
    ChunkInFootprintUpTo(a, loc, WIDTH);
  }

  /**
   * Cells before (x, y, z) in the order the loops of `Chunk` visit them:
   * x, then y, then z.
   */
  predicate Before(i: int, j: int, k: int, x: int, y: int, z: int)
  {
    i < x || (i == x && (j < y || (j == y && k < z)))
  }

  /** The terrain fill has written every cell before (x, y, z); the later cells are still zero. */
  ghost predicate FilledUpTo(a: array3<bv8>, x: int, y: int, z: int)
    reads a
    requires IsGrid(a)
  {
    forall i, j, k | InChunk(i, j, k) ::
      a[i, j, k] == if Before(i, j, k, x, y, z) then TerrainAt(k) else Air
  }

  lemma AppendAssoc(s: seq<Vertex>, t: seq<Vertex>, u: seq<Vertex>)
    ensures s + t + u == s + (t + u)
  {
  }

  /** A chunk: its location, its blocks, and its mesh on the device, cached while `modified` is false. */
  class Chunk {
    const location: Location
    const blocks: array3<bv8>
    var buffer: NativeBuffer
    var modified: bool

    ghost predicate Valid()
      reads this, blocks, buffer
    {
      && IsGrid(blocks)
      && buffer.Valid()
      && (!modified ==> buffer.data == ChunkMesh(blocks, location) && buffer.capacity == buffer.size)
    }

    /**
     * `Chunk(loc)`: the blocks start zero (air) and every column is filled
     * with stone, dirt and grass up to sea level; the mesh is not built yet.
     */
    constructor (loc: Location)
      ensures Valid() && fresh(blocks) && fresh(buffer)
      ensures location == loc && modified
      ensures IsTerrain(blocks)
      ensures buffer.size == 0 && buffer.capacity == 0 && buffer.data == []
    {
      var a := new bv8[WIDTH, WIDTH, HEIGHT]((_, _, _) => Air);
      var x := 0;
      while x < WIDTH
        invariant 0 <= x <= WIDTH
        invariant FilledUpTo(a, x, 0, 0)
      {
        var y := 0;
        while y < WIDTH
          invariant 0 <= y <= WIDTH
          invariant FilledUpTo(a, x, y, 0)
        {
          var z := 0;
          while z < HEIGHT
            invariant 0 <= z <= HEIGHT
            invariant FilledUpTo(a, x, y, z)
          {
            if z <= SEA_LEVEL - 4 {
              a[x, y, z] := Stone;
            } else if z < SEA_LEVEL {
              a[x, y, z] := Dirt;
            } else if z == SEA_LEVEL {
              a[x, y, z] := Grass;
            }
            z := z + 1;
          }
          y := y + 1;
        }
        x := x + 1;
      }
      location := loc;
      blocks := a;
      buffer := new NativeBuffer();
      modified := true;
    }

    /**
     * The face set `getBuffer` builds for the non-air cell (x, y, z): a face
     * is set when the cell is on that face's edge of the chunk or the
     * neighbour across it is air.
     */
    method ComputeVisibleSides(x: int, y: int, z: int) returns (sides: bv8)
      requires IsGrid(blocks) && InChunk(x, y, z)
      ensures sides == VisibleSides(blocks, x, y, z)
    {
      NeighbourTests(blocks, x, y, z);
      VisibleSidesBits(blocks, x, y, z);
      sides := 0;
      if x == WIDTH - 1 || blocks[x + 1, y, z] == Air { sides := sides | Mask(Right); }
      if x == 0 || blocks[x - 1, y, z] == Air { sides := sides | Mask(Left); }
      if y == WIDTH - 1 || blocks[x, y + 1, z] == Air { sides := sides | Mask(Back); }
      if y == 0 || blocks[x, y - 1, z] == Air { sides := sides | Mask(Front); }
      if z == HEIGHT - 1 || blocks[x, y, z + 1] == Air { sides := sides | Mask(Top); }
      if z == 0 || blocks[x, y, z - 1] == Air { sides := sides | Mask(Bottom); }
    }

    /**
     * The body of the loops of `getBuffer` for cell (x, y, z): skip air;
     * otherwise build the block with its visible faces, move it to the
     * cell's world position and append it to `mesh`.
     */
    method AppendCell(mesh: Buffer, x: int, y: int, z: int)
      requires IsGrid(blocks) && InChunk(x, y, z)
      modifies mesh
      ensures mesh.data == old(mesh.data) + CellMesh(blocks, location, x, y, z)
    {
      if blocks[x, y, z] == Air {
        return;
      }
      var sides := ComputeVisibleSides(x, y, z);
      var b := NewBlock(blocks[x, y, z], sides);
      var o := CellOffset(location, x, y, z);
      b.Translate(o.x, o.y, o.z);
      mesh.Append(b);
    }

    /** The innermost loop of `getBuffer`: the cells of column (x, y), bottom to top. */
    method AppendColumn(mesh: Buffer, x: int, y: int)
      requires IsGrid(blocks) && 0 <= x < WIDTH && 0 <= y < WIDTH
      modifies mesh
      ensures mesh.data == old(mesh.data) + ColumnMesh(blocks, location, x, y, HEIGHT)
    {
      var z := 0;
      while z < HEIGHT
        invariant 0 <= z <= HEIGHT
        invariant mesh.data == old(mesh.data) + ColumnMesh(blocks, location, x, y, z)
      {
        AppendCell(mesh, x, y, z);
        AppendAssoc(old(mesh.data), ColumnMesh(blocks, location, x, y, z), CellMesh(blocks, location, x, y, z));
        z := z + 1;
      }
    }

    /** The middle loop of `getBuffer`: the columns of slice x, in order of y. */
    method AppendSlice(mesh: Buffer, x: int)
      requires IsGrid(blocks) && 0 <= x < WIDTH
      modifies mesh
      ensures mesh.data == old(mesh.data) + SliceMesh(blocks, location, x, WIDTH)
    {
      var y := 0;
      while y < WIDTH
        invariant 0 <= y <= WIDTH
        invariant mesh.data == old(mesh.data) + SliceMesh(blocks, location, x, y)
      {
        AppendColumn(mesh, x, y);
        AppendAssoc(old(mesh.data), SliceMesh(blocks, location, x, y), ColumnMesh(blocks, location, x, y, HEIGHT));
        y := y + 1;
      }
    }

    /** The outer loop of `getBuffer`: a new buffer holding the slices of the chunk in order of x. */
    method BuildMesh() returns (mesh: Buffer)
      requires IsGrid(blocks)
      ensures fresh(mesh)
      ensures mesh.data == ChunkMesh(blocks, location)
    {
      mesh := new Buffer();
      var x := 0;
      while x < WIDTH
        invariant 0 <= x <= WIDTH
        invariant fresh(mesh)
        invariant mesh.data == ChunkMeshUpTo(blocks, location, x)
      {
        AppendSlice(mesh, x);
        x := x + 1;
      }
    }

    /**
     * `getBuffer`: while the chunk is modified, rebuild its mesh into a
     * fresh device buffer of exactly the mesh's size and clear the flag;
     * otherwise hand back the cached buffer untouched.
     */
    method GetBuffer() returns (r: NativeBuffer)
      requires Valid()
      modifies this
      ensures Valid() && !modified && r == buffer
      ensures r.data == ChunkMesh(blocks, location) && r.size == r.capacity
      ensures old(modified) ==> fresh(r)
      ensures !old(modified) ==> r == old(buffer)
    {
      if modified {
        var mesh := BuildMesh();
        buffer := new NativeBuffer.Sized(mesh.Size());
        buffer.Fill(mesh);
        modified := false;
      }
      r := buffer;
    }
  }
}
