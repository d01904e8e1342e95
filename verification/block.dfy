/**
 * The `Block` class of GameEngine.h: block types, faces and face sets, the
 * texture atlas lookup, and the mesh of one cube with a chosen set of faces.
 */
module Blocks {
  import opened Buffers

  /** Block types, one byte per voxel. */
  const Air: bv8 := 0x0
  const Dirt: bv8 := 0x1
  const Stone: bv8 := 0x2
  const Grass: bv8 := 0x3

  /** The six faces of a block: Front faces -y, Back +y, Left -x, Right +x, Top +z, Bottom -z. */
  datatype Face = Front | Back | Left | Right | Top | Bottom

  /** The bit of each face in a face set (a byte); bits 6 and 7 belong to no face. */
  function Mask(f: Face): bv8
  {
    match f
    case Front => 0x1
    case Back => 0x2
    case Left => 0x4
    case Right => 0x8
    case Top => 0x10
    case Bottom => 0x20
  }

  /** The texture atlas is N x N cells. */
  const N: int := 16

  /** The atlas cell (column, row) that textures side `side` of a block of type `block`. */
  function GetTexture(block: bv8, side: bv8): (cell: (int, int))
    ensures 0 <= cell.0 < N && 0 <= cell.1 < N
  {
    match block
    case 0x3 =>
      if side == Mask(Top) then (1, 0)
      else if side == Mask(Bottom) then (3, 0)
      else (2, 0)
    case 0x1 => (3, 0)
    case 0x2 => (0, 0)
    case _ => (12, 1)
  }

  /** Only grass looks different from different sides, where it shows three distinct cells. */
  lemma TextureSides(block: bv8, s: bv8, t: bv8)
    ensures block != Grass ==> GetTexture(block, s) == GetTexture(block, t)
    ensures block == Grass && s == Mask(Top) && t != Mask(Top) ==> GetTexture(block, s) != GetTexture(block, t)
    ensures block == Grass && s == Mask(Bottom) && t != Mask(Bottom) ==> GetTexture(block, s) != GetTexture(block, t)
  {
  }

  /** The outward unit normal of each face. */
  function Normal(f: Face): Point
  {
    match f
    case Front => Point(0, -1, 0)
    case Back => Point(0, 1, 0)
    case Left => Point(-1, 0, 0)
    case Right => Point(1, 0, 0)
    case Top => Point(0, 0, 1)
    case Bottom => Point(0, 0, -1)
  }

  /** The corners a, b, c, d of each face of the cube centred on the block. */
  function Corners(f: Face): (Point, Point, Point, Point)
  {
    match f
    case Top => (Point(-1, 1, 1), Point(-1, -1, 1), Point(1, -1, 1), Point(1, 1, 1))
    case Bottom => (Point(-1, 1, -1), Point(-1, -1, -1), Point(1, -1, -1), Point(1, 1, -1))
    case Left => (Point(-1, 1, -1), Point(-1, -1, -1), Point(-1, -1, 1), Point(-1, 1, 1))
    case Right => (Point(1, 1, -1), Point(1, -1, -1), Point(1, -1, 1), Point(1, 1, 1))
    case Back => (Point(1, 1, -1), Point(-1, 1, -1), Point(-1, 1, 1), Point(1, 1, 1))
    case Front => (Point(1, -1, -1), Point(-1, -1, -1), Point(-1, -1, 1), Point(1, -1, 1))
  }

  /** Top, Left and Back pass their corners to `addQuad` as (d, c, b, a); the others as (a, b, c, d). */
  predicate PassedReversed(f: Face)
  {
    f == Top || f == Left || f == Back
  }

  /**
   * The four vertices `Block(block, faceSet)` passes to `addQuad` for face `f`,
   * in the order it passes them; corners a, b, c, d get the texture
   * coordinates (i, j+1), (i+1, j+1), (i+1, j), (i, j) of the face's cell (i, j).
   */
  function QuadArgs(block: bv8, f: Face): (Vertex, Vertex, Vertex, Vertex)
  {
    var (pa, pb, pc, pd) := Corners(f);
    var (i, j) := GetTexture(block, Mask(f));
    var a, b := Vertex(pa, TexCoord(i, j + 1)), Vertex(pb, TexCoord(i + 1, j + 1));
    var c, d := Vertex(pc, TexCoord(i + 1, j)), Vertex(pd, TexCoord(i, j));
    if PassedReversed(f) then (d, c, b, a) else (a, b, c, d)
  }

  /** The six vertices emitted for face `f`. */
  function FaceVertices(block: bv8, f: Face): seq<Vertex>
  {
    var (a, b, c, d) := QuadArgs(block, f);
    Quad(a, b, c, d)
  }

  /** The vertices emitted for face `f` given the face set: its quad if its bit is set, else none. */
  function IfFace(block: bv8, faceSet: bv8, f: Face): seq<Vertex>
  {
    if faceSet & Mask(f) != 0 then FaceVertices(block, f) else []
  }

  /** The order in which `Block(block, faceSet)` visits the faces. */
  function EmitOrder(i: int): Face
  {
    if i == 0 then Top else if i == 1 then Bottom else if i == 2 then Left
    else if i == 3 then Right else if i == 4 then Back else Front
  }

  /** The vertices emitted for the first `k` faces of the emission order. */
  function EmittedFaces(block: bv8, faceSet: bv8, k: nat): seq<Vertex>
  {
    if k == 0 then [] else EmittedFaces(block, faceSet, k - 1) + IfFace(block, faceSet, EmitOrder(k - 1))
  }

  /** The contents of `Block(block, faceSet)`: faces in the order Top, Bottom, Left, Right, Back, Front. */
  function BlockVertices(block: bv8, faceSet: bv8): seq<Vertex>
  {
    EmittedFaces(block, faceSet, 6)
  }

  function Bit(faceSet: bv8, f: Face): nat
  {
    if faceSet & Mask(f) != 0 then 1 else 0
  }

  /** The number of faces among the first `k` of the emission order whose bit is set. */
  function CountedFaces(faceSet: bv8, k: nat): nat
  {
    if k == 0 then 0 else CountedFaces(faceSet, k - 1) + Bit(faceSet, EmitOrder(k - 1))
  }

  /** The number of faces whose bit is set in `faceSet`. */
  function FaceCount(faceSet: bv8): nat
  {
    CountedFaces(faceSet, 6)
  }

  lemma {:induction false} EmittedCount(block: bv8, faceSet: bv8, k: nat)
    ensures |EmittedFaces(block, faceSet, k)| == 6 * CountedFaces(faceSet, k)
    ensures CountedFaces(faceSet, k) <= k
  {
    if k > 0 {
      EmittedCount(block, faceSet, k - 1);
    }
  }

  /** The face count is the sum of the six face bits. */
  lemma FaceCountBits(faceSet: bv8)
    ensures FaceCount(faceSet) ==
      Bit(faceSet, Top) + Bit(faceSet, Bottom) + Bit(faceSet, Left)
      + Bit(faceSet, Right) + Bit(faceSet, Back) + Bit(faceSet, Front)
  {
    assert CountedFaces(faceSet, 1) == Bit(faceSet, Top);
    assert CountedFaces(faceSet, 2) == CountedFaces(faceSet, 1) + Bit(faceSet, Bottom);
    assert CountedFaces(faceSet, 3) == CountedFaces(faceSet, 2) + Bit(faceSet, Left);
    assert CountedFaces(faceSet, 4) == CountedFaces(faceSet, 3) + Bit(faceSet, Right);
    assert CountedFaces(faceSet, 5) == CountedFaces(faceSet, 4) + Bit(faceSet, Back);
  }

  /** `Block(block, faceSet)` emits exactly six vertices per face bit set, and none otherwise. */
  lemma BlockVertexCount(block: bv8, faceSet: bv8)
    ensures |BlockVertices(block, faceSet)| == 6 * FaceCount(faceSet)
    ensures FaceCount(faceSet) <= 6
    ensures FaceCount(faceSet) == 0 <==> faceSet & 0x3f == 0
  {
    EmittedCount(block, faceSet, 6);
    FaceCountBits(faceSet);
  }

  /** The vertices of a face are corners of the unit cube centred on the block, on that face's side. */
  lemma FaceOnCube(block: bv8, f: Face)
    ensures forall v | v in FaceVertices(block, f) ::
      && (v.position.x == 1 || v.position.x == -1)
      && (v.position.y == 1 || v.position.y == -1)
      && (v.position.z == 1 || v.position.z == -1)
      && (Normal(f).x != 0 ==> v.position.x == Normal(f).x)
      && (Normal(f).y != 0 ==> v.position.y == Normal(f).y)
      && (Normal(f).z != 0 ==> v.position.z == Normal(f).z)
  {
  }

  /** A block mesh vertex lies on the unit cube centred on the block. */
  predicate OnUnitCube(v: Vertex)
  {
    && (v.position.x == 1 || v.position.x == -1)
    && (v.position.y == 1 || v.position.y == -1)
    && (v.position.z == 1 || v.position.z == -1)
  }

  lemma {:induction false} EmittedOnCube(block: bv8, faceSet: bv8, k: nat)
    ensures forall v | v in EmittedFaces(block, faceSet, k) :: OnUnitCube(v)
  {
    if k > 0 {
      EmittedOnCube(block, faceSet, k - 1);
      FaceOnCube(block, EmitOrder(k - 1));
    }
  }

  /** Every vertex of a block's mesh is a corner of the unit cube centred on the block. */
  lemma BlockOnCube(block: bv8, faceSet: bv8)
    ensures forall v | v in BlockVertices(block, faceSet) :: OnUnitCube(v)
  {
    EmittedOnCube(block, faceSet, 6);
  }

  /** A face's texture coordinates are exactly the four corners of the atlas cell `GetTexture(block, Mask(f))`. */
  lemma FaceTexture(block: bv8, f: Face)
    ensures var (i, j) := GetTexture(block, Mask(f));
      (set v | v in FaceVertices(block, f) :: v.tex)
        == {TexCoord(i, j), TexCoord(i + 1, j), TexCoord(i, j + 1), TexCoord(i + 1, j + 1)}
  {
    var (i, j) := GetTexture(block, Mask(f));
    var (a, b, c, d) := QuadArgs(block, f);
    var s := FaceVertices(block, f);
    assert s == [a, b, d, b, c, d];
    var texs := set v | v in s :: v.tex;
    var corners := {TexCoord(i, j), TexCoord(i + 1, j), TexCoord(i, j + 1), TexCoord(i + 1, j + 1)};
    assert {a.tex, b.tex, c.tex, d.tex} == corners;
    assert a in s && b in s && c in s && d in s;
    assert texs == {a.tex, b.tex, c.tex, d.tex};
  }

  /**
   * One branch of `Block(block, faceSet)`: if the bit of face `f` is set, look
   * up the face's atlas cell and append its quad.
   */
  method AddFaceIfSet(mesh: Buffer, block: bv8, faceSet: bv8, f: Face)
    modifies mesh
    ensures mesh.data == old(mesh.data) + IfFace(block, faceSet, f)
  {
    if faceSet & Mask(f) != 0 {
      var (a, b, c, d) := QuadArgs(block, f);
      mesh.AddQuad(a, b, c, d);
    }
  }

  /**
   * `Block(block, faceSet)`: a fresh buffer holding one quad for each face bit
   * set, in the order Top, Bottom, Left, Right, Back, Front.
   */
  method NewBlock(block: bv8, faceSet: bv8) returns (mesh: Buffer)
    ensures fresh(mesh)
    ensures mesh.data == BlockVertices(block, faceSet)
  {
    mesh := new Buffer();
    AddFaceIfSet(mesh, block, faceSet, Top);
    assert mesh.data == EmittedFaces(block, faceSet, 1);
    AddFaceIfSet(mesh, block, faceSet, Bottom);
    assert mesh.data == EmittedFaces(block, faceSet, 2);
    AddFaceIfSet(mesh, block, faceSet, Left);
    assert mesh.data == EmittedFaces(block, faceSet, 3);
    AddFaceIfSet(mesh, block, faceSet, Right);
    assert mesh.data == EmittedFaces(block, faceSet, 4);
    AddFaceIfSet(mesh, block, faceSet, Back);
    assert mesh.data == EmittedFaces(block, faceSet, 5);
    AddFaceIfSet(mesh, block, faceSet, Front);
  }
}
