/**
 * Vertex lists of Buffer.h: the growable CPU-side `Buffer` that meshes are
 * assembled in, and the fixed-capacity device-side `NativeBuffer` they are
 * copied into for drawing.
 *
 * Units: a position coordinate is stored in half-block units (the float c is
 * the integer 2c, so the block corners +-0.5 become +-1), and a texture
 * coordinate is stored as its numerator over the atlas size 16 (the float
 * u/16 is the integer u).
 */
module Buffers {

  datatype Point = Point(x: int, y: int, z: int)

  datatype TexCoord = TexCoord(u: int, v: int)

  datatype Vertex = Vertex(position: Point, tex: TexCoord)

  /** `v` moved by the offset (dx, dy, dz), texture unchanged. */
  function Shift(v: Vertex, dx: int, dy: int, dz: int): Vertex
  {
    Vertex(Point(v.position.x + dx, v.position.y + dy, v.position.z + dz), v.tex)
  }

  /** Every vertex of `s` moved by (dx, dy, dz): the contents after `Buffer::translate`. */
  function Translated(s: seq<Vertex>, dx: int, dy: int, dz: int): (r: seq<Vertex>)
    ensures |r| == |s|
  {
    if s == [] then [] else [Shift(s[0], dx, dy, dz)] + Translated(s[1..], dx, dy, dz)
  }

  /** Translation keeps the order and the texture coordinates and moves each vertex by the offset. */
  lemma {:induction false} TranslatedPointwise(s: seq<Vertex>, dx: int, dy: int, dz: int)
    ensures forall i :: 0 <= i < |s| ==>
      && Translated(s, dx, dy, dz)[i].tex == s[i].tex
      && Translated(s, dx, dy, dz)[i].position == Point(s[i].position.x + dx, s[i].position.y + dy, s[i].position.z + dz)
  {
    if s != [] {
      TranslatedPointwise(s[1..], dx, dy, dz);
    }
  }

  /** Translating a concatenation translates each part. */
  lemma TranslatedAppend(s: seq<Vertex>, t: seq<Vertex>, dx: int, dy: int, dz: int)
    ensures Translated(s + t, dx, dy, dz) == Translated(s, dx, dy, dz) + Translated(t, dx, dy, dz)
  {
    var l, r := Translated(s + t, dx, dy, dz), Translated(s, dx, dy, dz) + Translated(t, dx, dy, dz);
    TranslatedPointwise(s + t, dx, dy, dz);
    TranslatedPointwise(s, dx, dy, dz);
    TranslatedPointwise(t, dx, dy, dz);
    assert |l| == |r|;
    forall i | 0 <= i < |l| ensures l[i] == r[i] {
      if i < |s| {
        assert (s + t)[i] == s[i];
      } else {
        assert (s + t)[i] == t[i - |s|];
      }
    }
  }

  /** Translating by (0, 0, 0) changes nothing. */
  lemma TranslatedZero(s: seq<Vertex>)
    ensures Translated(s, 0, 0, 0) == s
  {
    var r := Translated(s, 0, 0, 0);
    TranslatedPointwise(s, 0, 0, 0);
    forall i | 0 <= i < |s| ensures r[i] == s[i] {
      assert r[i].position == s[i].position;
    }
  }

  /** The two triangles (a, b, d) and (b, c, d) of the quad a-b-c-d, which share the b-d diagonal. */
  function Quad(a: Vertex, b: Vertex, c: Vertex, d: Vertex): seq<Vertex>
  {
    [a, b, d, b, c, d]
  }

  /** The growable vertex list (`std::vector<Vertex> data_`). */
  class Buffer {
    var data: seq<Vertex>

    constructor ()
      ensures data == []
    {
      data := [];
    }

    method AddTriangle(a: Vertex, b: Vertex, c: Vertex)
      modifies this
      ensures data == old(data) + [a, b, c]
    {
      data := data + [a];
      data := data + [b];
      data := data + [c];
    }

    method AddQuad(a: Vertex, b: Vertex, c: Vertex, d: Vertex)
      modifies this
      ensures data == old(data) + [a, b, d, b, c, d]
      ensures data == old(data) + Quad(a, b, c, d)
    {
      data := data + [a];
      data := data + [b];
      data := data + [d];
      data := data + [b];
      data := data + [c];
      data := data + [d];
    }

    /** The number of stored vertices. */
    function Size(): (n: nat)
      reads this
      ensures n == |data|
    {
      |data|
    }

    /** `operator+=`: the other buffer's vertices are appended after the existing ones, in order. */
    method Append(other: Buffer)
      modifies this
      ensures data == old(data) + old(other.data)
      ensures |data| == old(|data|) + old(|other.data|)
    {
      data := data + other.data;
    }

    /** Adds the offset to the position of every vertex, one vertex at a time. */
    method Translate(dx: int, dy: int, dz: int)
      modifies this
      ensures data == Translated(old(data), dx, dy, dz)
    {
      var i := 0;
      while i < |data|
        invariant 0 <= i <= |data| == |old(data)|
        invariant forall k :: 0 <= k < i ==> data[k] == Shift(old(data)[k], dx, dy, dz)
        invariant forall k :: i <= k < |data| ==> data[k] == old(data)[k]
      {
        var v := data[i];
        data := data[i := Vertex(Point(v.position.x + dx, v.position.y + dy, v.position.z + dz), v.tex)];
        i := i + 1;
      }
      TranslatedPointwise(old(data), dx, dy, dz);
    }
  }

  /**
   * A device-side vertex buffer of fixed capacity. The device allocation and
   * the `memcpy` into it are abstracted: `data` is what the allocation holds
   * after `Fill`.
   */
  class NativeBuffer {
    var data: seq<Vertex>
    var size: nat
    var capacity: nat

    ghost predicate Valid()
      reads this
    {
      |data| == size <= capacity
    }

    /** The default, unallocated buffer. */
    constructor ()
      ensures Valid() && size == 0 && capacity == 0 && data == []
    {
      data, size, capacity := [], 0, 0;
    }

    /** A buffer with room for `capacity` vertices, none written yet. */
    constructor Sized(capacity: nat)
      ensures Valid() && size == 0 && this.capacity == capacity && data == []
    {
      data, size := [], 0;
      this.capacity := capacity;
    }

    /** Copies all of `src` into the allocation; the copy must fit. */
    method Fill(src: Buffer)
      requires Valid()
      requires |src.data| <= capacity
      modifies this
      ensures Valid()
      ensures size == |src.data| && data == src.data && capacity == old(capacity)
    {
      size := |src.data|;
      data := src.data;
    }
  }
}
