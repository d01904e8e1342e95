/**
 * The `GameEngine` class of GameEngine.h: a fixed 6 x 6 block of chunks
 * around the origin, and a render step that hands the buffer of every chunk,
 * in order, to the draw callback.
 */
module Engine {
  import opened Buffers
  import opened Chunks

  /** Chunks span locations -RADIUS .. RADIUS - 1 on each axis. */
  const RADIUS: int := 3
  /** The number of chunks along each axis. */
  const SIDE: int := 6

  /** The location of the k-th chunk the constructor creates: (i, j) in row-major order. */
  function GridLocation(k: int): Location
  {
    (k / SIDE - RADIUS, k % SIDE - RADIUS)
  }

  /** The k-th chunk for k in 0 .. 35 covers each location of the 6 x 6 block exactly once. */
  lemma GridLocations()
    ensures forall k, l | 0 <= k < l < SIDE * SIDE :: GridLocation(k) != GridLocation(l)
    ensures forall i, j | -RADIUS <= i < RADIUS && -RADIUS <= j < RADIUS ::
      0 <= (i + RADIUS) * SIDE + (j + RADIUS) < SIDE * SIDE && GridLocation((i + RADIUS) * SIDE + (j + RADIUS)) == (i, j)
    ensures forall k | 0 <= k < SIDE * SIDE ::
      -RADIUS <= GridLocation(k).0 < RADIUS && -RADIUS <= GridLocation(k).1 < RADIUS
  {
    forall k | 0 <= k < SIDE * SIDE
      ensures (GridLocation(k).0 + RADIUS) * SIDE + (GridLocation(k).1 + RADIUS) == k
    {
    }
    forall i, j | -RADIUS <= i < RADIUS && -RADIUS <= j < RADIUS
      ensures GridLocation((i + RADIUS) * SIDE + (j + RADIUS)) == (i, j)
    {
    }
  }

  class GameEngine {
    var chunks: seq<Chunk>

    ghost predicate Valid()
      reads this, chunks, set c | c in chunks :: c.blocks, set c | c in chunks :: c.buffer
    {
      && (forall k | 0 <= k < |chunks| :: chunks[k].Valid() && IsTerrain(chunks[k].blocks))
      && (forall k, l | 0 <= k < l < |chunks| :: chunks[k] != chunks[l])
    }

    /** The constructor: one new chunk for each location (i, j) with -3 <= i, j < 3, row by row. */
    constructor ()
      ensures Valid()
      ensures |chunks| == SIDE * SIDE
      ensures forall k | 0 <= k < |chunks| ::
        && fresh(chunks[k]) && chunks[k].location == GridLocation(k) && chunks[k].modified
        && IsTerrain(chunks[k].blocks)
    {
      var cs: seq<Chunk> := [];
      var i := -RADIUS;
      while i < RADIUS
        invariant -RADIUS <= i <= RADIUS
        invariant |cs| == (i + RADIUS) * SIDE
        invariant forall k | 0 <= k < |cs| ::
          && fresh(cs[k]) && cs[k].Valid() && cs[k].location == GridLocation(k) && cs[k].modified
          && IsTerrain(cs[k].blocks)
        invariant forall k, l | 0 <= k < l < |cs| :: cs[k] != cs[l]
      {
        var j := -RADIUS;
        while j < RADIUS
          invariant -RADIUS <= j <= RADIUS
          invariant |cs| == (i + RADIUS) * SIDE + (j + RADIUS)
          invariant forall k | 0 <= k < |cs| ::
            && fresh(cs[k]) && cs[k].Valid() && cs[k].location == GridLocation(k) && cs[k].modified
            && IsTerrain(cs[k].blocks)
          invariant forall k, l | 0 <= k < l < |cs| :: cs[k] != cs[l]
        {
          var c := new Chunk((i, j));
          cs := cs + [c];
          j := j + 1;
        }
        i := i + 1;
      }
      chunks := cs;
    }

    /**
     * `render`: the buffer of every chunk, in the order of `chunks`, as the
     * draw callback receives it. Each chunk whose mesh was out of date is
     * rebuilt; a chunk that was up to date hands back its cached buffer.
     * After the call every buffer holds its chunk's current mesh, which for
     * the terrain every chunk holds is 27264 vertices.
     */
    method Render() returns (frame: seq<NativeBuffer>)
      requires Valid()
      modifies chunks
      ensures Valid()
      ensures |frame| == |chunks|
      ensures forall k | 0 <= k < |chunks| ::
        && frame[k] == chunks[k].buffer && !chunks[k].modified
        && frame[k].data == ChunkMesh(chunks[k].blocks, chunks[k].location)
      ensures forall k | 0 <= k < |frame| :: frame[k].size == 27264
      ensures forall k | 0 <= k < |chunks| :: !old(chunks[k].modified) ==> frame[k] == old(chunks[k].buffer)
    {
      frame := [];
      var k := 0;
      while k < |chunks|
        invariant 0 <= k <= |chunks|
        invariant Valid()
        invariant |frame| == k
        invariant forall l | 0 <= l < k ::
          && frame[l] == chunks[l].buffer && !chunks[l].modified
          && frame[l].data == ChunkMesh(chunks[l].blocks, chunks[l].location)
          && (!old(chunks[l].modified) ==> frame[l] == old(chunks[l].buffer))
        invariant forall l | k <= l < |chunks| ::
          chunks[l].modified == old(chunks[l].modified) && chunks[l].buffer == old(chunks[l].buffer)
      {
        var b := chunks[k].GetBuffer();
        frame := frame + [b];
        k := k + 1;
      }
      forall l | 0 <= l < |frame|
        ensures frame[l].size == 27264
      {
        TerrainChunkMesh(chunks[l].blocks, chunks[l].location);
      }
    }
  }
}
