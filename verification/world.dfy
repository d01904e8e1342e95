/**
 * The `World` class of GameEngine.h: a cache of chunks keyed by their
 * location, where a chunk is generated at most once and looked up by
 * location.
 */
module Worlds {
  import opened Chunks

  datatype Result<T> = Ok(value: T) | Err(message: string)

  /**
   * The hash of a location: the hashes of its two coordinates combined with
   * exclusive or. The hash of one coordinate (`std::hash<int>`) is a
   * parameter.
   */
  function Hash(h: int -> bv64, loc: Location): bv64
  {
    h(loc.0) ^ h(loc.1)
  }

  /**
   * The hash cannot tell (a, b) from (b, a), and every location on the
   * diagonal hashes to zero, whatever the coordinate hash is.
   */
  lemma HashSymmetric(h: int -> bv64, a: int, b: int)
    ensures Hash(h, (a, b)) == Hash(h, (b, a))
    ensures Hash(h, (a, a)) == 0
  {
  }

  class World {
    var chunks: map<Location, Chunk>

    /** Every chunk is stored under its own location. */
    ghost predicate Valid()
      reads this
    {
      forall loc | loc in chunks :: chunks[loc].location == loc
    }

    constructor ()
      ensures Valid() && chunks == map[]
    {
      chunks := map[];
    }

    /** `isChunkGenerated`: whether a chunk is stored under `loc`. */
    function IsChunkGenerated(loc: Location): (r: bool)
      reads this
      ensures r <==> GetChunk(loc).Ok?
    {
      loc in chunks
    }

    /** `getChunk`: the chunk stored under `loc`, or the error the source throws when there is none. */
    function GetChunk(loc: Location): (r: Result<Chunk>)
      reads this
      ensures r.Ok? ==> loc in chunks && r.value == chunks[loc]
      ensures r.Err? ==> loc !in chunks && r.message == "error: chunk has not been generated yet"
    {
      if loc in chunks then Ok(chunks[loc]) else Err("error: chunk has not been generated yet")
    }

    /**
     * `generateChunk`: a new chunk for `loc` is always constructed, but it is
     * stored only if no chunk is stored under `loc` yet (`emplace`); the
     * stored chunk is returned.
     */
    method GenerateChunk(loc: Location) returns (c: Chunk)
      requires Valid()
      modifies this
      ensures Valid()
      ensures GetChunk(loc) == Ok(c)
      ensures chunks.Keys == old(chunks.Keys) + {loc}
      ensures loc in old(chunks) ==> chunks == old(chunks)
      ensures loc !in old(chunks) ==>
        && chunks == old(chunks)[loc := c] && fresh(c) && c.Valid() && c.modified
        && c.location == loc && IsTerrain(c.blocks)
    {
      var made := new Chunk(loc);
      if loc !in chunks {
        chunks := chunks[loc := made];
      }
      c := chunks[loc];
    }
  }
}
