/**
 * A cache of noise samples for 3 x 3 chunk regions. A region is a 48 x 48 sample array keyed by the
 * region's centre chunk; a chunk's 16 x 16 samples are sliced out of the region containing it.
 * The noise generator is an input. The cache keys regions by the corrected centre `CenterOf`,
 * floor(coord / 3) * 3 + 1; the centre the source computes, floor(coord / 48) * 3 + 1, is
 * `CenterAsWritten`, and the lemmas beside it show where the two part.
 */
module NoiseCache {
  import opened Common
  import Chunks

  const SIZE: nat := Chunks.CHUNK_SIZE
  const REGION: nat := 3 * Chunks.CHUNK_SIZE

  /** The centre of a coordinate's region as the cache computes it: the region size in blocks (48) is used. */
  function CenterAsWritten(coord: int): (r: int)
    ensures r % 3 == 1
  {
    (coord / REGION) * 3 + 1
  }

  /** The centre of the 3-chunk group holding a chunk coordinate: groups are 3 chunks wide. */
  function CenterOf(coord: int): (r: int)
    ensures r % 3 == 1
    ensures -1 <= coord - r <= 1
  {
    (coord / 3) * 3 + 1
  }

  /** Row (or column) of the chunk inside its region's sample array, in chunks. */
  function RegionSlot(coord: int, center: int): int {
    coord - center + 1
  }

  /** With the centre used by the cache, a chunk's slot lies inside the 3-chunk region only for coordinates -3..2. */
  lemma {:induction false} AsWrittenSlotInRange(coord: int)
    ensures 0 <= RegionSlot(coord, CenterAsWritten(coord)) < 3 <==> -3 <= coord <= 2
  {
    var q := coord / REGION;
    var r := coord % REGION;
    assert coord == REGION * q + r && 0 <= r < REGION;
    assert RegionSlot(coord, CenterAsWritten(coord)) == 45 * q + r;
    if q >= 1 {
      assert 45 * q + r >= 45;
    } else if q <= -2 {
      assert 45 * q + r <= -90 + 47;
    }
  }

  /** Chunk 3 is a concrete witness: the cache would read its samples from rows 48..63 of a 48-row region. */
  lemma AsWrittenChunkThreeOutOfRange()
    ensures CenterAsWritten(3) == 1 && RegionSlot(3, CenterAsWritten(3)) == 3
    ensures RegionSlot(3, CenterAsWritten(3)) * SIZE >= REGION
    ensures CenterOf(3) == 4 && RegionSlot(3, CenterOf(3)) == 0
  {
  }

  predicate Shaped(s: seq<seq<real>>, n: nat) {
    |s| == n && forall i :: 0 <= i < n ==> |s[i]| == n
  }

  /** A region centred at (cx, cz) sampled from `noise`: cell (i, j) holds the sample at start + (i, j). */
  ghost predicate RegionSampled(r: seq<seq<real>>, cx: int, cz: int, noise: (int, int) -> real) {
    Shaped(r, REGION) &&
    forall i, j :: 0 <= i < REGION && 0 <= j < REGION ==> r[i][j] == noise((cx - 1) * SIZE + i, (cz - 1) * SIZE + j)
  }

  /**
   * The slice of a region the cache hands out for a chunk, as written: None where the source would
   * index outside the 48 x 48 array and panic.
   */
  function ExtractAsWritten(region: seq<seq<real>>, chunkX: int, chunkZ: int): (r: Option<seq<seq<real>>>)
    requires Shaped(region, REGION)
    ensures r.Some? <==> -3 <= chunkX <= 2 && -3 <= chunkZ <= 2
  {
    AsWrittenSlotInRange(chunkX);
    AsWrittenSlotInRange(chunkZ);
    var rx := RegionSlot(chunkX, CenterAsWritten(chunkX));
    var rz := RegionSlot(chunkZ, CenterAsWritten(chunkZ));
    if 0 <= rx < 3 && 0 <= rz < 3 then
      Some(seq(SIZE, x requires 0 <= x < SIZE => seq(SIZE, z requires 0 <= z < SIZE => region[rx * SIZE + x][rz * SIZE + z])))
    else None
  }

  /**
   * The 16 x 16 samples of chunk (chunkX, chunkZ) sliced out of its region's array, with the
   * 3-chunk centre. When the region was sampled around the chunk's centre, sample (x, z) is the noise
   * at the chunk's world column (chunkX * 16 + x, chunkZ * 16 + z).
   */
  method ExtractChunkFromRegion(region: seq<seq<real>>, chunkX: int, chunkZ: int) returns (data: seq<seq<real>>)
    requires Shaped(region, REGION)
    ensures Shaped(data, SIZE)
    ensures forall x, z :: 0 <= x < SIZE && 0 <= z < SIZE ==>
      data[x][z] == region[RegionSlot(chunkX, CenterOf(chunkX)) * SIZE + x][RegionSlot(chunkZ, CenterOf(chunkZ)) * SIZE + z]
  {
    data := seq(SIZE, _ => seq(SIZE, _ => 0.0));
    var rx := RegionSlot(chunkX, CenterOf(chunkX));
    var rz := RegionSlot(chunkZ, CenterOf(chunkZ));
    for x := 0 to SIZE
      invariant Shaped(data, SIZE)
      invariant forall i, j :: 0 <= i < x && 0 <= j < SIZE ==> data[i][j] == region[rx * SIZE + i][rz * SIZE + j]
    {
      for z := 0 to SIZE
        invariant Shaped(data, SIZE)
        invariant forall i, j :: 0 <= i < x && 0 <= j < SIZE ==> data[i][j] == region[rx * SIZE + i][rz * SIZE + j]
        invariant forall j :: 0 <= j < z ==> data[x][j] == region[rx * SIZE + x][rz * SIZE + j]
      {
        data := data[x := data[x][z := region[rx * SIZE + x][rz * SIZE + z]]];
      }
    }
  }

  /** Slicing a region sampled around a chunk's centre gives that chunk's own samples. */
  lemma SliceOfSampledRegion(region: seq<seq<real>>, chunkX: int, chunkZ: int, noise: (int, int) -> real, x: int, z: int)
    requires RegionSampled(region, CenterOf(chunkX), CenterOf(chunkZ), noise)
    requires 0 <= x < SIZE && 0 <= z < SIZE
    ensures var i, j := RegionSlot(chunkX, CenterOf(chunkX)) * SIZE + x, RegionSlot(chunkZ, CenterOf(chunkZ)) * SIZE + z;
      0 <= i < REGION && 0 <= j < REGION && region[i][j] == noise(chunkX * SIZE + x, chunkZ * SIZE + z)
  {
    var cx, cz := CenterOf(chunkX), CenterOf(chunkZ);
    var i, j := RegionSlot(chunkX, cx) * SIZE + x, RegionSlot(chunkZ, cz) * SIZE + z;
    assert (cx - 1) * SIZE + i == chunkX * SIZE + x;
    assert (cz - 1) * SIZE + j == chunkZ * SIZE + z;
  }

  class WorldNoiseCache {
    /** Sample arrays of the cached regions, by centre chunk. */
    var cache: map<(int, int), seq<seq<real>>>
    /** The chunks that caused each region to be generated, by centre chunk. */
    var cacheUsers: map<(int, int), seq<(int, int)>>

    /** Every cached region is a full 48 x 48 array. */
    ghost predicate Valid()
      reads this
    {
      forall k :: k in cache ==> Shaped(cache[k], REGION)
    }

    /** Every cached region was sampled from `noise` around its key. */
    ghost predicate CachedFrom(noise: (int, int) -> real)
      reads this
    {
      forall k :: k in cache ==> RegionSampled(cache[k], k.0, k.1, noise)
    }

    constructor ()
      ensures Valid() && cache == map[] && cacheUsers == map[]
    {
      cache := map[];
      cacheUsers := map[];
    }

    /**
     * Samples the region centred at (centerX, centerZ), stores it under that centre, and records
     * (chunkX, chunkZ) as a user of it.
     */
    method GenerateAndCacheRegion(centerX: int, centerZ: int, chunkX: int, chunkZ: int, noise: (int, int) -> real)
      returns (region: seq<seq<real>>)
      requires Valid()
      modifies this
      ensures Valid()
      ensures RegionSampled(region, centerX, centerZ, noise)
      ensures cache == old(cache)[(centerX, centerZ) := region]
      ensures cacheUsers == old(cacheUsers)[(centerX, centerZ) :=
        (if (centerX, centerZ) in old(cacheUsers) then old(cacheUsers)[(centerX, centerZ)] else []) + [(chunkX, chunkZ)]]
      ensures old(CachedFrom(noise)) ==> CachedFrom(noise)
    {
      var startX := (centerX - 1) * SIZE;
      var startZ := (centerZ - 1) * SIZE;
      region := seq(REGION, _ => seq(REGION, _ => 0.0));
      for rx := 0 to REGION
        invariant Shaped(region, REGION)
        invariant forall i, j :: 0 <= i < rx && 0 <= j < REGION ==> region[i][j] == noise(startX + i, startZ + j)
      {
        for rz := 0 to REGION
          invariant Shaped(region, REGION)
          invariant forall i, j :: 0 <= i < rx && 0 <= j < REGION ==> region[i][j] == noise(startX + i, startZ + j)
          invariant forall j :: 0 <= j < rz ==> region[rx][j] == noise(startX + rx, startZ + j)
        {
          region := region[rx := region[rx][rz := noise(startX + rx, startZ + rz)]];
        }
      }
      cache := cache[(centerX, centerZ) := region];
      var users := if (centerX, centerZ) in cacheUsers then cacheUsers[(centerX, centerZ)] else [];
      cacheUsers := cacheUsers[(centerX, centerZ) := users + [(chunkX, chunkZ)]];
    }

    /**
     * The 16 x 16 noise samples of a chunk, from the cached region of its 3 x 3 group or from a freshly
     * sampled and cached one. While the cache holds only regions sampled from `noise`, the result is
     * the noise at the chunk's own world columns, on a hit and on a miss alike.
     */
    method GetChunkNoise(chunkX: int, chunkZ: int, noise: (int, int) -> real) returns (data: seq<seq<real>>)
      requires Valid()
      modifies this
      ensures Valid() && Shaped(data, SIZE)
      ensures (CenterOf(chunkX), CenterOf(chunkZ)) in cache
      ensures (CenterOf(chunkX), CenterOf(chunkZ)) in old(cache) ==> cache == old(cache) && cacheUsers == old(cacheUsers)
      ensures old(CachedFrom(noise)) ==> CachedFrom(noise)
      ensures old(CachedFrom(noise)) ==>
        forall x, z :: 0 <= x < SIZE && 0 <= z < SIZE ==> data[x][z] == noise(chunkX * SIZE + x, chunkZ * SIZE + z)
    {
      var centerX := CenterOf(chunkX);
      var centerZ := CenterOf(chunkZ);
      var region;
      if (centerX, centerZ) in cache {
        region := cache[(centerX, centerZ)];
      } else {
        region := GenerateAndCacheRegion(centerX, centerZ, chunkX, chunkZ, noise);
      }
      data := ExtractChunkFromRegion(region, chunkX, chunkZ);
      if old(CachedFrom(noise)) {
        assert RegionSampled(region, centerX, centerZ, noise);
        forall x, z | 0 <= x < SIZE && 0 <= z < SIZE ensures data[x][z] == noise(chunkX * SIZE + x, chunkZ * SIZE + z) {
          SliceOfSampledRegion(region, chunkX, chunkZ, noise, x, z);
        }
      }
    }

    /** Keeps, in both maps, exactly the entries whose key is the centre of some active chunk. */
    method ClearUnusedCache(active: seq<(int, int)>)
      requires Valid()
      modifies this
      ensures Valid()
      ensures cache == map k | k in old(cache) && k in ActiveCenters(active) :: old(cache)[k]
      ensures cacheUsers == map k | k in old(cacheUsers) && k in ActiveCenters(active) :: old(cacheUsers)[k]
      ensures forall noise: (int, int) -> real :: old(CachedFrom(noise)) ==> CachedFrom(noise)
    {
      var keep := ActiveCenters(active);
      cache := map k | k in cache && k in keep :: cache[k];
      cacheUsers := map k | k in cacheUsers && k in keep :: cacheUsers[k];
    }
  }

  /** The region centres of a list of active chunks. */
  function ActiveCenters(active: seq<(int, int)>): (r: set<(int, int)>)
    ensures forall k :: k in r <==> exists i :: 0 <= i < |active| && k == (CenterOf(active[i].0), CenterOf(active[i].1))
  {
    set i | 0 <= i < |active| :: (CenterOf(active[i].0), CenterOf(active[i].1))
  }
}
