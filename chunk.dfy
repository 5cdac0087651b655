/**
 * Chunk coordinates and voxel storage: a chunk is a 16 x 128 x 16 column of cells kept in a
 * flat vector indexed by y * AREA + z * SIZE + x, with bounds-guarded reads and writes.
 */
module Chunks {
  import opened Common
  import opened Blocks

  const CHUNK_SIZE: nat := 16
  const CHUNK_HEIGHT: nat := 128
  const CHUNK_AREA: nat := CHUNK_SIZE * CHUNK_SIZE
  const CHUNK_VOLUME: nat := CHUNK_AREA * CHUNK_HEIGHT

  datatype ChunkPosition = ChunkPosition(x: int, z: int)

  /** The chunk holding a block: floor division of x and z by the chunk size. */
  function FromBlockPosition(p: IVec3): (r: ChunkPosition)
    ensures r.x * CHUNK_SIZE <= p.x < r.x * CHUNK_SIZE + CHUNK_SIZE
    ensures r.z * CHUNK_SIZE <= p.z < r.z * CHUNK_SIZE + CHUNK_SIZE
  {
    ChunkPosition(p.x / CHUNK_SIZE, p.z / CHUNK_SIZE)
  }

  /** The lowest corner of a chunk; it lies in the chunk it came from. */
  function MinBlockPosition(c: ChunkPosition): (r: IVec3)
    ensures FromBlockPosition(r) == c
    ensures r.y == 0 && r.x % CHUNK_SIZE == 0 && r.z % CHUNK_SIZE == 0
  {
    IVec3(c.x * CHUNK_SIZE, 0, c.z * CHUNK_SIZE)
  }

  /** A block lies between its chunk's minimum corner and that corner plus the chunk size. */
  lemma BlockInsideItsChunk(p: IVec3)
    ensures MinBlockPosition(FromBlockPosition(p)).x <= p.x < MinBlockPosition(FromBlockPosition(p)).x + CHUNK_SIZE
    ensures MinBlockPosition(FromBlockPosition(p)).z <= p.z < MinBlockPosition(FromBlockPosition(p)).z + CHUNK_SIZE
  {
  }

  function Abs(n: int): (r: nat)
    ensures r == n || r == -n
  {
    if n < 0 then -n else n
  }

  function Manhattan(a: ChunkPosition, b: ChunkPosition): nat {
    Abs(a.x - b.x) + Abs(a.z - b.z)
  }

  function Chebyshev(a: ChunkPosition, b: ChunkPosition): nat {
    if Abs(a.x - b.x) < Abs(a.z - b.z) then Abs(a.z - b.z) else Abs(a.x - b.x)
  }

  /** North, south, east, west: four distinct positions at Manhattan distance 1. */
  function Neighbors(c: ChunkPosition): (r: seq<ChunkPosition>)
    ensures |r| == 4 && NoDuplicates(r)
    ensures forall i :: 0 <= i < 4 ==> Manhattan(c, r[i]) == 1
  {
    [ChunkPosition(c.x, c.z - 1), ChunkPosition(c.x, c.z + 1),
     ChunkPosition(c.x + 1, c.z), ChunkPosition(c.x - 1, c.z)]
  }

  /** The four direct neighbours followed by the four diagonal ones. */
  function AllNeighbors(c: ChunkPosition): (r: seq<ChunkPosition>)
    ensures |r| == 8 && NoDuplicates(r) && r[..4] == Neighbors(c)
    ensures forall i :: 0 <= i < 8 ==> Chebyshev(c, r[i]) == 1
  {
    Neighbors(c) +
    [ChunkPosition(c.x + 1, c.z - 1), ChunkPosition(c.x + 1, c.z + 1),
     ChunkPosition(c.x - 1, c.z - 1), ChunkPosition(c.x - 1, c.z + 1)]
  }

  /** Conversely, every position at Chebyshev distance 1 is one of the eight neighbours. */
  lemma AllNeighborsComplete(c: ChunkPosition, d: ChunkPosition)
    requires Chebyshev(c, d) == 1
    ensures d in AllNeighbors(c)
  {
    var r := AllNeighbors(c);
    if d.x == c.x {
      if d.z < c.z { assert d == r[0]; } else { assert d == r[1]; }
    } else if d.x > c.x {
      if d.z < c.z { assert d == r[4]; } else if d.z > c.z { assert d == r[5]; } else { assert d == r[2]; }
    } else {
      if d.z < c.z { assert d == r[6]; } else if d.z > c.z { assert d == r[7]; } else { assert d == r[3]; }
    }
  }

  predicate InChunk(lx: int, y: int, lz: int) {
    0 <= lx < CHUNK_SIZE && 0 <= y < CHUNK_HEIGHT && 0 <= lz < CHUNK_SIZE
  }

  /** Flat index of a local cell; every in-range cell gets an index below the volume. */
  function LocalToIndex(lx: nat, y: nat, lz: nat): (r: nat)
    ensures InChunk(lx, y, lz) ==> r < CHUNK_VOLUME
  {
    y * CHUNK_AREA + lz * CHUNK_SIZE + lx
  }

  /** Local cell of a flat index, as (x, y, z). */
  function IndexToLocal(index: nat): (r: (nat, nat, nat))
    ensures index < CHUNK_VOLUME ==> InChunk(r.0, r.1, r.2)
    ensures r.0 < CHUNK_SIZE && r.2 < CHUNK_SIZE
  {
    var remainder := index % CHUNK_AREA;
    (remainder % CHUNK_SIZE, index / CHUNK_AREA, remainder / CHUNK_SIZE)
  }

  lemma LocalIndexRoundTrip(lx: nat, y: nat, lz: nat)
    requires InChunk(lx, y, lz)
    ensures IndexToLocal(LocalToIndex(lx, y, lz)) == (lx, y, lz)
  {
    var i := LocalToIndex(lx, y, lz);
    assert i / CHUNK_AREA == y && i % CHUNK_AREA == lz * CHUNK_SIZE + lx;
  }

  lemma IndexLocalRoundTrip(index: nat)
    requires index < CHUNK_VOLUME
    ensures var (lx, y, lz) := IndexToLocal(index); LocalToIndex(lx, y, lz) == index
  {
  }

  /** Distinct in-range cells never share a slot of the flat vector. */
  lemma LocalToIndexInjective(ax: nat, ay: nat, az: nat, bx: nat, bY: nat, bz: nat)
    requires InChunk(ax, ay, az) && InChunk(bx, bY, bz)
    requires LocalToIndex(ax, ay, az) == LocalToIndex(bx, bY, bz)
    ensures ax == bx && ay == bY && az == bz
  {
    LocalIndexRoundTrip(ax, ay, az);
    LocalIndexRoundTrip(bx, bY, bz);
  }

  /** Reading a cell of a block vector of full volume; out-of-range coordinates read as None. */
  function BlockAt(blocks: seq<Option<BlockType>>, lx: nat, y: nat, lz: nat): (r: Option<BlockType>)
    requires |blocks| == CHUNK_VOLUME
    ensures !InChunk(lx, y, lz) ==> r == None
    ensures InChunk(lx, y, lz) ==> r == blocks[LocalToIndex(lx, y, lz)]
  {
    if lx >= CHUNK_SIZE || lz >= CHUNK_SIZE || y >= CHUNK_HEIGHT then None
    else blocks[LocalToIndex(lx, y, lz)]
  }

  /** The voxel storage of one chunk. */
  class ChunkData {
    var blocks: seq<Option<BlockType>>

    ghost predicate Valid()
      reads this
    {
      |blocks| == CHUNK_VOLUME
    }

    /** Every cell starts empty. */
    constructor ()
      ensures Valid()
      ensures forall i :: 0 <= i < |blocks| ==> blocks[i] == None
    {
      blocks := seq(CHUNK_VOLUME, _ => None);
    }

    function GetBlock(lx: nat, y: nat, lz: nat): (r: Option<BlockType>)
      reads this
      requires Valid()
      ensures r == BlockAt(blocks, lx, y, lz)
    {
      BlockAt(blocks, lx, y, lz)
    }

    /** Writes Some(b) into an in-range cell and nothing else; out of range it does nothing. */
    method SetBlock(lx: nat, y: nat, lz: nat, b: BlockType)
      requires Valid()
      modifies this
      ensures Valid()
      ensures !InChunk(lx, y, lz) ==> blocks == old(blocks)
      ensures InChunk(lx, y, lz) ==> GetBlock(lx, y, lz) == Some(b)
      ensures InChunk(lx, y, lz) ==> blocks == old(blocks)[LocalToIndex(lx, y, lz) := Some(b)]
      ensures forall px: nat, py: nat, pz: nat :: (px, py, pz) != (lx, y, lz) ==>
        GetBlock(px, py, pz) == old(GetBlock(px, py, pz))
    {
      if lx >= CHUNK_SIZE || lz >= CHUNK_SIZE || y >= CHUNK_HEIGHT {
        return;
      }
      var index := LocalToIndex(lx, y, lz);
      blocks := blocks[index := Some(b)];
      forall px: nat, py: nat, pz: nat | (px, py, pz) != (lx, y, lz)
        ensures GetBlock(px, py, pz) == old(GetBlock(px, py, pz))
      {
        if InChunk(px, py, pz) {
          if LocalToIndex(px, py, pz) == index {
            LocalToIndexInjective(px, py, pz, lx, y, lz);
          }
        }
      }
    }
  }

  /** Per-column climate record. */
  datatype BiomeData = BiomeData(temperature: real, moisture: real, biomeType: string)

  const DefaultBiomeData := BiomeData(0.0, 0.0, "")

  /** Per-column biome storage, one record per (x, z) of the chunk. */
  class ChunkBiomeData {
    var data: seq<BiomeData>

    constructor ()
      ensures |data| == CHUNK_AREA
      ensures forall i :: 0 <= i < |data| ==> data[i] == DefaultBiomeData
    {
      data := seq(CHUNK_AREA, _ => DefaultBiomeData);
    }

    /** The record at (x, z), or None when z * SIZE + x is past the end of the storage. */
    function GetBiomeData(lx: nat, lz: nat): (r: Option<BiomeData>)
      reads this
      ensures r.Some? <==> lz * CHUNK_SIZE + lx < |data|
      ensures r.Some? ==> r.value == data[lz * CHUNK_SIZE + lx]
    {
      var index := lz * CHUNK_SIZE + lx;
      if index < |data| then Some(data[index]) else None
    }

    /** Overwrites the record at (x, z) when its flat index is in range; nothing else changes. */
    method SetBiomeData(lx: nat, lz: nat, temperature: real, moisture: real, biomeType: string)
      modifies this
      ensures |data| == old(|data|)
      ensures lz * CHUNK_SIZE + lx < |data| ==>
        GetBiomeData(lx, lz) == Some(BiomeData(temperature, moisture, biomeType))
      ensures forall i :: 0 <= i < |data| && i != lz * CHUNK_SIZE + lx ==> data[i] == old(data[i])
      ensures lz * CHUNK_SIZE + lx >= |data| ==> data == old(data)
    {
      var index := lz * CHUNK_SIZE + lx;
      if index < |data| {
        data := data[index := BiomeData(temperature, moisture, biomeType)];
      }
    }
  }

  /** Local coordinates of a world position: x and z wrap into the chunk, y is clamped. */
  function WorldToLocal(p: IVec3): (r: IVec3)
    ensures 0 <= r.x < CHUNK_SIZE && 0 <= r.z < CHUNK_SIZE && 0 <= r.y < CHUNK_HEIGHT
    ensures (p.x - r.x) % CHUNK_SIZE == 0 && (p.z - r.z) % CHUNK_SIZE == 0
    ensures 0 <= p.y < CHUNK_HEIGHT ==> r.y == p.y
    ensures p.y < 0 ==> r.y == 0
    ensures p.y >= CHUNK_HEIGHT ==> r.y == CHUNK_HEIGHT - 1
  {
    IVec3(p.x % CHUNK_SIZE,
          if p.y < 0 then 0 else if p.y > CHUNK_HEIGHT - 1 then CHUNK_HEIGHT - 1 else p.y,
          p.z % CHUNK_SIZE)
  }

  /** For a position inside the chunk, the local coordinates are the offset from its minimum corner. */
  lemma WorldToLocalInside(c: ChunkPosition, p: IVec3)
    requires Contains(c, p)
    ensures WorldToLocal(p) == IVec3(p.x - c.x * CHUNK_SIZE, p.y, p.z - c.z * CHUNK_SIZE)
  {
    var m := MinBlockPosition(c);
    assert p.x == c.x * CHUNK_SIZE + (p.x - m.x);
    assert p.z == c.z * CHUNK_SIZE + (p.z - m.z);
  }

  /** Whether a world position lies within the chunk at `c` (pure part of `Chunk::contains`). */
  predicate Contains(c: ChunkPosition, p: IVec3) {
    var lo := MinBlockPosition(c);
    var hi := IVec3(lo.x + CHUNK_SIZE, lo.y + CHUNK_HEIGHT, lo.z + CHUNK_SIZE);
    lo.x <= p.x < hi.x && lo.y <= p.y < hi.y && lo.z <= p.z < hi.z
  }

  /** A chunk contains exactly the positions whose chunk it is, at heights 0..127. */
  lemma ContainsExactly(c: ChunkPosition, p: IVec3)
    ensures Contains(c, p) <==> FromBlockPosition(p) == c && 0 <= p.y < CHUNK_HEIGHT
  {
    if FromBlockPosition(p) == c {
      assert Contains(c, p) <==> 0 <= p.y < CHUNK_HEIGHT;
    }
  }

  /** A chunk: its position, voxel and biome storage, and two status flags. */
  class Chunk {
    const position: ChunkPosition
    const data: ChunkData
    const biomeData: ChunkBiomeData
    var isGenerated: bool
    var needsMeshUpdate: bool

    ghost predicate Valid()
      reads this, data
    {
      data.Valid()
    }

    constructor (position: ChunkPosition)
      ensures Valid() && fresh(data) && fresh(biomeData)
      ensures this.position == position && !isGenerated && needsMeshUpdate
      ensures forall i :: 0 <= i < |data.blocks| ==> data.blocks[i] == None
      ensures |biomeData.data| == CHUNK_AREA
    {
      this.position := position;
      data := new ChunkData();
      biomeData := new ChunkBiomeData();
      isGenerated := false;
      needsMeshUpdate := true;
    }

    /** Reads the cell the world position maps to after wrapping x/z and clamping y. */
    function GetBlockWorld(p: IVec3): (r: Option<BlockType>)
      reads this, data
      requires Valid()
      ensures var l := WorldToLocal(p); r == data.blocks[LocalToIndex(l.x, l.y, l.z)]
    {
      var l := WorldToLocal(p);
      data.GetBlock(l.x, l.y, l.z)
    }

    /** Writes the mapped cell, leaves every other world position reading the same, and flags the mesh. */
    method SetBlockWorld(p: IVec3, b: BlockType)
      requires Valid()
      modifies data, this`needsMeshUpdate
      ensures Valid() && needsMeshUpdate
      ensures GetBlockWorld(p) == Some(b)
      ensures forall q :: WorldToLocal(q) != WorldToLocal(p) ==> GetBlockWorld(q) == old(GetBlockWorld(q))
      ensures var l := WorldToLocal(p); data.blocks == old(data.blocks)[LocalToIndex(l.x, l.y, l.z) := Some(b)]
    {
      var l := WorldToLocal(p);
      data.SetBlock(l.x, l.y, l.z, b);
      needsMeshUpdate := true;
    }
  }

  /** The loaded chunk table (position to entity id) and the render distance. */
  datatype ChunkManager = ChunkManager(loadedChunks: map<ChunkPosition, nat>, renderDistance: int)

  function ShouldLoadChunk(m: ChunkManager, c: ChunkPosition, player: ChunkPosition): (r: bool)
    ensures r <==> Chebyshev(c, player) <= m.renderDistance
  {
    Abs(c.x - player.x) <= m.renderDistance && Abs(c.z - player.z) <= m.renderDistance
  }

  function ShouldUnloadChunk(m: ChunkManager, c: ChunkPosition, player: ChunkPosition): (r: bool)
    ensures r <==> Chebyshev(c, player) > m.renderDistance
  {
    Abs(c.x - player.x) > m.renderDistance || Abs(c.z - player.z) > m.renderDistance
  }

  /** Load and unload decisions are exact complements. */
  lemma LoadUnloadComplement(m: ChunkManager, c: ChunkPosition, player: ChunkPosition)
    ensures ShouldUnloadChunk(m, c, player) <==> !ShouldLoadChunk(m, c, player)
  {
  }

  /**
   * The cell of a neighbouring chunk that borders (lx, y, lz): the local x becomes 0 for an east
   * neighbour and SIZE-1 for a west one, likewise z for south/north; y is kept. `chunks` stands for
   * the entity query, mapping an entity to its block vector. None when the neighbour is not
   * loaded or its entity has no chunk.
   */
  function GetNeighborBlock(m: ChunkManager, chunks: map<nat, seq<Option<BlockType>>>,
                            c: ChunkPosition, n: ChunkPosition, lx: nat, y: nat, lz: nat): (r: Option<BlockType>)
    requires forall e :: e in chunks ==> |chunks[e]| == CHUNK_VOLUME
    ensures n !in m.loadedChunks ==> r == None
    ensures n in m.loadedChunks && m.loadedChunks[n] !in chunks ==> r == None
    ensures n in m.loadedChunks && m.loadedChunks[n] in chunks ==>
      r == BlockAt(chunks[m.loadedChunks[n]], NeighborLocal(n.x, c.x, lx), y, NeighborLocal(n.z, c.z, lz))
  {
    if n in m.loadedChunks && m.loadedChunks[n] in chunks then
      var nx := if n.x > c.x then 0 else if n.x < c.x then CHUNK_SIZE - 1 else lx;
      var nz := if n.z > c.z then 0 else if n.z < c.z then CHUNK_SIZE - 1 else lz;
      BlockAt(chunks[m.loadedChunks[n]], nx, y, nz)
    else None
  }

  /** The coordinate on the neighbour's side of the shared boundary. */
  function NeighborLocal(neighbor: int, here: int, local: nat): (r: nat)
    ensures neighbor > here ==> r == 0
    ensures neighbor < here ==> r == CHUNK_SIZE - 1
    ensures neighbor == here ==> r == local
  {
    if neighbor > here then 0 else if neighbor < here then CHUNK_SIZE - 1 else local
  }
}
