/**
 * Terrain generation: a noise value becomes a clamped column height, and each column of a chunk is
 * filled with bedrock, stone, dirt and a grass top, then retouched with sand and exposed stone.
 * The noise itself is an input.
 */
module WorldGen {
  import opened Common
  import opened Blocks
  import opened Chunks

  const MIN_TERRAIN_HEIGHT: int := 3
  const MAX_CHUNKS_PER_FRAME: nat := 2

  /** The two settings the height mapping uses (defaults 10 and 80). */
  datatype WorldGenSettings = WorldGenSettings(baseHeight: real, heightScale: real)

  const DefaultSettings := WorldGenSettings(10.0, 80.0)

  function AbsReal(r: real): real {
    if r < 0.0 then -r else r
  }

  /**
   * The unclamped column height for a noise value: the base height plus the noise mapped from
   * [-1, 1] to [0, 1] times the scale, stretched by 1 + 1.2|noise|.
   */
  function RawHeight(noise: real, settings: WorldGenSettings): real {
    var normalized := (noise + 1.0) / 2.0;
    var height := settings.baseHeight + normalized * settings.heightScale;
    height * (1.0 + AbsReal(noise) * 1.2)
  }

  /** The raw height clamped into [2, 127] and truncated to an integer. */
  function CalculateHeight(noise: real, settings: WorldGenSettings): (h: int)
    ensures 2 <= h <= CHUNK_HEIGHT - 1
    ensures var f := RawHeight(noise, settings);
      (f <= 2.0 ==> h == 2) && (f >= 127.0 ==> h == 127) && (2.0 <= f <= 127.0 ==> h as real <= f < h as real + 1.0)
  {
    var f := RawHeight(noise, settings);
    var clamped := if f < 2.0 then 2.0 else if f > (CHUNK_HEIGHT - 1) as real then (CHUNK_HEIGHT - 1) as real else f;
    clamped.Floor
  }

  /** Top of the stone layer: 90%, 80% or 60% of the column height, by height band, rounded down. */
  function StoneHeight(eh: int): int {
    if eh < 10 then eh * 9 / 10 else if eh < 30 then eh * 4 / 5 else eh * 3 / 5
  }

  function Min(a: int, b: int): int {
    if a < b then a else b
  }

  function Max(a: int, b: int): int {
    if a < b then b else a
  }

  /** What the layering writes at height y of a column of effective height eh (None: nothing). */
  function LayerCell(eh: int, y: int): Option<BlockType> {
    var s := Min(StoneHeight(eh), eh);
    if y == eh && eh > 0 then Some(Grass)
    else if s <= y < eh then Some(Dirt)
    else if 1 <= y < s then Some(Stone)
    else if y == 0 then Some(Bedrock)
    else None
  }

  /** What the environmental features write at height y (None: nothing). */
  function FeatureCell(eh: int, y: int): Option<BlockType> {
    if 5 < eh < 12 && 3 <= y <= 6 && y < eh then Some(Sand)
    else if eh > 30 && eh - 3 <= y < eh && y > 0 then Some(Stone)
    else None
  }

  /** The final content written at height y of a column: features win over layering. */
  function ColumnCell(eh: int, y: int): Option<BlockType> {
    if FeatureCell(eh, y).Some? then FeatureCell(eh, y) else LayerCell(eh, y)
  }

  /** A cell after its column has been written, given its previous content. */
  function Overlay(w: Option<BlockType>, prev: Option<BlockType>): Option<BlockType> {
    if w.Some? then w else prev
  }

  /** Before the features, stone fills [1, s) and dirt fills [s, eh), with s the stone height. */
  lemma LayersBeforeFeatures(eh: int, y: int)
    requires eh >= MIN_TERRAIN_HEIGHT
    ensures 1 <= y < StoneHeight(eh) ==> LayerCell(eh, y) == Some(Stone)
    ensures StoneHeight(eh) <= y < eh ==> LayerCell(eh, y) == Some(Dirt)
    ensures 2 <= StoneHeight(eh) < eh
  {
  }

  /**
   * In a finished column the bottom is bedrock, the top (eh) is grass, every cell strictly between
   * is stone, dirt or sand, and nothing above eh is written.
   */
  lemma ColumnShape(eh: int, y: int)
    requires eh >= MIN_TERRAIN_HEIGHT
    ensures y == 0 ==> ColumnCell(eh, y) == Some(Bedrock)
    ensures y == eh ==> ColumnCell(eh, y) == Some(Grass)
    ensures 0 < y < eh ==> ColumnCell(eh, y) in {Some(Stone), Some(Dirt), Some(Sand)}
    ensures (y > eh || y < 0) ==> ColumnCell(eh, y) == None
  {
  }

  /**
   * Sand appears only in columns of height 6..11 at y in 3..6, exposed stone above the layering
   * only in columns higher than 30 in the three cells below the top; neither touches y = eh.
   */
  lemma FeaturesPlacement(eh: int, y: int)
    ensures FeatureCell(eh, y) == Some(Sand) <==> 5 < eh < 12 && 3 <= y <= 6 && y < eh
    ensures FeatureCell(eh, y) == Some(Stone) <==> eh > 30 && eh - 3 <= y < eh && y > 0
    ensures FeatureCell(eh, eh) == None
  {
  }

  /** Cells of every other column, and cells outside the chunk, keep their content. */
  ghost predicate OtherColumnsKept(d: ChunkData, before: seq<Option<BlockType>>, lx: nat, lz: nat)
    reads d
    requires d.Valid() && |before| == CHUNK_VOLUME
  {
    forall px: nat, py: nat, pz: nat :: (px != lx || pz != lz || !InChunk(px, py, pz)) ==>
      d.GetBlock(px, py, pz) == BlockAt(before, px, py, pz)
  }

  /**
   * Retouches a column of height h: sand at y in 3..6 below the top when 5 < h < 12, and stone in
   * the three cells below the top when h > 30.
   */
  method AddEnvironmentalFeatures(chunk: Chunk, lx: nat, lz: nat, h: int)
    requires chunk.Valid()
    modifies chunk.data
    ensures chunk.Valid()
    ensures OtherColumnsKept(chunk.data, old(chunk.data.blocks), lx, lz)
    ensures forall py: nat :: InChunk(lx, py, lz) ==>
      chunk.data.GetBlock(lx, py, lz) == Overlay(FeatureCell(h, py), old(chunk.data.GetBlock(lx, py, lz)))
  {
    if h > 5 && h < 12 {
      for y := 3 to 7
        invariant chunk.Valid()
        invariant OtherColumnsKept(chunk.data, old(chunk.data.blocks), lx, lz)
        invariant forall py: nat :: InChunk(lx, py, lz) ==>
          chunk.data.GetBlock(lx, py, lz) ==
            Overlay(if py < y then FeatureCell(h, py) else None, old(chunk.data.GetBlock(lx, py, lz)))
      {
        if y < h {
          chunk.data.SetBlock(lx, y, lz, Sand);
        }
      }
    }
    if h > 25 {
      if h > 30 {
        for y := h - 3 to h
          invariant chunk.Valid()
          invariant OtherColumnsKept(chunk.data, old(chunk.data.blocks), lx, lz)
          invariant forall py: nat :: InChunk(lx, py, lz) ==>
            chunk.data.GetBlock(lx, py, lz) ==
              Overlay(if py < y then FeatureCell(h, py) else None, old(chunk.data.GetBlock(lx, py, lz)))
        {
          if y > 0 && y < h {
            chunk.data.SetBlock(lx, y, lz, Stone);
          }
        }
      }
    }
  }

  /**
   * Fills the column (lx, lz) for height h: with eh = max(h, 3), bedrock at 0, stone below the stone
   * height, dirt up to eh, grass at eh, then the environmental features for eh.
   */
  method GenerateTerrainColumn(chunk: Chunk, lx: nat, lz: nat, h: int)
    requires chunk.Valid()
    modifies chunk.data
    ensures chunk.Valid()
    ensures OtherColumnsKept(chunk.data, old(chunk.data.blocks), lx, lz)
    ensures forall py: nat :: InChunk(lx, py, lz) ==>
      chunk.data.GetBlock(lx, py, lz) == Overlay(ColumnCell(Max(h, MIN_TERRAIN_HEIGHT), py), old(chunk.data.GetBlock(lx, py, lz)))
  {
    var eh := Max(h, MIN_TERRAIN_HEIGHT);
    chunk.data.SetBlock(lx, 0, lz, Bedrock);
    var s := StoneHeight(eh);
    for y := 1 to Min(s, eh)
      invariant chunk.Valid()
      invariant OtherColumnsKept(chunk.data, old(chunk.data.blocks), lx, lz)
      invariant forall py: nat :: InChunk(lx, py, lz) ==>
        chunk.data.GetBlock(lx, py, lz) ==
          Overlay(if py < y then LayerCell(eh, py) else None, old(chunk.data.GetBlock(lx, py, lz)))
    {
      chunk.data.SetBlock(lx, y, lz, Stone);
    }
    for y := Min(s, eh) to eh
      invariant chunk.Valid()
      invariant OtherColumnsKept(chunk.data, old(chunk.data.blocks), lx, lz)
      invariant forall py: nat :: InChunk(lx, py, lz) ==>
        chunk.data.GetBlock(lx, py, lz) ==
          Overlay(if py < y then LayerCell(eh, py) else None, old(chunk.data.GetBlock(lx, py, lz)))
    {
      chunk.data.SetBlock(lx, y, lz, Dirt);
    }
    if eh > 0 {
      chunk.data.SetBlock(lx, eh, lz, Grass);
    }
    AddEnvironmentalFeatures(chunk, lx, lz, eh);
  }

  /** Height of column (lx, lz) of the chunk at c, from the noise at its world coordinates. */
  function HeightAt(c: ChunkPosition, noise: (int, int) -> real, settings: WorldGenSettings, lx: int, lz: int): int {
    CalculateHeight(noise(c.x * CHUNK_SIZE + lx, c.z * CHUNK_SIZE + lz), settings)
  }

  /** Whether the column (px, pz) comes before the loop position (x, z) in x-then-z order. */
  predicate ColumnDone(px: int, pz: int, x: int, z: int) {
    px < x || (px == x && pz < z)
  }

  /** Every column done so far holds its terrain; every other cell still holds its old content. */
  ghost predicate FilledUpTo(d: ChunkData, before: seq<Option<BlockType>>, c: ChunkPosition,
                             noise: (int, int) -> real, settings: WorldGenSettings, x: int, z: int)
    reads d
  {
    d.Valid() && |before| == CHUNK_VOLUME &&
    forall px: nat, py: nat, pz: nat :: InChunk(px, py, pz) ==>
      d.GetBlock(px, py, pz) ==
        if ColumnDone(px, pz, x, z)
        then Overlay(ColumnCell(Max(HeightAt(c, noise, settings, px, pz), MIN_TERRAIN_HEIGHT), py), BlockAt(before, px, py, pz))
        else BlockAt(before, px, py, pz)
  }

  /** One step of the scan: column (x, z) receives its terrain, so one more column is done. */
  method FillNextColumn(chunk: Chunk, x: nat, z: nat, noise: (int, int) -> real, settings: WorldGenSettings,
                        ghost before: seq<Option<BlockType>>) returns (height: int)
    requires x < CHUNK_SIZE && z < CHUNK_SIZE
    requires chunk.Valid() && FilledUpTo(chunk.data, before, chunk.position, noise, settings, x, z)
    modifies chunk.data
    ensures chunk.Valid() && FilledUpTo(chunk.data, before, chunk.position, noise, settings, x, z + 1)
    ensures height == HeightAt(chunk.position, noise, settings, x, z)
  {
    height := CalculateHeight(noise(chunk.position.x * CHUNK_SIZE + x, chunk.position.z * CHUNK_SIZE + z), settings);
    GenerateTerrainColumn(chunk, x, z, height);
  }

  /** Finishing the last column of row x is starting row x + 1. */
  lemma RowDone(d: ChunkData, before: seq<Option<BlockType>>, c: ChunkPosition,
                noise: (int, int) -> real, settings: WorldGenSettings, x: int)
    requires FilledUpTo(d, before, c, noise, settings, x, CHUNK_SIZE)
    ensures FilledUpTo(d, before, c, noise, settings, x + 1, 0)
  {
    forall px: nat, pz: nat | px < CHUNK_SIZE && pz < CHUNK_SIZE
      ensures ColumnDone(px, pz, x, CHUNK_SIZE) == ColumnDone(px, pz, x + 1, 0)
    {
    }
  }

  /** Height statistics of one chunk. */
  datatype HeightStats = HeightStats(minHeight: int, maxHeight: int, totalHeight: int, heightCount: nat)

  const I32_MAX: int := 0x7fff_ffff
  const I32_MIN: int := -0x8000_0000

  /**
   * Generates every column of the chunk from the noise at its world position, then marks the chunk
   * generated and in need of a new mesh. Returns the height statistics: 256 columns, all heights
   * within [2, 127], and the total between 256 times the minimum and 256 times the maximum.
   */
  method GenerateChunkHeightmap(chunk: Chunk, noise: (int, int) -> real, settings: WorldGenSettings)
    returns (stats: HeightStats)
    requires chunk.Valid()
    modifies chunk, chunk.data
    ensures chunk.Valid() && chunk.isGenerated && chunk.needsMeshUpdate
    ensures FilledUpTo(chunk.data, old(chunk.data.blocks), chunk.position, noise, settings, CHUNK_SIZE, 0)
    ensures stats.heightCount == CHUNK_AREA
    ensures 2 <= stats.minHeight <= stats.maxHeight <= CHUNK_HEIGHT - 1
    ensures stats.minHeight * CHUNK_AREA <= stats.totalHeight <= stats.maxHeight * CHUNK_AREA
  {
    var minH, maxH, total, count := I32_MAX, I32_MIN, 0, 0;
    ghost var before := chunk.data.blocks;
    for x := 0 to CHUNK_SIZE
      invariant chunk.Valid()
      invariant FilledUpTo(chunk.data, before, chunk.position, noise, settings, x, 0)
      invariant count == x * CHUNK_SIZE
      invariant count > 0 ==> 2 <= minH <= maxH <= CHUNK_HEIGHT - 1 && minH * count <= total <= maxH * count
      invariant count == 0 ==> minH == I32_MAX && maxH == I32_MIN && total == 0
    {
      for z := 0 to CHUNK_SIZE
        invariant chunk.Valid()
        invariant FilledUpTo(chunk.data, before, chunk.position, noise, settings, x, z)
        invariant count == x * CHUNK_SIZE + z
        invariant count > 0 ==> 2 <= minH <= maxH <= CHUNK_HEIGHT - 1 && minH * count <= total <= maxH * count
        invariant count == 0 ==> minH == I32_MAX && maxH == I32_MIN && total == 0
      {
        var height := FillNextColumn(chunk, x, z, noise, settings, before);
        StatsStep(minH, maxH, total, count, height);
        minH := Min(minH, height);
        maxH := Max(maxH, height);
        total := total + height;
        count := count + 1;
      }
      RowDone(chunk.data, before, chunk.position, noise, settings, x);
    }
    chunk.isGenerated := true;
    chunk.needsMeshUpdate := true;
    stats := HeightStats(minH, maxH, total, count);
  }

  /** Adding one height in [2, 127] keeps the running minimum, maximum and total consistent. */
  lemma StatsStep(minH: int, maxH: int, total: int, count: nat, h: int)
    requires 2 <= h <= CHUNK_HEIGHT - 1
    requires count > 0 ==> 2 <= minH <= maxH <= CHUNK_HEIGHT - 1 && minH * count <= total <= maxH * count
    requires count == 0 ==> minH == I32_MAX && maxH == I32_MIN && total == 0
    ensures var mn, mx := Min(minH, h), Max(maxH, h);
      2 <= mn <= mx <= CHUNK_HEIGHT - 1 && mn * (count + 1) <= total + h <= mx * (count + 1)
  {
    var mn, mx := Min(minH, h), Max(maxH, h);
    if count > 0 {
      assert mn * count <= minH * count;
      assert maxH * count <= mx * count;
    }
  }

  /** The generated flags of a sequence of chunks. */
  function Flags(chunks: seq<Chunk>): (r: seq<bool>)
    reads chunks
    ensures |r| == |chunks| && forall i :: 0 <= i < |chunks| ==> r[i] == chunks[i].isGenerated
  {
    seq(|chunks|, i requires 0 <= i < |chunks| reads chunks => chunks[i].isGenerated)
  }

  /** The number of chunks among the first n that are not generated yet. */
  function PendingCount(flags: seq<bool>, n: nat): (r: nat)
    requires n <= |flags|
    ensures r <= n
  {
    if n == 0 then 0 else PendingCount(flags, n - 1) + (if flags[n - 1] then 0 else 1)
  }

  lemma {:induction false} PendingMonotone(flags: seq<bool>, i: nat, n: nat)
    requires i <= n <= |flags|
    ensures PendingCount(flags, i) <= PendingCount(flags, n)
    decreases n - i
  {
    if i < n {
      PendingMonotone(flags, i, n - 1);
    }
  }

  /** Whether chunk i is one the frame generates: pending, with fewer than two pending before it. */
  predicate Picked(flags: seq<bool>, i: nat)
    requires i < |flags|
  {
    !flags[i] && PendingCount(flags, i) < MAX_CHUNKS_PER_FRAME
  }

  /**
   * What one frame leaves in a chunk, given its flags and blocks before the frame: a picked chunk is
   * generated with its terrain filled in and flagged for a mesh update; any other chunk keeps its flags and blocks.
   */
  ghost predicate FrameOutcome(c: Chunk, picked: bool, wasGenerated: bool, neededMesh: bool, before: seq<Option<BlockType>>,
                               noise: (int, int) -> real, settings: WorldGenSettings)
    reads c, c.data
  {
    c.Valid() &&
    (picked ==> c.isGenerated && c.needsMeshUpdate && FilledUpTo(c.data, before, c.position, noise, settings, CHUNK_SIZE, 0)) &&
    (!picked ==> c.isGenerated == wasGenerated && c.needsMeshUpdate == neededMesh && c.data.blocks == before)
  }

  /**
   * One frame of chunk generation: walks the chunks in order and generates those not yet generated,
   * stopping after two. Exactly the first min(2, pending) pending chunks get generated; every other
   * chunk is left as it was.
   */
  method GenerateChunksSystem(chunks: seq<Chunk>, noise: (int, int) -> real, settings: WorldGenSettings)
    returns (generated: nat)
    requires forall i :: 0 <= i < |chunks| ==> chunks[i].Valid()
    requires Disjoint(chunks)
    modifies set i | 0 <= i < |chunks| :: chunks[i]
    modifies set i | 0 <= i < |chunks| :: chunks[i].data
    ensures generated == Min(MAX_CHUNKS_PER_FRAME, PendingCount(old(Flags(chunks)), |chunks|))
    ensures forall i :: 0 <= i < |chunks| ==>
      FrameOutcome(chunks[i], Picked(old(Flags(chunks)), i), old(chunks[i].isGenerated), old(chunks[i].needsMeshUpdate),
                   old(chunks[i].data.blocks), noise, settings)
  {
    ghost var flags := Flags(chunks);
    generated := 0;
    var i := 0;
    // the game breaks out of the loop right after the second generation; testing the count
    // before each step has the same effect
    while i < |chunks| && generated < MAX_CHUNKS_PER_FRAME
      invariant 0 <= i <= |chunks|
      invariant generated == PendingCount(flags, i) <= MAX_CHUNKS_PER_FRAME
      invariant forall j :: 0 <= j < |chunks| ==>
        FrameOutcome(chunks[j], j < i && Picked(flags, j), old(chunks[j].isGenerated), old(chunks[j].needsMeshUpdate),
                     old(chunks[j].data.blocks), noise, settings)
      decreases |chunks| - i
    {
      Separate(chunks, i);
      var pending := GenerateIfPending(chunks[i], noise, settings);
      assert pending == Picked(flags, i);
      if pending {
        generated := generated + 1;
      }
      i := i + 1;
    }
    PendingMonotone(flags, i, |chunks|);
    forall j | i <= j < |chunks| ensures !Picked(flags, j) {
      PendingMonotone(flags, i, j);
    }
    assert flags == old(Flags(chunks));
  }

  /** One chunk's turn: generated if it was not yet, otherwise left as it was. */
  method GenerateIfPending(chunk: Chunk, noise: (int, int) -> real, settings: WorldGenSettings) returns (pending: bool)
    requires chunk.Valid()
    modifies chunk, chunk.data
    ensures pending == !old(chunk.isGenerated)
    ensures FrameOutcome(chunk, pending, old(chunk.isGenerated), old(chunk.needsMeshUpdate), old(chunk.data.blocks), noise, settings)
  {
    pending := !chunk.isGenerated;
    if pending {
      var _ := GenerateChunkHeightmap(chunk, noise, settings);
    }
  }

  /** No two chunks of the list are the same object or share their block storage (distinct ECS entities). */
  ghost predicate Disjoint(chunks: seq<Chunk>) {
    |chunks| == 0 ||
    (Disjoint(chunks[..|chunks| - 1]) &&
     forall a :: 0 <= a < |chunks| - 1 ==> chunks[a] != chunks[|chunks| - 1] && chunks[a].data != chunks[|chunks| - 1].data)
  }

  /** In a disjoint list, chunk i shares neither itself nor its storage with any other chunk. */
  lemma {:induction false} Separate(chunks: seq<Chunk>, i: nat)
    requires i < |chunks| && Disjoint(chunks)
    ensures forall j :: 0 <= j < |chunks| && j != i ==> chunks[j] != chunks[i] && chunks[j].data != chunks[i].data
  {
    var n := |chunks| - 1;
    var p := chunks[..n];
    if i < n {
      Separate(p, i);
      forall j | 0 <= j < |chunks| && j != i
        ensures chunks[j] != chunks[i] && chunks[j].data != chunks[i].data
      {
        if j < n {
          assert p[j] == chunks[j] && p[i] == chunks[i];
        }
      }
    }
  }
}
