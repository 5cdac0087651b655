/**
 * Face-culled chunk meshing: every non-air cell gets a six-face visibility record, and every
 * visible face becomes one quad (4 positions, 4 normals, 4 UVs, 6 indices) appended to growable
 * buffers. Vertex coordinates are whole numbers, so they are modelled as integers.
 */
module ChunkMeshing {
  import opened Common
  import opened Blocks
  import opened Chunks

  datatype FaceVisibility = FaceVisibility(front: bool, back: bool, left: bool, right: bool, top: bool, bottom: bool)
  {
    predicate Any() {
      front || back || left || right || top || bottom
    }
  }

  /** The six faces, in the order the block mesher emits them. */
  datatype Face = Front | Back | Right | Left | Top | Bottom

  const EmitOrder: seq<Face> := [Front, Back, Right, Left, Top, Bottom]

  function IsVisible(v: FaceVisibility, f: Face): bool {
    match f
    case Front => v.front
    case Back => v.back
    case Right => v.right
    case Left => v.left
    case Top => v.top
    case Bottom => v.bottom
  }

  /** The visible faces among the first k of the emission order, in that order. */
  function FacesUpTo(v: FaceVisibility, k: nat): seq<Face>
    requires k <= |EmitOrder|
  {
    if k == 0 then []
    else if IsVisible(v, EmitOrder[k - 1]) then FacesUpTo(v, k - 1) + [EmitOrder[k - 1]]
    else FacesUpTo(v, k - 1)
  }

  /** The faces of a visibility record that get a quad, in emission order. */
  function VisibleFaces(v: FaceVisibility): seq<Face> {
    FacesUpTo(v, |EmitOrder|)
  }

  /** Among the first k faces of the order, exactly the visible ones are kept, each once. */
  lemma {:induction false} FacesUpToExactly(v: FaceVisibility, k: nat)
    requires k <= |EmitOrder|
    ensures |FacesUpTo(v, k)| <= k && NoDuplicates(FacesUpTo(v, k))
    ensures forall f :: f in FacesUpTo(v, k) <==> f in EmitOrder[..k] && IsVisible(v, f)
  {
    if k > 0 {
      FacesUpToExactly(v, k - 1);
      assert EmitOrder[..k] == EmitOrder[..k - 1] + [EmitOrder[k - 1]];
    }
  }

  /** The emitted faces are exactly the visible ones, each once, and there is one iff `any` holds. */
  lemma VisibleFacesExactly(v: FaceVisibility)
    ensures |VisibleFaces(v)| <= 6 && NoDuplicates(VisibleFaces(v))
    ensures forall f :: f in VisibleFaces(v) <==> IsVisible(v, f)
    ensures v.Any() <==> |VisibleFaces(v)| > 0
  {
    FacesUpToExactly(v, 6);
    assert EmitOrder[..6] == EmitOrder;
    forall f ensures f in EmitOrder {
      match f
      case Front => assert EmitOrder[0] == f;
      case Back => assert EmitOrder[1] == f;
      case Right => assert EmitOrder[2] == f;
      case Left => assert EmitOrder[3] == f;
      case Top => assert EmitOrder[4] == f;
      case Bottom => assert EmitOrder[5] == f;
    }
    assert |VisibleFaces(v)| > 0 ==> VisibleFaces(v)[0] in VisibleFaces(v);
    if v.Any() {
      var f :| IsVisible(v, f);
      assert f in VisibleFaces(v);
    } else {
      forall f ensures !IsVisible(v, f) {
        match f
        case Front =>
        case Back =>
        case Right =>
        case Left =>
        case Top =>
        case Bottom =>
      }
    }
  }

  /** A neighbouring cell lets a face show when it is empty, Air, or transparent. */
  predicate ShouldRenderFace(o: Option<BlockType>) {
    o.None? || o.value == Air || IsTransparent(o.value)
  }

  /**
   * Reference view of the world around a chunk: the cell at local coordinates (ax, ay, az),
   * which may lie outside the chunk. Heights outside 0..127 hold nothing; cells beyond an x/z edge
   * are read from the loaded chunk that holds them, or hold nothing when it is not loaded.
   */
  function CellAround(blocks: seq<Option<BlockType>>, m: ChunkManager, chunks: map<nat, seq<Option<BlockType>>>,
                      c: ChunkPosition, ax: int, ay: int, az: int): Option<BlockType>
    requires |blocks| == CHUNK_VOLUME
    requires forall e :: e in chunks ==> |chunks[e]| == CHUNK_VOLUME
  {
    if ay < 0 || ay >= CHUNK_HEIGHT then None
    else if 0 <= ax < CHUNK_SIZE && 0 <= az < CHUNK_SIZE then BlockAt(blocks, ax, ay, az)
    else
      var n := ChunkPosition(c.x + ax / CHUNK_SIZE, c.z + az / CHUNK_SIZE);
      if n in m.loadedChunks && m.loadedChunks[n] in chunks then
        BlockAt(chunks[m.loadedChunks[n]], ax % CHUNK_SIZE, ay, az % CHUNK_SIZE)
      else None
  }

  /** Unit offset of the cell across a face. */
  function FaceOffset(f: Face): IVec3 {
    match f
    case Front => IVec3(0, 0, 1)
    case Back => IVec3(0, 0, -1)
    case Right => IVec3(1, 0, 0)
    case Left => IVec3(-1, 0, 0)
    case Top => IVec3(0, 1, 0)
    case Bottom => IVec3(0, -1, 0)
  }

  /** Reference visibility: a face shows iff the cell across it lets it render. */
  function Visibility(blocks: seq<Option<BlockType>>, m: ChunkManager, chunks: map<nat, seq<Option<BlockType>>>,
                      c: ChunkPosition, lx: nat, y: nat, lz: nat): (r: FaceVisibility)
    requires |blocks| == CHUNK_VOLUME
    requires forall e :: e in chunks ==> |chunks[e]| == CHUNK_VOLUME
  {
    FaceVisibility(
      front := ShouldRenderFace(CellAround(blocks, m, chunks, c, lx, y, lz + 1)),
      back := ShouldRenderFace(CellAround(blocks, m, chunks, c, lx, y, lz - 1)),
      left := ShouldRenderFace(CellAround(blocks, m, chunks, c, lx - 1, y, lz)),
      right := ShouldRenderFace(CellAround(blocks, m, chunks, c, lx + 1, y, lz)),
      top := ShouldRenderFace(CellAround(blocks, m, chunks, c, lx, y + 1, lz)),
      bottom := ShouldRenderFace(CellAround(blocks, m, chunks, c, lx, y - 1, lz)))
  }

  /** Each face of the reference record is decided by the cell one step along that face's normal. */
  lemma VisibilityAlongNormal(blocks: seq<Option<BlockType>>, m: ChunkManager, chunks: map<nat, seq<Option<BlockType>>>,
                              c: ChunkPosition, lx: nat, y: nat, lz: nat, f: Face)
    requires |blocks| == CHUNK_VOLUME
    requires forall e :: e in chunks ==> |chunks[e]| == CHUNK_VOLUME
    ensures var d := FaceOffset(f);
      IsVisible(Visibility(blocks, m, chunks, c, lx, y, lz), f) <==>
      ShouldRenderFace(CellAround(blocks, m, chunks, c, lx + d.x, y + d.y, lz + d.z))
  {
  }

  /**
   * The visibility record of the cell (lx, y, lz), built face by face as the mesher does: inside the
   * chunk it reads the adjacent cell, at an x/z edge it asks the chunk manager for the bordering cell
   * of the neighbour chunk, and above the top or below the bottom layer the face always shows.
   */
  method CheckFaceVisibility(data: ChunkData, c: ChunkPosition, m: ChunkManager,
                             chunks: map<nat, seq<Option<BlockType>>>, lx: nat, y: nat, lz: nat)
    returns (vis: FaceVisibility)
    requires data.Valid()
    requires forall e :: e in chunks ==> |chunks[e]| == CHUNK_VOLUME
    ensures InChunk(lx, y, lz) ==> vis == Visibility(data.blocks, m, chunks, c, lx, y, lz)
    ensures y == CHUNK_HEIGHT - 1 ==> vis.top
    ensures y == 0 ==> vis.bottom
    ensures lz == CHUNK_SIZE - 1 && ChunkPosition(c.x, c.z + 1) !in m.loadedChunks ==> vis.front
    ensures lz == 0 && ChunkPosition(c.x, c.z - 1) !in m.loadedChunks ==> vis.back
    ensures lx == CHUNK_SIZE - 1 && ChunkPosition(c.x + 1, c.z) !in m.loadedChunks ==> vis.right
    ensures lx == 0 && ChunkPosition(c.x - 1, c.z) !in m.loadedChunks ==> vis.left
  {
    var front, back := CheckZFaces(data, c, m, chunks, lx, y, lz);
    var left, right := CheckXFaces(data, c, m, chunks, lx, y, lz);
    var top, bottom;
    if y < CHUNK_HEIGHT - 1 {
      top := ShouldRenderFace(data.GetBlock(lx, y + 1, lz));
    } else {
      top := true;
    }
    if y > 0 {
      bottom := ShouldRenderFace(data.GetBlock(lx, y - 1, lz));
    } else {
      bottom := true;
    }
    vis := FaceVisibility(front, back, left, right, top, bottom);
  }

  /** The front (+z) and back (-z) faces, asking the neighbour chunk at the z edges. */
  method CheckZFaces(data: ChunkData, c: ChunkPosition, m: ChunkManager,
                     chunks: map<nat, seq<Option<BlockType>>>, lx: nat, y: nat, lz: nat)
    returns (front: bool, back: bool)
    requires data.Valid()
    requires forall e :: e in chunks ==> |chunks[e]| == CHUNK_VOLUME
    ensures InChunk(lx, y, lz) ==>
      var v := Visibility(data.blocks, m, chunks, c, lx, y, lz);
      front == v.front && back == v.back
    ensures lz == CHUNK_SIZE - 1 && ChunkPosition(c.x, c.z + 1) !in m.loadedChunks ==> front
    ensures lz == 0 && ChunkPosition(c.x, c.z - 1) !in m.loadedChunks ==> back
  {
    if lz == CHUNK_SIZE - 1 {
      front := ShouldRenderFace(GetNeighborBlock(m, chunks, c, ChunkPosition(c.x, c.z + 1), lx, y, 0));
    } else {
      front := ShouldRenderFace(data.GetBlock(lx, y, lz + 1));
    }
    if lz == 0 {
      back := ShouldRenderFace(GetNeighborBlock(m, chunks, c, ChunkPosition(c.x, c.z - 1), lx, y, CHUNK_SIZE - 1));
    } else {
      back := ShouldRenderFace(data.GetBlock(lx, y, lz - 1));
    }
  }

  /** The left (-x) and right (+x) faces, asking the neighbour chunk at the x edges. */
  method CheckXFaces(data: ChunkData, c: ChunkPosition, m: ChunkManager,
                     chunks: map<nat, seq<Option<BlockType>>>, lx: nat, y: nat, lz: nat)
    returns (left: bool, right: bool)
    requires data.Valid()
    requires forall e :: e in chunks ==> |chunks[e]| == CHUNK_VOLUME
    ensures InChunk(lx, y, lz) ==>
      var v := Visibility(data.blocks, m, chunks, c, lx, y, lz);
      left == v.left && right == v.right
    ensures lx == CHUNK_SIZE - 1 && ChunkPosition(c.x + 1, c.z) !in m.loadedChunks ==> right
    ensures lx == 0 && ChunkPosition(c.x - 1, c.z) !in m.loadedChunks ==> left
  {
    if lx == CHUNK_SIZE - 1 {
      right := ShouldRenderFace(GetNeighborBlock(m, chunks, c, ChunkPosition(c.x + 1, c.z), 0, y, lz));
    } else {
      right := ShouldRenderFace(data.GetBlock(lx + 1, y, lz));
    }
    if lx == 0 {
      left := ShouldRenderFace(GetNeighborBlock(m, chunks, c, ChunkPosition(c.x - 1, c.z), CHUNK_SIZE - 1, y, lz));
    } else {
      left := ShouldRenderFace(data.GetBlock(lx - 1, y, lz));
    }
  }

  /** The texture rectangle of a block: the whole texture for every block type. */
  function GetBlockUv(b: BlockType): (r: (real, real, real, real))
    ensures r == (0.0, 0.0, 1.0, 1.0)
  {
    match b
    case Grass => (0.0, 0.0, 1.0, 1.0)
    case Dirt => (0.0, 0.0, 1.0, 1.0)
    case Stone => (0.0, 0.0, 1.0, 1.0)
    case Wood => (0.0, 0.0, 1.0, 1.0)
    case Leaves => (0.0, 0.0, 1.0, 1.0)
    case Sand => (0.0, 0.0, 1.0, 1.0)
    case Water => (0.0, 0.0, 1.0, 1.0)
    case Bedrock => (0.0, 0.0, 1.0, 1.0)
    case _ => (0.0, 0.0, 1.0, 1.0)
  }

  /** The four corners of a face of the unit cube at (x, y, z), in the mesher's winding. */
  function FaceQuad(f: Face, x: int, y: int, z: int): seq<IVec3> {
    match f
    case Front => [IVec3(x, y, z + 1), IVec3(x + 1, y, z + 1), IVec3(x + 1, y + 1, z + 1), IVec3(x, y + 1, z + 1)]
    case Back => [IVec3(x + 1, y, z), IVec3(x, y, z), IVec3(x, y + 1, z), IVec3(x + 1, y + 1, z)]
    case Right => [IVec3(x + 1, y, z + 1), IVec3(x + 1, y, z), IVec3(x + 1, y + 1, z), IVec3(x + 1, y + 1, z + 1)]
    case Left => [IVec3(x, y, z), IVec3(x, y, z + 1), IVec3(x, y + 1, z + 1), IVec3(x, y + 1, z)]
    case Top => [IVec3(x, y + 1, z + 1), IVec3(x + 1, y + 1, z + 1), IVec3(x + 1, y + 1, z), IVec3(x, y + 1, z)]
    case Bottom => [IVec3(x, y, z), IVec3(x + 1, y, z), IVec3(x + 1, y, z + 1), IVec3(x, y, z + 1)]
  }

  /** The outward normal of a face; it equals the offset to the cell across that face. */
  function FaceNormal(f: Face): (r: IVec3)
    ensures r == FaceOffset(f)
  {
    match f
    case Front => IVec3(0, 0, 1)
    case Back => IVec3(0, 0, -1)
    case Right => IVec3(1, 0, 0)
    case Left => IVec3(-1, 0, 0)
    case Top => IVec3(0, 1, 0)
    case Bottom => IVec3(0, -1, 0)
  }

  /** Whether v is a corner of the unit cube whose lowest corner is (x, y, z). */
  predicate OnCube(v: IVec3, x: int, y: int, z: int) {
    x <= v.x <= x + 1 && y <= v.y <= y + 1 && z <= v.z <= z + 1
  }

  /** The coordinate of v along the axis of a face's normal. */
  function AxisCoord(f: Face, v: IVec3): int {
    match f
    case Front | Back => v.z
    case Right | Left => v.x
    case Top | Bottom => v.y
  }

  /** Whether a face's normal points along the positive axis. */
  predicate PositiveFace(f: Face) {
    f == Front || f == Right || f == Top
  }

  /**
   * Each quad has four distinct corners of its cell's unit cube, all on the face plane: the coordinate
   * along the normal is the cell's, plus one for the front, right and top faces.
   */
  lemma FaceQuadOnPlane(f: Face, x: int, y: int, z: int)
    ensures var q := FaceQuad(f, x, y, z);
      |q| == 4 && NoDuplicates(q) &&
      forall i :: 0 <= i < 4 ==>
        (OnCube(q[i], x, y, z) && AxisCoord(f, q[i]) == AxisCoord(f, IVec3(x, y, z)) + (if PositiveFace(f) then 1 else 0))
  {
    match f
    case Front =>
    case Back =>
    case Right =>
    case Left =>
    case Top =>
    case Bottom =>
  }

  /** The positions a block contributes: the quads of its visible faces, in order. */
  function Quads(faces: seq<Face>, x: int, y: int, z: int): (r: seq<IVec3>)
    ensures |r| == 4 * |faces|
  {
    if faces == [] then [] else FaceQuad(faces[0], x, y, z) + Quads(faces[1..], x, y, z)
  }

  /** The normals a block contributes: four copies of each visible face's normal. */
  function QuadNormals(faces: seq<Face>): (r: seq<IVec3>)
    ensures |r| == 4 * |faces|
  {
    if faces == [] then [] else
      var n := FaceNormal(faces[0]);
      [n, n, n, n] + QuadNormals(faces[1..])
  }

  function QuadUvs(uv: (real, real, real, real)): seq<(real, real)> {
    [(uv.0, uv.1), (uv.2, uv.1), (uv.2, uv.3), (uv.0, uv.3)]
  }

  function RepeatUvs(uv: (real, real, real, real), k: nat): (r: seq<(real, real)>)
    ensures |r| == 4 * k
  {
    if k == 0 then [] else QuadUvs(uv) + RepeatUvs(uv, k - 1)
  }

  /** Every vertex a block contributes lies on that block's unit cube. */
  lemma {:induction false} QuadsOnCube(faces: seq<Face>, x: int, y: int, z: int)
    ensures forall i :: 0 <= i < |Quads(faces, x, y, z)| ==> OnCube(Quads(faces, x, y, z)[i], x, y, z)
  {
    if faces != [] {
      FaceQuadOnPlane(faces[0], x, y, z);
      QuadsOnCube(faces[1..], x, y, z);
      var q := FaceQuad(faces[0], x, y, z);
      var rest := Quads(faces[1..], x, y, z);
      assert Quads(faces, x, y, z) == q + rest;
      forall i | 0 <= i < |q + rest| ensures OnCube((q + rest)[i], x, y, z) {
        if i >= 4 { assert (q + rest)[i] == rest[i - 4]; }
      }
    }
  }

  /** The index pattern of quad k: two triangles (0, 1, 2) and (0, 2, 3) offset by 4k. */
  function QuadIndex(k: nat): nat {
    4 * (k / 6) + [0, 1, 2, 0, 2, 3][k % 6]
  }

  /** The growable vertex, normal, UV and index buffers of one mesh. */
  class MeshBuffers {
    var positions: seq<IVec3>
    var normals: seq<IVec3>
    var uvs: seq<(real, real)>
    var indices: seq<nat>

    /**
     * The buffers hold whole quads: one normal and one UV per position, four positions and six
     * indices per quad, and the indices of quad k are 4k + (0, 1, 2, 0, 2, 3).
     */
    ghost predicate Valid()
      reads this
    {
      |normals| == |positions| && |uvs| == |positions| && |positions| % 4 == 0 &&
      |indices| == |positions| / 4 * 6 &&
      forall k :: 0 <= k < |indices| ==> indices[k] == QuadIndex(k)
    }

    constructor ()
      ensures Valid() && positions == [] && normals == [] && uvs == [] && indices == []
    {
      positions, normals, uvs, indices := [], [], [], [];
    }

    /** Every index names an existing position. */
    lemma IndicesInRange()
      requires Valid()
      ensures forall k :: 0 <= k < |indices| ==> indices[k] < |positions|
    {
      forall k | 0 <= k < |indices| ensures indices[k] < |positions| {
        assert k / 6 < |positions| / 4;
      }
    }

    /**
     * Appends one quad: its 4 vertices, 4 copies of the normal, the 4 UV corners and the 6 indices
     * base, base+1, base+2, base, base+2, base+3. When base is the old vertex count the buffers stay whole.
     */
    method AddFace(base: nat, vertices: seq<IVec3>, normal: IVec3, uv: (real, real, real, real))
      requires |vertices| == 4
      modifies this
      ensures positions == old(positions) + vertices
      ensures normals == old(normals) + [normal, normal, normal, normal]
      ensures uvs == old(uvs) + QuadUvs(uv)
      ensures indices == old(indices) + [base, base + 1, base + 2, base, base + 2, base + 3]
      ensures forall k :: |old(indices)| <= k < |indices| ==> base <= indices[k] < base + 4
      ensures old(Valid()) && base == |old(positions)| ==> Valid()
    {
      ghost var n0 := |indices|;
      positions := positions + vertices;
      normals := normals + [normal, normal, normal, normal];
      uvs := uvs + QuadUvs(uv);
      indices := indices + [base, base + 1, base + 2, base, base + 2, base + 3];
      if old(Valid()) && base == |old(positions)| {
        forall k | n0 <= k < |indices| ensures indices[k] == QuadIndex(k) {
          assert n0 == 6 * (base / 4) && base % 4 == 0;
          assert k / 6 == base / 4 && k % 6 == k - n0;
        }
      }
    }

    /**
     * Appends one quad per visible face of the block at (lx, y, lz), in the order front, back, right,
     * left, top, bottom: 4 positions and 6 indices per face, all on the block's unit cube.
     */
    method AddBlockMesh(lx: nat, y: nat, lz: nat, vis: FaceVisibility, b: BlockType)
      requires Valid()
      modifies this
      ensures Valid()
      ensures positions == old(positions) + Quads(VisibleFaces(vis), lx, y, lz)
      ensures normals == old(normals) + QuadNormals(VisibleFaces(vis))
      ensures uvs == old(uvs) + RepeatUvs(GetBlockUv(b), |VisibleFaces(vis)|)
      ensures |indices| == |old(indices)| + 6 * |VisibleFaces(vis)|
    {
      var uv := GetBlockUv(b);
      var current := |positions|;
      ghost var p0, n0, u0, i0 := positions, normals, uvs, |indices|;
      assert Emitted(p0, n0, u0, i0, [], lx, y, lz, uv);
      current := AddTwoFaces(vis, 0, current, lx, y, lz, uv, p0, n0, u0, i0);
      current := AddLastFourFaces(vis, current, lx, y, lz, uv, p0, n0, u0, i0);
      assert VisibleFaces(vis) == FacesUpTo(vis, 6);
    }

    /** The last four steps of the block mesher: right, left, top and bottom. */
    method AddLastFourFaces(vis: FaceVisibility, current: nat, lx: nat, y: nat, lz: nat, uv: (real, real, real, real),
                            ghost p0: seq<IVec3>, ghost n0: seq<IVec3>, ghost u0: seq<(real, real)>, ghost i0: nat)
      returns (next: nat)
      requires Valid() && current == |positions|
      requires Emitted(p0, n0, u0, i0, FacesUpTo(vis, 2), lx, y, lz, uv)
      modifies this
      ensures Valid() && next == |positions|
      ensures Emitted(p0, n0, u0, i0, FacesUpTo(vis, 6), lx, y, lz, uv)
    {
      next := AddTwoFaces(vis, 2, current, lx, y, lz, uv, p0, n0, u0, i0);
      next := AddTwoFaces(vis, 4, next, lx, y, lz, uv, p0, n0, u0, i0);
    }

    /** Two consecutive steps of the block mesher, for the k-th and the next face of the emission order. */
    method AddTwoFaces(vis: FaceVisibility, k: nat, current: nat, lx: nat, y: nat, lz: nat, uv: (real, real, real, real),
                         ghost p0: seq<IVec3>, ghost n0: seq<IVec3>, ghost u0: seq<(real, real)>, ghost i0: nat)
      returns (next: nat)
      requires k + 2 <= |EmitOrder| && Valid() && current == |positions|
      requires Emitted(p0, n0, u0, i0, FacesUpTo(vis, k), lx, y, lz, uv)
      modifies this
      ensures Valid() && next == |positions|
      ensures Emitted(p0, n0, u0, i0, FacesUpTo(vis, k + 2), lx, y, lz, uv)
    {
      next := AddFaceIf(vis, k, current, lx, y, lz, uv, p0, n0, u0, i0);
      next := AddFaceIf(vis, k + 1, next, lx, y, lz, uv, p0, n0, u0, i0);
    }

    /**
     * One step of the block mesher: when the k-th face of the emission order is visible, add its
     * quad at the running index `current` and advance the index by 4.
     */
    method AddFaceIf(vis: FaceVisibility, k: nat, current: nat, lx: nat, y: nat, lz: nat, uv: (real, real, real, real),
                     ghost p0: seq<IVec3>, ghost n0: seq<IVec3>, ghost u0: seq<(real, real)>, ghost i0: nat)
      returns (next: nat)
      requires k < |EmitOrder| && Valid() && current == |positions|
      requires Emitted(p0, n0, u0, i0, FacesUpTo(vis, k), lx, y, lz, uv)
      modifies this
      ensures Valid() && next == |positions|
      ensures Emitted(p0, n0, u0, i0, FacesUpTo(vis, k + 1), lx, y, lz, uv)
    {
      var f := EmitOrder[k];
      next := current;
      if IsVisible(vis, f) {
        ghost var p, n, u := positions, normals, uvs;
        AddFace(current, FaceQuad(f, lx, y, lz), FaceNormal(f), uv);
        next := current + 4;
        Step(p0, n0, u0, FacesUpTo(vis, k), f, lx, y, lz, uv, p, n, u);
      }
    }

    /** The buffers are whole and hold, after the given prefix, exactly the quads of `done`. */
    ghost predicate Emitted(p0: seq<IVec3>, n0: seq<IVec3>, u0: seq<(real, real)>, i0: nat,
                            done: seq<Face>, x: int, y: int, z: int, uv: (real, real, real, real))
      reads this
    {
      positions == p0 + Quads(done, x, y, z) && normals == n0 + QuadNormals(done) &&
      uvs == u0 + RepeatUvs(uv, |done|) && |indices| == i0 + 6 * |done|
    }
  }

  /** One emitted face extends the buffers' contents by that face's quad, normals and UVs. */
  lemma Step(p0: seq<IVec3>, n0: seq<IVec3>, u0: seq<(real, real)>, done: seq<Face>, f: Face,
             x: int, y: int, z: int, uv: (real, real, real, real),
             p: seq<IVec3>, n: seq<IVec3>, u: seq<(real, real)>)
    requires p == p0 + Quads(done, x, y, z) && n == n0 + QuadNormals(done) && u == u0 + RepeatUvs(uv, |done|)
    ensures p + FaceQuad(f, x, y, z) == p0 + Quads(done + [f], x, y, z)
    ensures n + [FaceNormal(f), FaceNormal(f), FaceNormal(f), FaceNormal(f)] == n0 + QuadNormals(done + [f])
    ensures u + QuadUvs(uv) == u0 + RepeatUvs(uv, |done + [f]|)
  {
    Append(done, f, x, y, z, uv);
  }

  /** Appending one face to a face list appends its quad, its normals and its UVs. */
  lemma {:induction false} Append(done: seq<Face>, f: Face, x: int, y: int, z: int, uv: (real, real, real, real))
    ensures Quads(done + [f], x, y, z) == Quads(done, x, y, z) + FaceQuad(f, x, y, z)
    ensures QuadNormals(done + [f]) == QuadNormals(done) + [FaceNormal(f), FaceNormal(f), FaceNormal(f), FaceNormal(f)]
    ensures RepeatUvs(uv, |done + [f]|) == RepeatUvs(uv, |done|) + QuadUvs(uv)
  {
    if done == [] {
      assert [] + [f] == [f];
    } else {
      assert (done + [f])[1..] == done[1..] + [f];
      Append(done[1..], f, x, y, z, uv);
      RepeatUvsSnoc(uv, |done|);
    }
  }

  lemma {:induction false} RepeatUvsSnoc(uv: (real, real, real, real), k: nat)
    ensures RepeatUvs(uv, k + 1) == RepeatUvs(uv, k) + QuadUvs(uv)
  {
    if k > 0 {
      RepeatUvsSnoc(uv, k - 1);
    }
  }
  /** The faces a cell contributes: none for an empty or Air cell, otherwise its visible faces. */
  function CellFaces(blocks: seq<Option<BlockType>>, m: ChunkManager, chunks: map<nat, seq<Option<BlockType>>>,
                     c: ChunkPosition, x: nat, y: nat, z: nat): (r: nat)
    requires |blocks| == CHUNK_VOLUME
    requires forall e :: e in chunks ==> |chunks[e]| == CHUNK_VOLUME
    ensures r <= 6
  {
    match BlockAt(blocks, x, y, z)
    case None => 0
    case Some(b) =>
      if b == Air then 0
      else VisibleFacesExactly(Visibility(blocks, m, chunks, c, x, y, z)); |VisibleFaces(Visibility(blocks, m, chunks, c, x, y, z))|
  }

  /** Faces of the cells (x, 0..yEnd, z). */
  function ColumnFaces(blocks: seq<Option<BlockType>>, m: ChunkManager, chunks: map<nat, seq<Option<BlockType>>>,
                       c: ChunkPosition, x: nat, z: nat, yEnd: nat): nat
    requires |blocks| == CHUNK_VOLUME
    requires forall e :: e in chunks ==> |chunks[e]| == CHUNK_VOLUME
  {
    if yEnd == 0 then 0 else ColumnFaces(blocks, m, chunks, c, x, z, yEnd - 1) + CellFaces(blocks, m, chunks, c, x, yEnd - 1, z)
  }

  /** Faces of the full columns (x, z') for z' < zEnd. */
  function RowFaces(blocks: seq<Option<BlockType>>, m: ChunkManager, chunks: map<nat, seq<Option<BlockType>>>,
                    c: ChunkPosition, x: nat, zEnd: nat): nat
    requires |blocks| == CHUNK_VOLUME
    requires forall e :: e in chunks ==> |chunks[e]| == CHUNK_VOLUME
  {
    if zEnd == 0 then 0 else RowFaces(blocks, m, chunks, c, x, zEnd - 1) + ColumnFaces(blocks, m, chunks, c, x, zEnd - 1, CHUNK_HEIGHT)
  }

  /** Faces of the full rows x' < xEnd. */
  function SliceFaces(blocks: seq<Option<BlockType>>, m: ChunkManager, chunks: map<nat, seq<Option<BlockType>>>,
                      c: ChunkPosition, xEnd: nat): nat
    requires |blocks| == CHUNK_VOLUME
    requires forall e :: e in chunks ==> |chunks[e]| == CHUNK_VOLUME
  {
    if xEnd == 0 then 0 else SliceFaces(blocks, m, chunks, c, xEnd - 1) + RowFaces(blocks, m, chunks, c, xEnd - 1, CHUNK_SIZE)
  }

  /** The number of quads of a chunk's mesh: the visible faces of all its non-Air cells. */
  function TotalFaces(blocks: seq<Option<BlockType>>, m: ChunkManager, chunks: map<nat, seq<Option<BlockType>>>,
                      c: ChunkPosition): nat
    requires |blocks| == CHUNK_VOLUME
    requires forall e :: e in chunks ==> |chunks[e]| == CHUNK_VOLUME
  {
    SliceFaces(blocks, m, chunks, c, CHUNK_SIZE)
  }

  datatype MeshData = MeshData(positions: seq<IVec3>, normals: seq<IVec3>, uvs: seq<(real, real)>, indices: seq<nat>)

  /** A triangle-list mesh; its attributes are present only when some face was emitted. */
  datatype Mesh = Mesh(attributes: Option<MeshData>)

  predicate InChunkBox(v: IVec3) {
    0 <= v.x <= CHUNK_SIZE && 0 <= v.y <= CHUNK_HEIGHT && 0 <= v.z <= CHUNK_SIZE
  }

  /** Appending the quads of a cell of the chunk keeps every vertex inside the chunk's box. */
  lemma QuadsInChunkBox(before: seq<IVec3>, faces: seq<Face>, x: nat, y: nat, z: nat)
    requires InChunk(x, y, z)
    requires forall i :: 0 <= i < |before| ==> InChunkBox(before[i])
    ensures forall i :: 0 <= i < |before + Quads(faces, x, y, z)| ==> InChunkBox((before + Quads(faces, x, y, z))[i])
  {
    QuadsOnCube(faces, x, y, z);
  }

  /**
   * The body of the mesher's cell loop: an empty or Air cell adds nothing; otherwise the cell's
   * visibility record is computed and, if any face shows, its quads are appended.
   */
  method MeshCell(buf: MeshBuffers, data: ChunkData, c: ChunkPosition, m: ChunkManager,
                  chunks: map<nat, seq<Option<BlockType>>>, x: nat, y: nat, z: nat)
    requires data.Valid() && buf.Valid() && InChunk(x, y, z)
    requires forall e :: e in chunks ==> |chunks[e]| == CHUNK_VOLUME
    requires forall i :: 0 <= i < |buf.positions| ==> InChunkBox(buf.positions[i])
    modifies buf
    ensures buf.Valid()
    ensures |buf.positions| == old(|buf.positions|) + 4 * CellFaces(data.blocks, m, chunks, c, x, y, z)
    ensures forall i :: 0 <= i < |buf.positions| ==> InChunkBox(buf.positions[i])
  {
    var cell := data.GetBlock(x, y, z);
    if cell.Some? && cell.value != Air {
      var vis := CheckFaceVisibility(data, c, m, chunks, x, y, z);
      VisibleFacesExactly(vis);
      if vis.Any() {
        buf.AddBlockMesh(x, y, z, vis, cell.value);
        QuadsInChunkBox(old(buf.positions), VisibleFaces(vis), x, y, z);
      }
    }
  }

  /**
   * Builds the chunk's mesh by visiting every cell, x then z then y: empty and Air cells contribute
   * nothing, every other cell one quad per visible face. The mesh has 4 vertices, 4 normals, 4 UVs
   * and 6 indices per face, every index names a vertex, every vertex lies in the chunk's box, and
   * the attributes are present iff at least one face was emitted.
   */
  method GenerateChunkMesh(data: ChunkData, c: ChunkPosition, m: ChunkManager, chunks: map<nat, seq<Option<BlockType>>>)
    returns (mesh: Mesh)
    requires data.Valid()
    requires forall e :: e in chunks ==> |chunks[e]| == CHUNK_VOLUME
    ensures mesh.attributes.Some? <==> TotalFaces(data.blocks, m, chunks, c) > 0
    ensures mesh.attributes.Some? ==>
      var d := mesh.attributes.value; var n := TotalFaces(data.blocks, m, chunks, c);
      |d.positions| == 4 * n && |d.normals| == 4 * n && |d.uvs| == 4 * n && |d.indices| == 6 * n &&
      (forall k :: 0 <= k < |d.indices| ==> d.indices[k] == QuadIndex(k) && d.indices[k] < |d.positions|) &&
      (forall i :: 0 <= i < |d.positions| ==> InChunkBox(d.positions[i]))
  {
    var buf := new MeshBuffers();
    ghost var blocks := data.blocks;
    for x := 0 to CHUNK_SIZE
      invariant fresh(buf) && buf.Valid()
      invariant |buf.positions| == 4 * SliceFaces(blocks, m, chunks, c, x)
      invariant forall i :: 0 <= i < |buf.positions| ==> InChunkBox(buf.positions[i])
    {
      for z := 0 to CHUNK_SIZE
        invariant fresh(buf) && buf.Valid()
        invariant |buf.positions| == 4 * (SliceFaces(blocks, m, chunks, c, x) + RowFaces(blocks, m, chunks, c, x, z))
        invariant forall i :: 0 <= i < |buf.positions| ==> InChunkBox(buf.positions[i])
      {
        for y := 0 to CHUNK_HEIGHT
          invariant fresh(buf) && buf.Valid()
          invariant |buf.positions| == 4 * (SliceFaces(blocks, m, chunks, c, x) + RowFaces(blocks, m, chunks, c, x, z) +
                                            ColumnFaces(blocks, m, chunks, c, x, z, y))
          invariant forall i :: 0 <= i < |buf.positions| ==> InChunkBox(buf.positions[i])
        {
          MeshCell(buf, data, c, m, chunks, x, y, z);
        }
      }
    }
    buf.IndicesInRange();
    if |buf.positions| > 0 {
      mesh := Mesh(Some(MeshData(buf.positions, buf.normals, buf.uvs, buf.indices)));
    } else {
      mesh := Mesh(None);
    }
  }
}
