/**
 * The block texture atlas: one image split into a grid of four columns and two rows, and a
 * table from block type to the UV rectangle `(u_min, v_min, u_max, v_max)` of its cell.
 * The image load is abstracted to an opaque handle id passed in by the caller.
 */
module Atlas {
  import opened Blocks

  /** A UV rectangle `(u_min, v_min, u_max, v_max)`; f32 values are modelled as exact reals. */
  type Rect = (real, real, real, real)

  const CellWidth: real := 0.25
  const CellHeight: real := 0.5

  /** The eight block types that have a cell in the atlas: every type but Air. */
  const Textured: set<BlockType> := {Grass, Dirt, Stone, Wood, Leaves, Sand, Water, Bedrock}

  /** What `get_uv` answers for a block type without an entry: the whole image. */
  const Fallback: Rect := (0.0, 0.0, 1.0, 1.0)

  /**
   * The grid cell `(column, row)` of each block type that has a texture:
   * row 0 holds Grass, Dirt, Stone, Wood and row 1 holds Leaves, Sand, Water, Bedrock.
   */
  function Cell(b: BlockType): (r: (nat, nat))
    requires b != Air
    ensures r.0 < 4 && r.1 < 2
  {
    match b
    case Grass => (0, 0)
    case Dirt => (1, 0)
    case Stone => (2, 0)
    case Wood => (3, 0)
    case Leaves => (0, 1)
    case Sand => (1, 1)
    case Water => (2, 1)
    case Bedrock => (3, 1)
  }

  /** The rectangle of grid cell `(col, row)`. */
  function CellRect(col: nat, row: nat): Rect {
    (CellWidth * col as real, CellHeight * row as real, CellWidth * (col + 1) as real, CellHeight * (row + 1) as real)
  }

  /** The rectangle a textured block type gets. */
  function BlockRect(b: BlockType): Rect
    requires b != Air
  {
    CellRect(Cell(b).0, Cell(b).1)
  }

  /** The rectangles of the eight cells, written out in the grid's own constants. */
  lemma BlockRectTable()
    ensures BlockRect(Grass) == (0.0, 0.0, CellWidth, CellHeight)
    ensures BlockRect(Dirt) == (CellWidth, 0.0, CellWidth * 2.0, CellHeight)
    ensures BlockRect(Stone) == (CellWidth * 2.0, 0.0, CellWidth * 3.0, CellHeight)
    ensures BlockRect(Wood) == (CellWidth * 3.0, 0.0, CellWidth * 4.0, CellHeight)
    ensures BlockRect(Leaves) == (0.0, CellHeight, CellWidth, CellHeight * 2.0)
    ensures BlockRect(Sand) == (CellWidth, CellHeight, CellWidth * 2.0, CellHeight * 2.0)
    ensures BlockRect(Water) == (CellWidth * 2.0, CellHeight, CellWidth * 3.0, CellHeight * 2.0)
    ensures BlockRect(Bedrock) == (CellWidth * 3.0, CellHeight, CellWidth * 4.0, CellHeight * 2.0)
  {
  }

  /** The eight entries `initialize` inserts, in the grid's own constants. */
  const CellTable: map<BlockType, Rect> := map[
    Grass := (0.0, 0.0, CellWidth, CellHeight),
    Dirt := (CellWidth, 0.0, CellWidth * 2.0, CellHeight),
    Stone := (CellWidth * 2.0, 0.0, CellWidth * 3.0, CellHeight),
    Wood := (CellWidth * 3.0, 0.0, CellWidth * 4.0, CellHeight),
    Leaves := (0.0, CellHeight, CellWidth, CellHeight * 2.0),
    Sand := (CellWidth, CellHeight, CellWidth * 2.0, CellHeight * 2.0),
    Water := (CellWidth * 2.0, CellHeight, CellWidth * 3.0, CellHeight * 2.0),
    Bedrock := (CellWidth * 3.0, CellHeight, CellWidth * 4.0, CellHeight * 2.0)]

  /** Every textured block type is in the table with its own cell's rectangle. */
  ghost predicate HasCells(m: map<BlockType, Rect>) {
    forall b :: b != Air ==> b in m && m[b] == BlockRect(b)
  }

  /** Inserting the eight entries into any table gives every textured block type its cell. */
  lemma CellTableHasCells(m0: map<BlockType, Rect>)
    ensures HasCells(m0 + CellTable)
  {
    BlockRectTable();
    forall b | b != Air
      ensures b in m0 + CellTable && (m0 + CellTable)[b] == BlockRect(b)
    {
      assert b in CellTable;
    }
  }

  /** Inserting the eight entries adds exactly the textured block types as keys and keeps Air's entry. */
  lemma CellTableKeys(m0: map<BlockType, Rect>)
    ensures (m0 + CellTable).Keys == m0.Keys + Textured
    ensures Air in m0 ==> (m0 + CellTable)[Air] == m0[Air]
  {
  }

  /** Two rectangles whose interiors do not meet (they may share an edge). */
  predicate Apart(p: Rect, q: Rect) {
    p.2 <= q.0 || q.2 <= p.0 || p.3 <= q.1 || q.3 <= p.1
  }

  /** Every textured block type has its own cell. */
  lemma CellInjective(a: BlockType, b: BlockType)
    requires a != Air && b != Air
    ensures Cell(a) == Cell(b) <==> a == b
  {
  }

  /** Each block's rectangle is one grid cell: 0.25 wide, 0.5 high, inside the unit square. */
  lemma BlockRectIsCell(b: BlockType)
    requires b != Air
    ensures var r := BlockRect(b);
      r.2 - r.0 == CellWidth && r.3 - r.1 == CellHeight &&
      0.0 <= r.0 < r.2 <= 1.0 && 0.0 <= r.1 < r.3 <= 1.0
  {
  }

  /** Distinct grid cells do not overlap. */
  lemma {:induction false} CellsApart(c1: nat, r1: nat, c2: nat, r2: nat)
    requires (c1, r1) != (c2, r2)
    ensures Apart(CellRect(c1, r1), CellRect(c2, r2))
  {
    if c1 < c2 {
      assert (c1 + 1) as real <= c2 as real;
    } else if c2 < c1 {
      assert (c2 + 1) as real <= c1 as real;
    } else if r1 < r2 {
      assert (r1 + 1) as real <= r2 as real;
    } else {
      assert (r2 + 1) as real <= r1 as real;
    }
  }

  /** Distinct block types get distinct, non-overlapping rectangles. */
  lemma BlockRectsApart(a: BlockType, b: BlockType)
    requires a != Air && b != Air && a != b
    ensures Apart(BlockRect(a), BlockRect(b)) && BlockRect(a) != BlockRect(b)
  {
    CellInjective(a, b);
    CellsApart(Cell(a).0, Cell(a).1, Cell(b).0, Cell(b).1);
  }

  /** The `TextureAtlas` resource. */
  class TextureAtlas {
    var textureHandle: nat
    var blockUvs: map<BlockType, Rect>
    var isLoaded: bool

    /** Every textured block type has its cell's rectangle, and the atlas is marked loaded. */
    ghost predicate Initialized()
      reads this
    {
      isLoaded && HasCells(blockUvs)
    }

    /** `Default`: the default handle, no entries, not loaded. */
    constructor()
      ensures textureHandle == 0 && blockUvs == map[] && !isLoaded
    {
      textureHandle := 0;
      blockUvs := map[];
      isLoaded := false;
    }

    /**
     * `initialize`: records the loaded image's handle, inserts the rectangle of each of the eight
     * textured block types and marks the atlas loaded; any entry for Air is left as it was.
     */
    method Initialize(handle: nat)
      modifies this
      ensures blockUvs == old(blockUvs) + CellTable && textureHandle == handle
      ensures Initialized()
    {
      CellTableHasCells(blockUvs);
      blockUvs := blockUvs + CellTable;
      textureHandle := handle;
      isLoaded := true;
    }

    /** `get_uv`: the stored rectangle, or the whole image when the block type has none. */
    function GetUv(b: BlockType): (r: Rect)
      reads this
      ensures b !in blockUvs ==> r == Fallback
      ensures b in blockUvs ==> r == blockUvs[b]
    {
      if b in blockUvs then blockUvs[b] else Fallback
    }
  }

  /**
   * On an initialised atlas without an Air entry, `get_uv` gives each textured block type its
   * own cell and gives Air the whole image.
   */
  lemma InitializedLookups(a: TextureAtlas)
    requires a.Initialized() && Air !in a.blockUvs
    ensures a.GetUv(Air) == Fallback
    ensures forall b :: b != Air ==> a.GetUv(b) == BlockRect(b)
  {
  }

  /** On an initialised atlas, two distinct textured block types never share or overlap a rectangle. */
  lemma InitializedUvsApart(a: TextureAtlas, b1: BlockType, b2: BlockType)
    requires a.Initialized() && b1 != Air && b2 != Air && b1 != b2
    ensures Apart(a.GetUv(b1), a.GetUv(b2))
  {
    BlockRectsApart(b1, b2);
  }

  /** A default atlas answers every lookup with the whole image. */
  lemma EmptyAtlasFallsBack(a: TextureAtlas, b: BlockType)
    requires a.blockUvs == map[]
    ensures a.GetUv(b) == Fallback
  {
  }
}
