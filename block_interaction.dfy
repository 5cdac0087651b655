/**
 * Block breaking and placement. The raycast, the camera and the frame time are inputs: a hit is the
 * cell the ray reached, and the chunk holding the affected cell is passed in already looked up
 * through the chunk manager. Vectors are real-valued (no NaN, no rounding).
 */
module BlockInteraction {
  import opened Common
  import opened Blocks
  import opened Chunks
  import opened Inventories

  datatype Vec3 = Vec3(x: real, y: real, z: real)

  function AbsR(a: real): real { if a < 0.0 then -a else a }

  /** Which axis `find_adjacent_block_position` steps along. */
  datatype Axis = X | Y | Z

  /** The axis with the largest |component|, ties going to x, then to y. */
  function DominantAxis(d: Vec3): (a: Axis)
    ensures a == X ==> AbsR(d.x) >= AbsR(d.y) && AbsR(d.x) >= AbsR(d.z)
    ensures a == Y ==> AbsR(d.y) > AbsR(d.x) && AbsR(d.y) >= AbsR(d.z)
    ensures a == Z ==> AbsR(d.z) > AbsR(d.x) && AbsR(d.z) > AbsR(d.y)
  {
    var ax, ay, az := AbsR(d.x), AbsR(d.y), AbsR(d.z);
    if ax >= ay && ax >= az then X
    else if ay >= ax && ay >= az then Y
    else Z
  }

  /**
   * The cell in front of the face the ray looks at: the target moved by one along the dominant axis of
   * the ray direction, towards positive when that component is positive and towards negative otherwise.
   * The ray origin does not matter.
   */
  function FindAdjacentBlockPosition(target: IVec3, rayOrigin: Vec3, rayDirection: Vec3): (r: IVec3)
    ensures Abs(r.x - target.x) + Abs(r.y - target.y) + Abs(r.z - target.z) == 1
    ensures r.x != target.x <==> DominantAxis(rayDirection) == X
    ensures r.y != target.y <==> DominantAxis(rayDirection) == Y
    ensures r.z != target.z <==> DominantAxis(rayDirection) == Z
    ensures DominantAxis(rayDirection) == X ==> r.x - target.x == (if rayDirection.x > 0.0 then 1 else -1)
    ensures DominantAxis(rayDirection) == Y ==> r.y - target.y == (if rayDirection.y > 0.0 then 1 else -1)
    ensures DominantAxis(rayDirection) == Z ==> r.z - target.z == (if rayDirection.z > 0.0 then 1 else -1)
  {
    var ad := Vec3(AbsR(rayDirection.x), AbsR(rayDirection.y), AbsR(rayDirection.z));
    if ad.x >= ad.y && ad.x >= ad.z then
      if rayDirection.x > 0.0 then IVec3(target.x + 1, target.y, target.z) else IVec3(target.x - 1, target.y, target.z)
    else if ad.y >= ad.x && ad.y >= ad.z then
      if rayDirection.y > 0.0 then IVec3(target.x, target.y + 1, target.z) else IVec3(target.x, target.y - 1, target.z)
    else
      if rayDirection.z > 0.0 then IVec3(target.x, target.y, target.z + 1) else IVec3(target.x, target.y, target.z - 1)
  }

  /** The adjacent cell is independent of the ray origin. */
  lemma AdjacentIgnoresOrigin(target: IVec3, o1: Vec3, o2: Vec3, d: Vec3)
    ensures FindAdjacentBlockPosition(target, o1, d) == FindAdjacentBlockPosition(target, o2, d)
  {
  }

  /** Breaking progress as a value: the targeted cell, the damage dealt to it, and whether breaking is under way. */
  datatype Progress = Progress(target: Option<IVec3>, damage: real, isBreaking: bool)

  const Idle := Progress(None, 0.0, false)

  /**
   * One frame of `block_breaking_system`: the next progress, and whether the block breaks.
   * `hit` is the raycast result while the button is held, `loaded` whether its chunk was found,
   * `current` the block there and `hardness` that block's hardness.
   */
  function BreakStep(p: Progress, pressed: bool, hit: Option<IVec3>, loaded: bool, current: Option<BlockType>,
                     hardness: Option<real>, delta: real): (r: (Progress, bool))
    requires hardness.Some? ==> hardness.value > 0.0
    ensures !pressed || hit.None? ==> r == (Idle, false)
    ensures r.1 ==> r.0 == Idle && pressed && hit.Some? && loaded && current.Some? && current.value != Air
  {
    if !pressed || hit.None? then (Idle, false)
    else if !loaded || current.None? || current.value == Air || hardness.None? then (p, false)
    else
      var start := if p.target != hit then 0.0 else p.damage;
      var damage := start + 10.0 / hardness.value * delta;
      if damage >= 1.0 then (Idle, true) else (Progress(hit, damage, true), false)
  }

  /** A consistent progress: a target exactly while breaking, no damage without one, and never a full unit of damage. */
  predicate WellFormed(p: Progress) {
    (p.target.None? <==> !p.isBreaking) && (p.target.None? ==> p.damage == 0.0) && 0.0 <= p.damage < 1.0
  }

  /** Every frame with non-negative time keeps the progress consistent. */
  lemma BreakStepKeepsWellFormed(p: Progress, pressed: bool, hit: Option<IVec3>, loaded: bool, current: Option<BlockType>,
                                 hardness: Option<real>, delta: real)
    requires hardness.Some? ==> hardness.value > 0.0
    requires WellFormed(p) && delta >= 0.0
    ensures WellFormed(BreakStep(p, pressed, hit, loaded, current, hardness, delta).0)
  {
    if pressed && hit.Some? && loaded && current.Some? && current.value != Air && hardness.Some? {
      var rate := 10.0 / hardness.value;
      assert rate > 0.0;
      assert rate * delta >= 0.0;
    }
  }

  /** Aiming at a new cell starts its damage from zero: one frame's damage is all it has. */
  lemma NewTargetStartsAfresh(p: Progress, hit: IVec3, current: BlockType, h: real, delta: real)
    requires h > 0.0 && current != Air && p.target != Some(hit)
    ensures var r := BreakStep(p, true, Some(hit), true, Some(current), Some(h), delta);
      r.1 <==> 10.0 / h * delta >= 1.0
    ensures var r := BreakStep(p, true, Some(hit), true, Some(current), Some(h), delta);
      !r.1 ==> r.0 == Progress(Some(hit), 10.0 / h * delta, true)
  {
  }

  /** Damage on the same cell accumulates across frames. */
  lemma SameTargetAccumulates(p: Progress, hit: IVec3, current: BlockType, h: real, delta: real)
    requires h > 0.0 && current != Air && p.target == Some(hit)
    ensures var r := BreakStep(p, true, Some(hit), true, Some(current), Some(h), delta);
      (r.1 <==> p.damage + 10.0 / h * delta >= 1.0) &&
      (!r.1 ==> r.0.damage == p.damage + 10.0 / h * delta)
  {
  }

  /** A chunk's cells after `set_block_world(p, b)`: the one cell `p` maps to holds `b`, every other cell is kept. */
  function Written(blocks: seq<Option<BlockType>>, p: IVec3, b: BlockType): (r: seq<Option<BlockType>>)
    requires |blocks| == CHUNK_VOLUME
    ensures |r| == CHUNK_VOLUME
    ensures var l := WorldToLocal(p); r[LocalToIndex(l.x, l.y, l.z)] == Some(b)
    ensures var l := WorldToLocal(p);
      forall i :: 0 <= i < CHUNK_VOLUME && i != LocalToIndex(l.x, l.y, l.z) ==> r[i] == blocks[i]
  {
    var l := WorldToLocal(p);
    blocks[LocalToIndex(l.x, l.y, l.z) := Some(b)]
  }

  class BlockBreakingProgress {
    var targetBlockPos: Option<IVec3>
    var accumulatedDamage: real
    var isBreaking: bool

    function State(): Progress
      reads this
    {
      Progress(targetBlockPos, accumulatedDamage, isBreaking)
    }

    constructor ()
      ensures State() == Idle
    {
      targetBlockPos := None;
      accumulatedDamage := 0.0;
      isBreaking := false;
    }

    /**
     * One frame of breaking: updates the progress as BreakStep says, and when the block breaks turns
     * the cell into Air and adds one item of the broken block to the inventory. Otherwise the chunk
     * and the inventory are untouched.
     */
    method BlockBreakingSystem(pressed: bool, hit: Option<IVec3>, chunk: Option<Chunk>, inventory: Inventory,
                               hardness: BlockType -> Option<real>, delta: real)
      requires forall b :: hardness(b).Some? ==> hardness(b).value > 0.0
      requires chunk.Some? ==> chunk.value.Valid()
      requires inventory.Valid()
      modifies this, inventory`hotbarSlots, inventory`slots
      modifies if chunk.Some? then {chunk.value.data} else {}, (if chunk.Some? then {chunk.value} else {})`needsMeshUpdate
      ensures inventory.Valid() && (chunk.Some? ==> chunk.value.Valid())
      ensures var current := if hit.Some? && chunk.Some? then old(chunk.value.GetBlockWorld(hit.value)) else None;
        var h := if current.Some? then hardness(current.value) else None;
        var next := BreakStep(old(State()), pressed, hit, chunk.Some?, current, h, delta);
        State() == next.0 &&
        (next.1 ==> chunk.value.GetBlockWorld(hit.value) == Some(Air)
                    && chunk.value.data.blocks == Written(old(chunk.value.data.blocks), hit.value, Air)
                    && chunk.value.needsMeshUpdate) &&
        (next.1 ==> var added := AddItemSpec(old(inventory.hotbarSlots), old(inventory.slots), Block(current.value), 1, inventory.maxStackSize, true);
                    inventory.hotbarSlots == added.1 && inventory.slots == added.2) &&
        (!next.1 ==> inventory.hotbarSlots == old(inventory.hotbarSlots) && inventory.slots == old(inventory.slots) &&
                     (chunk.Some? ==> chunk.value.data.blocks == old(chunk.value.data.blocks)
                                      && chunk.value.needsMeshUpdate == old(chunk.value.needsMeshUpdate)))
    {
      if pressed {
        if hit.Some? {
          var target := hit.value;
          if chunk.Some? {
            var c := chunk.value;
            var current := c.GetBlockWorld(target);
            if current.Some? {
              if current.value != Air {
                var h := hardness(current.value);
                if h.Some? {
                  var _ := Damage(target, c, current.value, h.value, inventory, delta);
                }
              }
            }
          }
        } else {
          targetBlockPos := None;
          accumulatedDamage := 0.0;
          isBreaking := false;
        }
      } else {
        targetBlockPos := None;
        accumulatedDamage := 0.0;
        isBreaking := false;
      }
    }
    /**
     * The frame in which a loaded, non-Air block of known hardness is aimed at: damage accumulates
     * (from zero on a new target), and once it reaches a full unit the block breaks into the inventory.
     */
    method Damage(target: IVec3, c: Chunk, b: BlockType, h: real, inventory: Inventory, delta: real) returns (broke: bool)
      requires c.Valid() && inventory.Valid() && h > 0.0 && b != Air
      modifies this, inventory`hotbarSlots, inventory`slots, c`needsMeshUpdate, c.data
      ensures inventory.Valid() && c.Valid()
      ensures (State(), broke) == BreakStep(old(State()), true, Some(target), true, Some(b), Some(h), delta)
      ensures broke ==> c.GetBlockWorld(target) == Some(Air)
      ensures broke ==> c.data.blocks == Written(old(c.data.blocks), target, Air) && c.needsMeshUpdate
      ensures broke ==> (var added := AddItemSpec(old(inventory.hotbarSlots), old(inventory.slots), Block(b), 1, inventory.maxStackSize, true);
                         inventory.hotbarSlots == added.1 && inventory.slots == added.2)
      ensures !broke ==> (inventory.hotbarSlots == old(inventory.hotbarSlots) && inventory.slots == old(inventory.slots) &&
                          c.data.blocks == old(c.data.blocks) && c.needsMeshUpdate == old(c.needsMeshUpdate))
    {
      if targetBlockPos != Some(target) {
        targetBlockPos := Some(target);
        accumulatedDamage := 0.0;
      }
      isBreaking := true;
      var damagePerSecond := 10.0 / h;
      accumulatedDamage := accumulatedDamage + damagePerSecond * delta;
      broke := accumulatedDamage >= 1.0;
      if broke {
        c.SetBlockWorld(target, Air);
        var _ := inventory.AddItem(Block(b), 1);
        targetBlockPos := None;
        accumulatedDamage := 0.0;
        isBreaking := false;
      }
    }
  }

  /** The block `block_placement_system` would place: the selected hotbar stack's block, if it is a non-empty, non-Air block stack. */
  function PlaceableBlock(selected: Option<ItemStack>): (r: Option<BlockType>)
    ensures r.Some? <==> selected.Some? && !selected.value.IsEmpty() && selected.value.itemType.Block? && selected.value.itemType.block != Air
    ensures r.Some? ==> r.value == selected.value.itemType.block
  {
    if selected.Some? && !selected.value.IsEmpty() && selected.value.itemType.Block? && selected.value.itemType.block != Air
    then Some(selected.value.itemType.block) else None
  }

  /** A stack in a row counts towards that row's total of its item. */
  lemma {:induction false} CountCoversStack(s: seq<ItemStack>, i: nat)
    requires i < |s|
    ensures Count(s, s[i].itemType) >= s[i].quantity
    decreases |s|
  {
    if i < |s| - 1 {
      CountCoversStack(s[..|s| - 1], i);
    }
  }

  /** Placing from a non-empty selected stack removes exactly one item of the placed block. */
  lemma PlacementRemovesOne(h: seq<ItemStack>, m: seq<ItemStack>, selected: nat)
    requires selected < |h| && PlaceableBlock(Some(h[selected])).Some?
    ensures var b := PlaceableBlock(Some(h[selected])).value;
      var r := RemoveItemSpec(h, m, Block(b), 1);
      r.2 == 1 && Count(r.0, Block(b)) + Count(r.1, Block(b)) + 1 == Count(h, Block(b)) + Count(m, Block(b))
  {
    var b := PlaceableBlock(Some(h[selected])).value;
    CountCoversStack(h, selected);
    RemoveItemRemoved(h, m, Block(b), 1);
    RemoveItemCount(h, m, Block(b), 1, Block(b));
  }

  /**
   * Placing from a selected stack of 5 stone next to a stack of 3 stone: `remove_item(stone, 1)` as
   * written takes one from each stack and reports none removed.
   */
  lemma PlacementAsWrittenRemovesTwo()
    ensures var h := [ItemStack(Block(Stone), 5), ItemStack(Block(Stone), 3)];
      PlaceableBlock(Some(h[0])) == Some(Stone)
      && RemoveItemAsWritten(h, [], Block(Stone), 1) == ([ItemStack(Block(Stone), 4), ItemStack(Block(Stone), 2)], [], 0)
  {
    var h := [ItemStack(Block(Stone), 5), ItemStack(Block(Stone), 3)];
    assert h[..1][..0] == [];
    assert h[..|h| - 1] == h[..1];
    assert TakeAsWritten([], Block(Stone), 1) == ([], 1, false);
    assert TakeAsWritten(h[..1], Block(Stone), 1) == ([] + [ItemStack(Block(Stone), 4)], 1, false);
    assert [] + [ItemStack(Block(Stone), 4)] == [ItemStack(Block(Stone), 4)];
    assert h[1].Remove(1) == (ItemStack(Block(Stone), 2), 1);
    assert TakeAsWritten(h, Block(Stone), 1) == ([ItemStack(Block(Stone), 4)] + [ItemStack(Block(Stone), 2)], 1, false);
    assert [ItemStack(Block(Stone), 4)] + [ItemStack(Block(Stone), 2)] == [ItemStack(Block(Stone), 4), ItemStack(Block(Stone), 2)];
  }

  /**
   * A right click: with a placeable selected block and a raycast hit, the cell next to the hit (see
   * FindAdjacentBlockPosition) receives the block if it is currently Air, and one item of the block is
   * removed from the inventory. `chunk` is the loaded chunk holding that cell. In every other case
   * nothing changes.
   */
  method BlockPlacementSystem(justPressed: bool, hit: Option<IVec3>, rayOrigin: Vec3, rayDirection: Vec3,
                              chunk: Option<Chunk>, inventory: Inventory)
    requires chunk.Some? ==> chunk.value.Valid()
    requires inventory.Valid()
    modifies inventory`hotbarSlots, inventory`slots
    modifies if chunk.Some? then {chunk.value.data} else {}, (if chunk.Some? then {chunk.value} else {})`needsMeshUpdate
    ensures inventory.Valid() && (chunk.Some? ==> chunk.value.Valid())
    ensures var b := PlaceableBlock(old(inventory.GetSelectedItem()));
      var cell := if hit.Some? then FindAdjacentBlockPosition(hit.value, rayOrigin, rayDirection) else IVec3(0, 0, 0);
      var places := justPressed && b.Some? && hit.Some? && chunk.Some? && old(chunk.value.GetBlockWorld(cell)) == Some(Air);
      (places ==> chunk.value.GetBlockWorld(cell) == Some(b.value) &&
                  chunk.value.data.blocks == Written(old(chunk.value.data.blocks), cell, b.value) &&
                  chunk.value.needsMeshUpdate &&
                  (inventory.hotbarSlots, inventory.slots, 1)
                    == RemoveItemSpec(old(inventory.hotbarSlots), old(inventory.slots), Block(b.value), 1)) &&
      (!places ==> inventory.hotbarSlots == old(inventory.hotbarSlots) && inventory.slots == old(inventory.slots) &&
                   (chunk.Some? ==> chunk.value.data.blocks == old(chunk.value.data.blocks)
                                    && chunk.value.needsMeshUpdate == old(chunk.value.needsMeshUpdate)))
  {
    if justPressed {
      var selected := inventory.GetSelectedItem();
      if selected.Some? {
        if !selected.value.IsEmpty() {
          if selected.value.itemType.Block? {
            var blockType := selected.value.itemType.block;
            if blockType != Air {
              if hit.Some? {
                var placement := FindAdjacentBlockPosition(hit.value, rayOrigin, rayDirection);
                if chunk.Some? {
                  var c := chunk.value;
                  var current := c.GetBlockWorld(placement);
                  if current == Some(Air) {
                    c.SetBlockWorld(placement, blockType);
                    ghost var h, m := inventory.hotbarSlots, inventory.slots;
                    PlacementRemovesOne(h, m, inventory.selectedHotbarSlot);
                    var _ := inventory.RemoveItem(Block(blockType), 1);
                  }
                }
              }
            }
          }
        }
      }
    }
  }
}
