/**
 * The player's inventory: a hotbar and a main grid of item stacks, a selected-hotbar cursor, and
 * stacking with a per-stack cap. Integers are unbounded (u32 overflow is not modelled).
 */
module Inventories {
  import opened Common
  import opened Blocks

  datatype ToolType = Pickaxe | Axe | Shovel | Sword
  datatype ResourceType = Stick | String | Coal | IronIngot | GoldIngot
  datatype FoodType = Apple | Bread | MeatCooked | MeatRaw | Carrot | Potato | Mushroom

  datatype ItemType = Block(block: BlockType) | Tool(tool: ToolType) | Resource(resource: ResourceType) | Food(food: FoodType)

  function ToolName(t: ToolType): string {
    match t
    case Pickaxe => "Pickaxe"
    case Axe => "Axe"
    case Shovel => "Shovel"
    case Sword => "Sword"
  }

  function ResourceName(r: ResourceType): string {
    match r
    case Stick => "Stick"
    case String => "String"
    case Coal => "Coal"
    case IronIngot => "Iron Ingot"
    case GoldIngot => "Gold Ingot"
  }

  function FoodName(f: FoodType): string {
    match f
    case Apple => "Apple"
    case Bread => "Bread"
    case MeatCooked => "Cooked Meat"
    case MeatRaw => "Raw Meat"
    case Carrot => "Carrot"
    case Potato => "Potato"
    case Mushroom => "Mushroom"
  }

  /** The display name of an item: the name of the block, tool, resource or food it wraps. */
  function ItemName(i: ItemType): (r: string)
    ensures i.Block? ==> r == Name(i.block)
    ensures i.Tool? ==> r == ToolName(i.tool)
    ensures i.Resource? ==> r == ResourceName(i.resource)
    ensures i.Food? ==> r == FoodName(i.food)
    ensures |r| > 0
  {
    NameShape(if i.Block? then i.block else Air);
    match i
    case Block(b) => Name(b)
    case Tool(t) => ToolName(t)
    case Resource(r) => ResourceName(r)
    case Food(f) => FoodName(f)
  }

  /** Within each kind, different variants have different names. */
  lemma KindNamesInjective(t1: ToolType, t2: ToolType, r1: ResourceType, r2: ResourceType, f1: FoodType, f2: FoodType)
    ensures ToolName(t1) == ToolName(t2) ==> t1 == t2
    ensures ResourceName(r1) == ResourceName(r2) ==> r1 == r2
    ensures FoodName(f1) == FoodName(f2) ==> f1 == f2
  {
  }

  /** A stack of `quantity` items of one type; a stack of quantity 0 is an empty slot. */
  datatype ItemStack = ItemStack(itemType: ItemType, quantity: nat)
  {
    predicate IsEmpty() {
      quantity == 0
    }

    predicate CanAdd(amount: nat, maxStackSize: nat) {
      quantity + amount <= maxStackSize
    }

    /**
     * Adds as much of `amount` as fits under `maxStackSize`; returns the new stack and the leftover.
     * Nothing is lost, a stack within the cap stays within it, and a leftover means the stack is full.
     */
    function Add(amount: nat, maxStackSize: nat): (r: (ItemStack, nat))
      ensures r.0.itemType == itemType && r.1 <= amount
      ensures r.0.quantity + r.1 == quantity + amount
      ensures quantity <= maxStackSize ==> r.0.quantity <= maxStackSize
      ensures r.1 > 0 ==> r.0.quantity == Max(quantity, maxStackSize)
      ensures r.1 == 0 <==> CanAdd(amount, maxStackSize) || amount == 0
    {
      var remainingSpace := if maxStackSize >= quantity then maxStackSize - quantity else 0;
      var amountToAdd := Min(amount, remainingSpace);
      (this.(quantity := quantity + amountToAdd), amount - amountToAdd)
    }

    /**
     * Removes as many of `amount` as the stack holds; returns the new stack and the number removed.
     * Either the whole amount is removed or the stack is emptied.
     */
    function Remove(amount: nat): (r: (ItemStack, nat))
      ensures r.0.itemType == itemType
      ensures r.1 <= amount && r.1 <= quantity && r.0.quantity == quantity - r.1
      ensures r.1 == amount || r.0.IsEmpty()
    {
      var amountToRemove := Min(amount, quantity);
      (this.(quantity := quantity - amountToRemove), amountToRemove)
    }
  }

  function Min(a: nat, b: nat): nat { if a <= b then a else b }
  function Max(a: nat, b: nat): nat { if a <= b then b else a }

  const EMPTY_STACK := ItemStack(Block(Air), 0)

  /** Total quantity of `t` in a row of stacks. */
  function Count(s: seq<ItemStack>, t: ItemType): nat {
    if |s| == 0 then 0
    else Count(s[..|s| - 1], t) + (if s[|s| - 1].itemType == t then s[|s| - 1].quantity else 0)
  }

  lemma {:induction false} CountAppend(a: seq<ItemStack>, b: seq<ItemStack>, t: ItemType)
    ensures Count(a + b, t) == Count(a, t) + Count(b, t)
    decreases |b|
  {
    if |b| > 0 {
      assert (a + b)[..|a + b| - 1] == a + b[..|b| - 1];
      CountAppend(a, b[..|b| - 1], t);
    } else {
      assert a + b == a;
    }
  }

  /** Overwriting slot i with `n` changes the count by the difference between the two stacks' contributions. */
  lemma {:induction false} CountUpdate(s: seq<ItemStack>, i: nat, n: ItemStack, t: ItemType)
    requires i < |s|
    ensures Count(s[i := n], t) + (if s[i].itemType == t then s[i].quantity else 0)
         == Count(s, t) + (if n.itemType == t then n.quantity else 0)
    decreases |s|
  {
    var k := |s| - 1;
    if i < k {
      assert s[i := n][..k] == s[..k][i := n];
      CountUpdate(s[..k], i, n, t);
    } else {
      assert s[i := n][..k] == s[..k];
    }
  }

  /** Every stack is within the cap. */
  predicate Capped(s: seq<ItemStack>, maxStackSize: nat) {
    forall i :: 0 <= i < |s| ==> s[i].quantity <= maxStackSize
  }

  /** The first index whose stack satisfies `p`, or None. */
  function FirstWhere(s: seq<ItemStack>, p: ItemStack -> bool): (r: Option<nat>)
    ensures r.None? <==> forall i :: 0 <= i < |s| ==> !p(s[i])
    ensures r.Some? ==> r.value < |s| && p(s[r.value]) && forall j :: 0 <= j < r.value ==> !p(s[j])
  {
    if |s| == 0 then None
    else if p(s[0]) then Some(0)
    else
      match FirstWhere(s[1..], p)
      case None => None
      case Some(i) => Some(i + 1)
  }

  function StackableTo(t: ItemType, q: nat, maxStackSize: nat): ItemStack -> bool {
    s => Stackable(s, t, q, maxStackSize)
  }

  function FillableWith(q: nat, maxStackSize: nat, capEmpty: bool): ItemStack -> bool {
    s => Fillable(s, q, maxStackSize, capEmpty)
  }

  /** Scans a row in index order for the first stack satisfying `p`. */
  method FindFirst(row: seq<ItemStack>, p: ItemStack -> bool) returns (r: Option<nat>)
    ensures r == FirstWhere(row, p)
  {
    var i := 0;
    while i < |row|
      invariant i <= |row|
      invariant forall j :: 0 <= j < i ==> !p(row[j])
    {
      if p(row[i]) {
        return Some(i);
      }
      i := i + 1;
    }
    return None;
  }

  /**
   * The four scans of `add_item` over the hotbar row `h` and the main row `m`: stackable slots first,
   * then empty ones, hotbar before main each time.
   */
  method AddToRows(h: seq<ItemStack>, m: seq<ItemStack>, t: ItemType, q: nat, maxStackSize: nat)
    returns (added: bool, h': seq<ItemStack>, m': seq<ItemStack>)
    ensures (added, h', m') == AddItemSpec(h, m, t, q, maxStackSize, true)
  {
    // A stackable slot has room for all q, so topping it up leaves nothing over.
    h', m' := h, m;
    var stack := StackableTo(t, q, maxStackSize);
    var empty := FillableWith(q, maxStackSize, true);
    var i := FindFirst(h, stack);
    if i.Some? {
      assert AddTarget(h, m, t, q, maxStackSize, true) == Hotbar(i.value);
      h' := h[i.value := h[i.value].Add(q, maxStackSize).0];
      assert h' == Put(h, i.value, t, q);
      return true, h', m';
    }
    var j := FindFirst(m, stack);
    if j.Some? {
      assert AddTarget(h, m, t, q, maxStackSize, true) == Main(j.value);
      m' := m[j.value := m[j.value].Add(q, maxStackSize).0];
      assert m' == Put(m, j.value, t, q);
      return true, h', m';
    }
    added, h', m' := FillEmptySlot(h, m, t, q, maxStackSize);
  }

  /** The last two scans of `add_item`, reached when no slot can be topped up: the first empty slot. */
  method FillEmptySlot(h: seq<ItemStack>, m: seq<ItemStack>, t: ItemType, q: nat, maxStackSize: nat)
    returns (added: bool, h': seq<ItemStack>, m': seq<ItemStack>)
    requires FirstWhere(h, StackableTo(t, q, maxStackSize)).None? && FirstWhere(m, StackableTo(t, q, maxStackSize)).None?
    ensures (added, h', m') == AddItemSpec(h, m, t, q, maxStackSize, true)
  {
    h', m' := h, m;
    var empty := FillableWith(q, maxStackSize, true);
    var k := FindFirst(h, empty);
    if k.Some? {
      assert AddTarget(h, m, t, q, maxStackSize, true) == Hotbar(k.value);
      h' := h[k.value := ItemStack(t, q)];
      assert h' == Put(h, k.value, t, q);
      return true, h', m';
    }
    var l := FindFirst(m, empty);
    if l.Some? {
      assert AddTarget(h, m, t, q, maxStackSize, true) == Main(l.value);
      m' := m[l.value := ItemStack(t, q)];
      assert m' == Put(m, l.value, t, q);
      return true, h', m';
    }
    assert AddTarget(h, m, t, q, maxStackSize, true) == NoSlot;
    return false, h', m';
  }

  /** Where `add_item` puts a stack: one slot of the hotbar or of the main grid, or nowhere. */
  datatype Slot = Hotbar(index: nat) | Main(index: nat) | NoSlot

  /** A stack `add_item` may top up: same item, room for the whole quantity. */
  predicate Stackable(s: ItemStack, t: ItemType, q: nat, maxStackSize: nat) {
    s.itemType == t && s.CanAdd(q, maxStackSize)
  }

  /**
   * An empty slot `add_item` may fill. With `capEmpty` the quantity must fit under the cap, as for a
   * stackable slot; without it (the code as written) any empty slot takes any quantity.
   */
  predicate Fillable(s: ItemStack, q: nat, maxStackSize: nat, capEmpty: bool) {
    s.IsEmpty() && (!capEmpty || q <= maxStackSize)
  }

  /**
   * First fit: a stackable hotbar slot, then a stackable main slot, then an empty hotbar slot, then
   * an empty main slot, each in index order.
   */
  function AddTarget(h: seq<ItemStack>, m: seq<ItemStack>, t: ItemType, q: nat, maxStackSize: nat, capEmpty: bool): (r: Slot)
    ensures r.Hotbar? ==> r.index < |h|
    ensures r.Main? ==> r.index < |m|
  {
    var stack := StackableTo(t, q, maxStackSize);
    var empty := FillableWith(q, maxStackSize, capEmpty);
    match (FirstWhere(h, stack), FirstWhere(m, stack), FirstWhere(h, empty), FirstWhere(m, empty))
    case (Some(i), _, _, _) => Hotbar(i)
    case (None, Some(i), _, _) => Main(i)
    case (None, None, Some(i), _) => Hotbar(i)
    case (None, None, None, Some(i)) => Main(i)
    case (None, None, None, None) => NoSlot
  }

  /** Slot i receives q more items of type t. */
  function Put(s: seq<ItemStack>, i: nat, t: ItemType, q: nat): seq<ItemStack>
    requires i < |s|
  {
    s[i := ItemStack(t, s[i].quantity + q)]
  }

  /** The rows after `add_item` puts q of t at `target`. */
  function Placed(h: seq<ItemStack>, m: seq<ItemStack>, target: Slot, t: ItemType, q: nat): (seq<ItemStack>, seq<ItemStack>)
    requires target.Hotbar? ==> target.index < |h|
    requires target.Main? ==> target.index < |m|
  {
    match target
    case Hotbar(i) => (Put(h, i, t, q), m)
    case Main(i) => (h, Put(m, i, t, q))
    case NoSlot => (h, m)
  }

  /**
   * `add_item` on the rows `h` and `m`: whether a slot was found, and the rows after q of t went into it.
   * With `capEmpty` false this is the code as written, where an empty slot takes any quantity.
   */
  function AddItemSpec(h: seq<ItemStack>, m: seq<ItemStack>, t: ItemType, q: nat, maxStackSize: nat, capEmpty: bool): (r: (bool, seq<ItemStack>, seq<ItemStack>))
    ensures |r.1| == |h| && |r.2| == |m|
    ensures !r.0 ==> r.1 == h && r.2 == m
  {
    var target := AddTarget(h, m, t, q, maxStackSize, capEmpty);
    var (h', m') := Placed(h, m, target, t, q);
    (target != NoSlot, h', m')
  }

  function AddItemAsWritten(h: seq<ItemStack>, m: seq<ItemStack>, t: ItemType, q: nat, maxStackSize: nat): (r: (bool, seq<ItemStack>, seq<ItemStack>))
    ensures |r.1| == |h| && |r.2| == |m|
  {
    AddItemSpec(h, m, t, q, maxStackSize, false)
  }

  /** Adding 100 stone to an empty default inventory fills the first hotbar slot with 100, over the cap of 64. */
  lemma AddItemAsWrittenOverfills()
    ensures var h, m := seq(9, _ => EMPTY_STACK), seq(27, _ => EMPTY_STACK);
      var r := AddItemAsWritten(h, m, Block(Stone), 100, 64);
      Capped(h, 64) && Capped(m, 64) && r.0 && r.1[0] == ItemStack(Block(Stone), 100) && !Capped(r.1, 64)
  {
    var h, m := seq(9, _ => EMPTY_STACK), seq(27, _ => EMPTY_STACK);
    var stack := StackableTo(Block(Stone), 100, 64);
    var empty := FillableWith(100, 64, false);
    assert FirstWhere(h, stack).None? && FirstWhere(m, stack).None?;
    assert empty(h[0]);
    assert FirstWhere(h, empty) == Some(0);
  }

  /** Putting q of t into a slot holding t (or nothing) raises the count of t by q and leaves other items' counts alone. */
  lemma PutCount(s: seq<ItemStack>, i: nat, t: ItemType, q: nat, u: ItemType)
    requires i < |s| && (s[i].itemType == t || s[i].IsEmpty())
    ensures Count(Put(s, i, t, q), u) == Count(s, u) + (if u == t then q else 0)
  {
    CountUpdate(s, i, ItemStack(t, s[i].quantity + q), u);
  }

  /** The target slot of `add_item` always holds the same item or is empty. */
  lemma TargetCompatible(h: seq<ItemStack>, m: seq<ItemStack>, t: ItemType, q: nat, maxStackSize: nat, capEmpty: bool)
    ensures var target := AddTarget(h, m, t, q, maxStackSize, capEmpty);
      (target.Hotbar? ==> h[target.index].itemType == t || h[target.index].IsEmpty()) &&
      (target.Main? ==> m[target.index].itemType == t || m[target.index].IsEmpty())
  {
  }

  /** A successful `add_item` raises the count of the added item by exactly q; no other item's count changes. */
  lemma AddItemCount(h: seq<ItemStack>, m: seq<ItemStack>, t: ItemType, q: nat, maxStackSize: nat, capEmpty: bool, u: ItemType)
    ensures var (added, h', m') := AddItemSpec(h, m, t, q, maxStackSize, capEmpty);
      Count(h', u) + Count(m', u) == Count(h, u) + Count(m, u) + (if u == t && added then q else 0)
  {
    var target := AddTarget(h, m, t, q, maxStackSize, capEmpty);
    TargetCompatible(h, m, t, q, maxStackSize, capEmpty);
    var r := AddItemSpec(h, m, t, q, maxStackSize, capEmpty);
    assert (r.1, r.2) == Placed(h, m, target, t, q) && r.0 == (target != NoSlot);
    match target
    case Hotbar(i) => PutCount(h, i, t, q, u);
    case Main(i) => PutCount(m, i, t, q, u);
    case NoSlot =>
  }

  /** With the cap applied to empty slots too, `add_item` keeps every stack within the cap. */
  lemma AddItemKeepsCap(h: seq<ItemStack>, m: seq<ItemStack>, t: ItemType, q: nat, maxStackSize: nat)
    requires Capped(h, maxStackSize) && Capped(m, maxStackSize)
    ensures var (_, h', m') := AddItemSpec(h, m, t, q, maxStackSize, true);
      Capped(h', maxStackSize) && Capped(m', maxStackSize)
  {
  }

  /**
   * What taking `want` items of t from a row, stack by stack in index order, leaves: the new row and
   * the number still wanted.
   */
  function TakeFrom(s: seq<ItemStack>, t: ItemType, want: nat): (r: (seq<ItemStack>, nat))
    ensures |r.0| == |s| && r.1 <= want
  {
    if |s| == 0 then (s, want)
    else
      var (p, w) := TakeFrom(s[..|s| - 1], t, want);
      var last := s[|s| - 1];
      if last.itemType == t then
        var (n, k) := last.Remove(w);
        (p + [n], w - k)
      else (p + [last], w)
  }

  /** Taking nothing changes nothing. */
  lemma {:induction false} TakeFromZero(s: seq<ItemStack>, t: ItemType)
    ensures TakeFrom(s, t, 0) == (s, 0)
    decreases |s|
  {
    if |s| > 0 {
      TakeFromZero(s[..|s| - 1], t);
      assert s[..|s| - 1] + [s[|s| - 1]] == s;
    }
  }

  /** Taking from a row is taking from its first part and then, with what is still wanted, from the rest. */
  lemma {:induction false} TakeFromAppend(a: seq<ItemStack>, b: seq<ItemStack>, t: ItemType, want: nat)
    ensures var (a', w) := TakeFrom(a, t, want);
      var (b', w') := TakeFrom(b, t, w);
      TakeFrom(a + b, t, want) == (a' + b', w')
    decreases |b|
  {
    if |b| == 0 {
      var (a', w) := TakeFrom(a, t, want);
      assert a + b == a && a' + b == a';
    } else {
      assert (a + b)[..|a + b| - 1] == a + b[..|b| - 1];
      TakeFromAppend(a, b[..|b| - 1], t, want);
      var (a', w) := TakeFrom(a, t, want);
      var (p, _) := TakeFrom(b[..|b| - 1], t, w);
      assert a' + p + [b[|b| - 1]] == a' + (p + [b[|b| - 1]]);
      var last := b[|b| - 1];
      if last.itemType == t {
        var (p2, w2) := TakeFrom(b[..|b| - 1], t, w);
        var (n, _) := last.Remove(w2);
        assert a' + p2 + [n] == a' + (p2 + [n]);
      }
    }
  }

  /** Taking from a row removes min(want, count) items of t in total; what is still wanted is the rest. */
  lemma {:induction false} TakeFromRemoved(s: seq<ItemStack>, t: ItemType, want: nat)
    ensures want - TakeFrom(s, t, want).1 == Min(want, Count(s, t))
    decreases |s|
  {
    if |s| > 0 {
      TakeFromRemoved(s[..|s| - 1], t, want);
    }
  }

  /** Taking from a row lowers the count of t by the number removed and leaves other items' counts alone. */
  lemma {:induction false} TakeFromCount(s: seq<ItemStack>, t: ItemType, want: nat, u: ItemType)
    ensures Count(TakeFrom(s, t, want).0, u) == Count(s, u) - (if u == t then want - TakeFrom(s, t, want).1 else 0)
    decreases |s|
  {
    if |s| > 0 {
      var init := s[..|s| - 1];
      TakeFromCount(init, t, want, u);
      TakeFromRemoved(init, t, want);
      var (s', _) := TakeFrom(s, t, want);
      assert s'[..|s'| - 1] == TakeFrom(init, t, want).0;
    }
  }

  /** `remove_item`: take from the hotbar first and then, if still needed, from the main grid. */
  function RemoveItemSpec(h: seq<ItemStack>, m: seq<ItemStack>, t: ItemType, q: nat): (r: (seq<ItemStack>, seq<ItemStack>, nat))
  {
    var (h', w) := TakeFrom(h, t, q);
    var (m', w') := TakeFrom(m, t, w);
    (h', m', q - w')
  }

  /** `remove_item` removes and reports min(q, count) items of t. */
  lemma RemoveItemRemoved(h: seq<ItemStack>, m: seq<ItemStack>, t: ItemType, q: nat)
    ensures RemoveItemSpec(h, m, t, q).2 == Min(q, Count(h, t) + Count(m, t))
  {
    var w := TakeFrom(h, t, q).1;
    TakeFromRemoved(h, t, q);
    TakeFromRemoved(m, t, w);
  }

  /** `remove_item` lowers the count of t by the number it reports and leaves every other item's count alone. */
  lemma RemoveItemCount(h: seq<ItemStack>, m: seq<ItemStack>, t: ItemType, q: nat, u: ItemType)
    ensures var r := RemoveItemSpec(h, m, t, q);
      Count(r.0, u) + Count(r.1, u) == Count(h, u) + Count(m, u) - (if u == t then r.2 else 0)
  {
    var w := TakeFrom(h, t, q).1;
    TakeFromCount(h, t, q, u);
    TakeFromCount(m, t, w, u);
    TakeFromRemoved(h, t, q);
    TakeFromRemoved(m, t, w);
  }

  /**
   * `remove_item` as written: each matching stack's removed amount is stored as the amount still wanted,
   * and the scan stops only when a stack gives nothing. The flag records that stop.
   */
  function TakeAsWritten(s: seq<ItemStack>, t: ItemType, want: nat): (r: (seq<ItemStack>, nat, bool))
    ensures |r.0| == |s| && r.1 <= want
  {
    if |s| == 0 then (s, want, false)
    else
      var (p, w, stopped) := TakeAsWritten(s[..|s| - 1], t, want);
      var last := s[|s| - 1];
      if !stopped && last.itemType == t then
        var (n, k) := last.Remove(w);
        (p + [n], k, k == 0)
      else (p + [last], w, stopped)
  }

  function RemoveItemAsWritten(h: seq<ItemStack>, m: seq<ItemStack>, t: ItemType, q: nat): (r: (seq<ItemStack>, seq<ItemStack>, nat))
  {
    var (h', w, _) := TakeAsWritten(h, t, q);
    var (m', w') := if w > 0 then var (m2, w2, _) := TakeAsWritten(m, t, w); (m2, w2) else (m, w);
    (h', m', q - w')
  }

  /** Removing 3 stone from two hotbar stacks of 10 takes 3 from each and reports 0 removed. */
  lemma RemoveItemAsWrittenMiscounts()
    ensures var h := [ItemStack(Block(Stone), 10), ItemStack(Block(Stone), 10)];
      var (h', m', removed) := RemoveItemAsWritten(h, [], Block(Stone), 3);
      removed == 0 && h' == [ItemStack(Block(Stone), 7), ItemStack(Block(Stone), 7)] && m' == []
  {
    var h := [ItemStack(Block(Stone), 10), ItemStack(Block(Stone), 10)];
    var h1 := h[..1];
    assert h1[..0] == [];
    assert TakeAsWritten([], Block(Stone), 3) == ([], 3, false);
    assert TakeAsWritten(h1, Block(Stone), 3) == ([] + [ItemStack(Block(Stone), 7)], 3, false);
    assert h[..|h| - 1] == h1;
  }

  /** The slot row with slots i and j exchanged. */
  function Swapped(s: seq<ItemStack>, i: nat, j: nat): (r: seq<ItemStack>)
    requires i < |s| && j < |s|
    ensures |r| == |s| && r[i] == s[j] && r[j] == s[i]
    ensures forall k :: 0 <= k < |s| && k != i && k != j ==> r[k] == s[k]
    ensures multiset(r) == multiset(s)
  {
    s[i := s[j]][j := s[i]]
  }

  /**
   * `swap_slots` within one row as written: the row is split at max(i, j) and the two halves are
   * indexed; None where that indexing is out of range and the code panics.
   */
  function SwapWithinAsWritten(s: seq<ItemStack>, i: nat, j: nat): (r: Option<seq<ItemStack>>)
    requires i < |s| && j < |s|
  {
    var mid := if i <= j then j else i;
    var left, right := s[..mid], s[mid..];
    if i < j then Some(left[i := right[0]] + right[0 := left[i]])
    else if j < mid then Some(left[j := right[0]] + right[0 := left[j]])
    else None
  }

  /** The split-based swap agrees with the plain exchange for distinct slots and panics for a slot with itself. */
  lemma SwapWithinAsWrittenBehaviour(s: seq<ItemStack>, i: nat, j: nat)
    requires i < |s| && j < |s|
    ensures i != j ==> SwapWithinAsWritten(s, i, j) == Some(Swapped(s, i, j))
    ensures i == j ==> SwapWithinAsWritten(s, i, j).None?
  {
    if i < j {
      assert s[..j][i := s[j]] + s[j..][0 := s[i]] == Swapped(s, i, j);
    } else if j < i {
      assert s[..i][j := s[i]] + s[i..][0 := s[j]] == Swapped(s, i, j);
    }
  }

  function NextSlot(selected: nat, hotbarSize: nat): (r: nat)
    requires hotbarSize > 0
    ensures r < hotbarSize
  {
    (selected + 1) % hotbarSize
  }

  function PreviousSlot(selected: nat, hotbarSize: nat): (r: nat)
    requires selected > 0 || hotbarSize > 0
    ensures selected < hotbarSize ==> r < hotbarSize
  {
    if selected == 0 then hotbarSize - 1 else selected - 1
  }

  /** On in-range cursors, next and previous undo each other. */
  lemma CursorRoundTrip(selected: nat, hotbarSize: nat)
    requires selected < hotbarSize
    ensures PreviousSlot(NextSlot(selected, hotbarSize), hotbarSize) == selected
    ensures NextSlot(PreviousSlot(selected, hotbarSize), hotbarSize) == selected
  {
    if selected + 1 < hotbarSize {
      assert NextSlot(selected, hotbarSize) == selected + 1;
    } else {
      assert NextSlot(selected, hotbarSize) == 0;
    }
    if selected == 0 {
      assert NextSlot(hotbarSize - 1, hotbarSize) == 0;
    } else {
      assert NextSlot(selected - 1, hotbarSize) == selected;
    }
  }

  class Inventory {
    var slots: seq<ItemStack>
    var hotbarSlots: seq<ItemStack>
    var selectedHotbarSlot: nat
    var maxStackSize: nat
    var inventorySize: nat
    var hotbarSize: nat

    ghost predicate Valid()
      reads this
    {
      |slots| == inventorySize && |hotbarSlots| == hotbarSize
    }

    /** The total quantity of t over both rows. */
    function ItemCount(t: ItemType): nat
      reads this
    {
      Count(hotbarSlots, t) + Count(slots, t)
    }

    constructor (inventorySize: nat, hotbarSize: nat, maxStackSize: nat)
      ensures Valid() && selectedHotbarSlot == 0
      ensures this.inventorySize == inventorySize && this.hotbarSize == hotbarSize && this.maxStackSize == maxStackSize
      ensures slots == seq(inventorySize, _ => EMPTY_STACK) && hotbarSlots == seq(hotbarSize, _ => EMPTY_STACK)
    {
      slots := seq(inventorySize, _ => EMPTY_STACK);
      hotbarSlots := seq(hotbarSize, _ => EMPTY_STACK);
      selectedHotbarSlot := 0;
      this.maxStackSize := maxStackSize;
      this.inventorySize := inventorySize;
      this.hotbarSize := hotbarSize;
    }

    /** The default inventory: 27 main slots, 9 hotbar slots, stacks of up to 64, all empty. */
    constructor Default()
      ensures Valid() && selectedHotbarSlot == 0
      ensures inventorySize == 27 && hotbarSize == 9 && maxStackSize == 64
      ensures slots == seq(27, _ => EMPTY_STACK) && hotbarSlots == seq(9, _ => EMPTY_STACK)
    {
      slots := seq(27, _ => EMPTY_STACK);
      hotbarSlots := seq(9, _ => EMPTY_STACK);
      selectedHotbarSlot := 0;
      maxStackSize := 64;
      inventorySize := 27;
      hotbarSize := 9;
    }

    /** The selected hotbar stack, or None when the cursor is past the hotbar. */
    function GetSelectedItem(): (r: Option<ItemStack>)
      reads this
      ensures r.Some? <==> selectedHotbarSlot < |hotbarSlots|
      ensures r.Some? ==> r.value in hotbarSlots
    {
      if selectedHotbarSlot < |hotbarSlots| then Some(hotbarSlots[selectedHotbarSlot]) else None
    }

    method SelectHotbarSlot(slot: nat)
      modifies this
      ensures slot < hotbarSize ==> selectedHotbarSlot == slot
      ensures slot >= hotbarSize ==> selectedHotbarSlot == old(selectedHotbarSlot)
      ensures slots == old(slots) && hotbarSlots == old(hotbarSlots) && hotbarSize == old(hotbarSize)
      ensures inventorySize == old(inventorySize) && maxStackSize == old(maxStackSize)
    {
      if slot < hotbarSize {
        selectedHotbarSlot := slot;
      }
    }

    method NextHotbarSlot()
      requires hotbarSize > 0
      modifies this`selectedHotbarSlot
      ensures selectedHotbarSlot == NextSlot(old(selectedHotbarSlot), hotbarSize) && selectedHotbarSlot < hotbarSize
    {
      selectedHotbarSlot := (selectedHotbarSlot + 1) % hotbarSize;
    }

    method PreviousHotbarSlot()
      requires selectedHotbarSlot > 0 || hotbarSize > 0
      modifies this`selectedHotbarSlot
      ensures selectedHotbarSlot == PreviousSlot(old(selectedHotbarSlot), hotbarSize)
      ensures old(selectedHotbarSlot) < hotbarSize ==> selectedHotbarSlot < hotbarSize
    {
      if selectedHotbarSlot == 0 {
        selectedHotbarSlot := hotbarSize - 1;
      } else {
        selectedHotbarSlot := selectedHotbarSlot - 1;
      }
    }

    /**
     * Adds q items of t to the first fitting slot (see AddTarget), with the cap applied to empty slots.
     * Returns whether a slot was found; when none was, nothing changes.
     */
    method AddItem(t: ItemType, q: nat) returns (added: bool)
      requires Valid()
      modifies this`hotbarSlots, this`slots
      ensures Valid()
      ensures (added, hotbarSlots, slots) == AddItemSpec(old(hotbarSlots), old(slots), t, q, maxStackSize, true)
    {
      added, hotbarSlots, slots := AddToRows(hotbarSlots, slots, t, q, maxStackSize);
    }

    /**
     * Takes `want` items of t from the stacks of one row, in index order, while some are still wanted;
     * returns how many are still wanted.
     */
    method TakeFromRow(row: seq<ItemStack>, t: ItemType, want: nat) returns (r: seq<ItemStack>, remaining: nat)
      ensures (r, remaining) == TakeFrom(row, t, want)
    {
      r, remaining := row, want;
      var i := 0;
      // The scan ends at the first stack that leaves nothing wanted: what follows is untouched.
      while i < |r| && remaining > 0
        invariant i <= |r| == |row| && r[i..] == row[i..]
        invariant (r[..i], remaining) == TakeFrom(row[..i], t, want)
      {
        assert row[..i + 1][..i] == row[..i];
        if r[i].itemType == t {
          var (n, k) := r[i].Remove(remaining);
          r := r[i := n];
          remaining := remaining - k;
        }
        assert r[i + 1..] == row[i + 1..];
        assert r[..i + 1] == r[..i] + [r[i]];
        i := i + 1;
      }
      assert row == row[..i] + row[i..] && r == r[..i] + r[i..];
      TakeFromAppend(row[..i], row[i..], t, want);
      if remaining == 0 {
        TakeFromZero(row[i..], t);
      }
    }

    /**
     * Removes up to q items of t, hotbar first, and returns the number removed: min(q, ItemCount(t)),
     * by RemoveItemRemoved.
     */
    method RemoveItem(t: ItemType, q: nat) returns (removed: nat)
      requires Valid()
      modifies this`hotbarSlots, this`slots
      ensures Valid()
      ensures (hotbarSlots, slots, removed) == RemoveItemSpec(old(hotbarSlots), old(slots), t, q)
    {
      var remaining;
      hotbarSlots, remaining := TakeFromRow(hotbarSlots, t, q);
      if remaining > 0 {
        slots, remaining := TakeFromRow(slots, t, remaining);
      } else {
        TakeFromZero(slots, t);
      }
      removed := q - remaining;
    }

    /** The total quantity of t, counted over the hotbar and then the main grid. */
    method GetItemCount(t: ItemType) returns (count: nat)
      ensures count == ItemCount(t)
    {
      count := 0;
      for i := 0 to |hotbarSlots|
        invariant count == Count(hotbarSlots[..i], t)
      {
        assert hotbarSlots[..i + 1][..i] == hotbarSlots[..i];
        if hotbarSlots[i].itemType == t {
          count := count + hotbarSlots[i].quantity;
        }
      }
      assert hotbarSlots[..|hotbarSlots|] == hotbarSlots;
      for i := 0 to |slots|
        invariant count == Count(hotbarSlots, t) + Count(slots[..i], t)
      {
        assert slots[..i + 1][..i] == slots[..i];
        if slots[i].itemType == t {
          count := count + slots[i].quantity;
        }
      }
      assert slots[..|slots|] == slots;
    }

    method HasItem(t: ItemType, q: nat) returns (r: bool)
      ensures r <==> ItemCount(t) >= q
    {
      var count := GetItemCount(t);
      r := count >= q;
    }

    /** Empties one slot of the addressed row; an out-of-range index changes nothing. */
    method ClearSlot(slot: nat, isHotbar: bool)
      requires Valid()
      modifies this`hotbarSlots, this`slots
      ensures Valid()
      ensures hotbarSlots == if isHotbar && slot < hotbarSize then old(hotbarSlots)[slot := EMPTY_STACK] else old(hotbarSlots)
      ensures slots == if !isHotbar && slot < inventorySize then old(slots)[slot := EMPTY_STACK] else old(slots)
    {
      if isHotbar && slot < hotbarSize {
        hotbarSlots := hotbarSlots[slot := EMPTY_STACK];
      } else if !isHotbar && slot < inventorySize {
        slots := slots[slot := EMPTY_STACK];
      }
    }

    /**
     * Exchanges the two addressed slots (possibly in different rows); a slot swapped with itself and
     * an out-of-range index change nothing.
     */
    method SwapSlots(slot1: nat, isHotbar1: bool, slot2: nat, isHotbar2: bool)
      requires Valid()
      modifies this`hotbarSlots, this`slots
      ensures Valid()
      ensures isHotbar1 && isHotbar2 && slot1 < hotbarSize && slot2 < hotbarSize ==>
        hotbarSlots == Swapped(old(hotbarSlots), slot1, slot2) && slots == old(slots)
      ensures !isHotbar1 && !isHotbar2 && slot1 < inventorySize && slot2 < inventorySize ==>
        slots == Swapped(old(slots), slot1, slot2) && hotbarSlots == old(hotbarSlots)
      ensures isHotbar1 && !isHotbar2 && slot1 < hotbarSize && slot2 < inventorySize ==>
        hotbarSlots == old(hotbarSlots)[slot1 := old(slots)[slot2]] && slots == old(slots)[slot2 := old(hotbarSlots)[slot1]]
      ensures !isHotbar1 && isHotbar2 && slot1 < inventorySize && slot2 < hotbarSize ==>
        slots == old(slots)[slot1 := old(hotbarSlots)[slot2]] && hotbarSlots == old(hotbarSlots)[slot2 := old(slots)[slot1]]
      ensures (slot1 >= (if isHotbar1 then hotbarSize else inventorySize) || slot2 >= (if isHotbar2 then hotbarSize else inventorySize)) ==>
        hotbarSlots == old(hotbarSlots) && slots == old(slots)
    {
      if isHotbar1 && isHotbar2 && slot1 < hotbarSize && slot2 < hotbarSize {
        hotbarSlots := Swapped(hotbarSlots, slot1, slot2);
      } else if !isHotbar1 && !isHotbar2 && slot1 < inventorySize && slot2 < inventorySize {
        slots := Swapped(slots, slot1, slot2);
      } else if isHotbar1 && !isHotbar2 && slot1 < hotbarSize && slot2 < inventorySize {
        var hotbarItem := hotbarSlots[slot1];
        hotbarSlots := hotbarSlots[slot1 := EMPTY_STACK];
        var inventoryItem := slots[slot2];
        slots := slots[slot2 := hotbarItem];
        hotbarSlots := hotbarSlots[slot1 := inventoryItem];
      } else if !isHotbar1 && isHotbar2 && slot1 < inventorySize && slot2 < hotbarSize {
        var inventoryItem := slots[slot1];
        slots := slots[slot1 := EMPTY_STACK];
        var hotbarItem := hotbarSlots[slot2];
        hotbarSlots := hotbarSlots[slot2 := inventoryItem];
        slots := slots[slot1 := hotbarItem];
      }
    }
  }
}
