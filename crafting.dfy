/**
 * Recipes, the recipe book, the craftability checks, and the crafting transaction: check the
 * ingredients, consume them, produce the output, and refund the ingredients when the output does not
 * fit. Events are modelled as returned values; formatted messages are represented by their data.
 */
module Crafting {
  import opened Common
  import opened Blocks
  import opened Inventories

  datatype CraftingGridSize = Size1x1 | Size2x2 | Size3x3

  /** The side length of a square crafting grid. */
  function Side(g: CraftingGridSize): nat {
    match g
    case Size1x1 => 1
    case Size2x2 => 2
    case Size3x3 => 3
  }

  /** The number of cells of the grid: 1, 4 or 9, the square of its side. */
  function Size(g: CraftingGridSize): (r: nat)
    ensures r == Side(g) * Side(g)
    ensures g == Size1x1 ==> r == 1
    ensures g == Size2x2 ==> r == 4
    ensures g == Size3x3 ==> r == 9
  {
    match g
    case Size1x1 => 1
    case Size2x2 => 4
    case Size3x3 => 9
  }

  datatype RecipeIngredient = RecipeIngredient(itemType: ItemType, quantity: nat)
  datatype RecipeOutput = RecipeOutput(itemType: ItemType, quantity: nat)
  datatype CraftingRecipe = CraftingRecipe(
    id: string, name: string, gridSize: CraftingGridSize, ingredients: seq<RecipeIngredient>, output: RecipeOutput)

  /** The index of the first available entry for t. */
  function FirstOf(items: seq<(ItemType, nat)>, t: ItemType): (r: Option<nat>)
    ensures r.None? <==> forall i :: 0 <= i < |items| ==> items[i].0 != t
    ensures r.Some? ==> r.value < |items| && items[r.value].0 == t && forall j :: 0 <= j < r.value ==> items[j].0 != t
  {
    if |items| == 0 then None
    else if items[0].0 == t then Some(0)
    else
      match FirstOf(items[1..], t)
      case None => None
      case Some(i) => Some(i + 1)
  }

  /** An ingredient is available when the first entry for its item has at least the required quantity. */
  predicate Satisfied(items: seq<(ItemType, nat)>, ing: RecipeIngredient) {
    match FirstOf(items, ing.itemType)
    case None => false
    case Some(i) => items[i].1 >= ing.quantity
  }

  predicate Craftable(recipe: CraftingRecipe, items: seq<(ItemType, nat)>) {
    forall i :: 0 <= i < |recipe.ingredients| ==> Satisfied(items, recipe.ingredients[i])
  }

  /** For each ingredient, looks at the first entry of its item only; false as soon as one falls short. */
  method CanCraft(recipe: CraftingRecipe, items: seq<(ItemType, nat)>) returns (r: bool)
    ensures r <==> Craftable(recipe, items)
  {
    for k := 0 to |recipe.ingredients|
      invariant forall i :: 0 <= i < k ==> Satisfied(items, recipe.ingredients[i])
    {
      var required := recipe.ingredients[k];
      var found := false;
      var j := 0;
      while j < |items|
        invariant j <= |items| && !found
        invariant forall i :: 0 <= i < j ==> items[i].0 != required.itemType
      {
        if items[j].0 == required.itemType {
          if items[j].1 >= required.quantity {
            found := true;
          }
          assert FirstOf(items, required.itemType) == Some(j);
          break;
        }
        j := j + 1;
      }
      if !found {
        return false;
      }
    }
    return true;
  }

  /** The two recipes checked by the source's own examples: enough stone and a pickaxe, and too little stone. */
  lemma CanCraftExamples()
    ensures var recipe := CraftingRecipe("stone_pickaxe", "Stone Pickaxe", Size3x3,
        [RecipeIngredient(Block(Stone), 3), RecipeIngredient(Tool(Pickaxe), 1)], RecipeOutput(Tool(Pickaxe), 1));
      Craftable(recipe, [(Block(Stone), 3), (Tool(Pickaxe), 1)]) && !Craftable(recipe, [(Block(Stone), 2)])
  {
    var recipe := CraftingRecipe("stone_pickaxe", "Stone Pickaxe", Size3x3,
      [RecipeIngredient(Block(Stone), 3), RecipeIngredient(Tool(Pickaxe), 1)], RecipeOutput(Tool(Pickaxe), 1));
    var enough := [(Block(Stone), 3), (Tool(Pickaxe), 1)];
    assert FirstOf(enough, Block(Stone)) == Some(0);
    assert FirstOf(enough, Tool(Pickaxe)) == Some(1);
    assert FirstOf([(Block(Stone), 2)], Block(Stone)) == Some(0);
    assert !Satisfied([(Block(Stone), 2)], recipe.ingredients[0]);
  }

  /** True when the inventory holds, in total, each ingredient's quantity (one craft's worth). */
  method CanCraftFromInventory(recipe: CraftingRecipe, inventory: Inventory) returns (r: bool)
    ensures r <==> forall i :: 0 <= i < |recipe.ingredients| ==>
      inventory.ItemCount(recipe.ingredients[i].itemType) >= recipe.ingredients[i].quantity
  {
    for k := 0 to |recipe.ingredients|
      invariant forall i :: 0 <= i < k ==> inventory.ItemCount(recipe.ingredients[i].itemType) >= recipe.ingredients[i].quantity
    {
      var has := inventory.HasItem(recipe.ingredients[k].itemType, recipe.ingredients[k].quantity);
      if !has {
        return false;
      }
    }
    return true;
  }

  /** The recipes, in book order, that can be crafted from `items`. */
  function CraftableRecipes(recipes: seq<CraftingRecipe>, items: seq<(ItemType, nat)>): (r: seq<CraftingRecipe>)
    ensures |r| <= |recipes|
    ensures forall x :: x in r <==> x in recipes && Craftable(x, items)
  {
    if |recipes| == 0 then []
    else
      var rest := CraftableRecipes(recipes[..|recipes| - 1], items);
      var last := recipes[|recipes| - 1];
      assert recipes == recipes[..|recipes| - 1] + [last];
      if Craftable(last, items) then rest + [last] else rest
  }

  /** One more recipe at the end of the book adds it at the end of the filter exactly when it is craftable. */
  lemma CraftableRecipesSnoc(a: seq<CraftingRecipe>, y: CraftingRecipe, items: seq<(ItemType, nat)>)
    ensures CraftableRecipes(a + [y], items) == CraftableRecipes(a, items) + (if Craftable(y, items) then [y] else [])
  {
    assert (a + [y])[..|a + [y]| - 1] == a;
  }

  /** The filter keeps duplicates: each craftable recipe occurs as often as in the book, the others not at all. */
  lemma {:induction false} CraftableRecipesCounts(recipes: seq<CraftingRecipe>, items: seq<(ItemType, nat)>)
    ensures forall x :: multiset(CraftableRecipes(recipes, items))[x] == if Craftable(x, items) then multiset(recipes)[x] else 0
    decreases |recipes|
  {
    if |recipes| > 0 {
      var p, last := recipes[..|recipes| - 1], recipes[|recipes| - 1];
      CraftableRecipesCounts(p, items);
      assert recipes == p + [last];
      CraftableRecipesSnoc(p, last, items);
    }
  }

  /** The filter keeps book order: the craftable recipes of a concatenation are those of each part, in turn. */
  lemma {:induction false} CraftableRecipesAppend(a: seq<CraftingRecipe>, b: seq<CraftingRecipe>, items: seq<(ItemType, nat)>)
    ensures CraftableRecipes(a + b, items) == CraftableRecipes(a, items) + CraftableRecipes(b, items)
    decreases |b|
  {
    if |b| == 0 {
      assert a + b == a;
    } else {
      var b', y := b[..|b| - 1], b[|b| - 1];
      var f, g, tail := CraftableRecipes(a, items), CraftableRecipes(b', items), if Craftable(y, items) then [y] else [];
      calc {
        CraftableRecipes(a + b, items);
        { assert a + b == (a + b') + [y]; CraftableRecipesSnoc(a + b', y, items); }
        CraftableRecipes(a + b', items) + tail;
        { CraftableRecipesAppend(a, b', items); }
        (f + g) + tail;
        f + (g + tail);
        { assert b == b' + [y]; CraftableRecipesSnoc(b', y, items); }
        f + CraftableRecipes(b, items);
      }
    }
  }

  /** A one-recipe book yields that recipe exactly when it is craftable. */
  lemma CraftableRecipesSingle(x: CraftingRecipe, items: seq<(ItemType, nat)>)
    ensures CraftableRecipes([x], items) == if Craftable(x, items) then [x] else []
  {
    assert [x][..0] == [];
  }

  /** The index of the first recipe with the given id. */
  function FindRecipe(recipes: seq<CraftingRecipe>, id: string): (r: Option<nat>)
    ensures r.None? <==> forall i :: 0 <= i < |recipes| ==> recipes[i].id != id
    ensures r.Some? ==> r.value < |recipes| && recipes[r.value].id == id && forall j :: 0 <= j < r.value ==> recipes[j].id != id
  {
    if |recipes| == 0 then None
    else if recipes[0].id == id then Some(0)
    else
      match FindRecipe(recipes[1..], id)
      case None => None
      case Some(i) => Some(i + 1)
  }

  /** `iter().find`: the first recipe with the id. */
  function LookupRecipe(recipes: seq<CraftingRecipe>, id: string): (r: Option<CraftingRecipe>)
    ensures r.None? <==> forall i :: 0 <= i < |recipes| ==> recipes[i].id != id
    ensures r.Some? ==> r.value in recipes && r.value.id == id
    ensures r.Some? ==> exists i :: 0 <= i < |recipes| && recipes[i] == r.value && (forall j :: 0 <= j < i ==> recipes[j].id != id)
  {
    match FindRecipe(recipes, id)
    case None => None
    case Some(i) => Some(recipes[i])
  }

  class RecipeBook {
    var recipes: seq<CraftingRecipe>

    constructor ()
      ensures recipes == []
    {
      recipes := [];
    }

    method AddRecipe(recipe: CraftingRecipe)
      modifies this
      ensures recipes == old(recipes) + [recipe]
    {
      recipes := recipes + [recipe];
    }

    /** The first recipe with the given id, or None when no recipe has it. */
    function GetRecipe(id: string): (r: Option<CraftingRecipe>)
      reads this
      ensures r.None? <==> forall i :: 0 <= i < |recipes| ==> recipes[i].id != id
      ensures r.Some? ==> r.value in recipes && r.value.id == id
      ensures r.Some? ==> exists i :: 0 <= i < |recipes| && recipes[i] == r.value && (forall j :: 0 <= j < i ==> recipes[j].id != id)
    {
      LookupRecipe(recipes, id)
    }

    function FindCraftableRecipes(items: seq<(ItemType, nat)>): (r: seq<CraftingRecipe>)
      reads this
      ensures forall x :: x in r <==> x in recipes && Craftable(x, items)
      ensures forall x :: multiset(r)[x] == if Craftable(x, items) then multiset(recipes)[x] else 0
    {
      CraftableRecipesCounts(recipes, items);
      CraftableRecipes(recipes, items)
    }
  }

  /** The five recipes of the default book. */
  function DefaultRecipes(): seq<CraftingRecipe> {
    [
      CraftingRecipe("wooden_pickaxe", "Wooden Pickaxe", Size3x3,
        [RecipeIngredient(Block(Wood), 3), RecipeIngredient(Resource(Stick), 2)], RecipeOutput(Tool(Pickaxe), 1)),
      CraftingRecipe("stone_pickaxe", "Stone Pickaxe", Size3x3,
        [RecipeIngredient(Block(Stone), 3), RecipeIngredient(Resource(Stick), 2)], RecipeOutput(Tool(Pickaxe), 1)),
      CraftingRecipe("wooden_axe", "Wooden Axe", Size3x3,
        [RecipeIngredient(Block(Wood), 3), RecipeIngredient(Resource(Stick), 2)], RecipeOutput(Tool(Axe), 1)),
      CraftingRecipe("wooden_shovel", "Wooden Shovel", Size3x3,
        [RecipeIngredient(Block(Wood), 1), RecipeIngredient(Resource(Stick), 2)], RecipeOutput(Tool(Shovel), 1)),
      CraftingRecipe("stick", "Stick", Size2x2,
        [RecipeIngredient(Block(Wood), 2)], RecipeOutput(Resource(Stick), 4))
    ]
  }

  method InitializeRecipeBook() returns (book: RecipeBook)
    ensures fresh(book) && book.recipes == DefaultRecipes()
  {
    book := new RecipeBook();
    book.AddRecipe(DefaultRecipes()[0]);
    book.AddRecipe(DefaultRecipes()[1]);
    book.AddRecipe(DefaultRecipes()[2]);
    book.AddRecipe(DefaultRecipes()[3]);
    book.AddRecipe(DefaultRecipes()[4]);
  }

  /** No two ingredients of a recipe name the same item. */
  predicate DistinctTypes(ings: seq<RecipeIngredient>) {
    forall i, j :: 0 <= i < j < |ings| ==> ings[i].itemType != ings[j].itemType
  }

  /** The default book has five recipes with pairwise distinct ids. */
  lemma DefaultRecipeIdsDistinct()
    ensures |DefaultRecipes()| == 5
    ensures forall i, j :: 0 <= i < j < 5 ==> DefaultRecipes()[i].id != DefaultRecipes()[j].id
  {
    var d := DefaultRecipes();
    assert d[1].id[0] != d[3].id[0];
  }

  /** Looking up each default recipe's id finds that recipe. */
  lemma DefaultRecipesFound(i: nat)
    requires i < 5
    ensures FindRecipe(DefaultRecipes(), DefaultRecipes()[i].id) == Some(i)
  {
    DefaultRecipeIdsDistinct();
  }

  /** No default recipe lists the same item twice. */
  lemma DefaultIngredientsDistinct(i: nat)
    requires i < 5
    ensures DistinctTypes(DefaultRecipes()[i].ingredients)
  {
  }

  // The crafting transaction, on the inventory's two rows of stacks.

  datatype Rows = Rows(hotbar: seq<ItemStack>, main: seq<ItemStack>)

  function Total(r: Rows, t: ItemType): nat {
    Count(r.hotbar, t) + Count(r.main, t)
  }

  datatype CraftItemEvent = CraftItemEvent(recipeId: string, quantity: nat)
  datatype CraftingSuccessEvent = CraftingSuccessEvent(recipeId: string, recipeName: string, outputItem: ItemType, outputQuantity: nat)
  /** An ingredient the inventory lacks: how many were needed and how many there were. */
  datatype Shortfall = Shortfall(itemType: ItemType, required: nat, available: nat)
  datatype FailReason = RecipeNotFound | MissingIngredients(missing: seq<Shortfall>) | InventoryFull
  datatype CraftingFailEvent = CraftingFailEvent(recipeId: string, reason: FailReason)
  datatype CraftOutcome = Crafted(success: CraftingSuccessEvent) | Failed(fail: CraftingFailEvent)

  /** How many items of its type an ingredient takes for n crafts. */
  function Amount(ing: RecipeIngredient, n: nat): nat {
    ing.quantity * n
  }

  /** Items of t that n crafts of the ingredients consume. */
  function Need(ings: seq<RecipeIngredient>, t: ItemType, n: nat): nat {
    if |ings| == 0 then 0
    else Need(ings[..|ings| - 1], t, n) + (if ings[|ings| - 1].itemType == t then Amount(ings[|ings| - 1], n) else 0)
  }

  /** The ingredients whose total count is below quantity * n, in recipe order. */
  function Shortfalls(r: Rows, ings: seq<RecipeIngredient>, n: nat): (s: seq<Shortfall>)
    ensures |s| == 0 <==> forall i :: 0 <= i < |ings| ==> Total(r, ings[i].itemType) >= Amount(ings[i], n)
    ensures forall k :: 0 <= k < |s| ==> s[k].available < s[k].required
  {
    if |ings| == 0 then []
    else
      var rest := Shortfalls(r, ings[..|ings| - 1], n);
      var last := ings[|ings| - 1];
      var need := Amount(last, n);
      var have := Total(r, last.itemType);
      if have < need then rest + [Shortfall(last.itemType, need, have)] else rest
  }

  /** The rows after `remove_item` of quantity * n for each ingredient in turn. */
  function RemoveAll(r: Rows, ings: seq<RecipeIngredient>, n: nat): Rows {
    if |ings| == 0 then r
    else
      var p := RemoveAll(r, ings[..|ings| - 1], n);
      var last := ings[|ings| - 1];
      var a := RemoveItemSpec(p.hotbar, p.main, last.itemType, Amount(last, n));
      Rows(a.0, a.1)
  }

  /** RemoveAll with `remove_item` as written (see Inventories.RemoveItemAsWritten), as the handler calls it. */
  function RemoveAllAsWritten(r: Rows, ings: seq<RecipeIngredient>, n: nat): (res: Rows)
    ensures |res.hotbar| == |r.hotbar| && |res.main| == |r.main|
  {
    if |ings| == 0 then r
    else
      var p := RemoveAllAsWritten(r, ings[..|ings| - 1], n);
      var last := ings[|ings| - 1];
      var a := RemoveItemAsWritten(p.hotbar, p.main, last.itemType, Amount(last, n));
      Rows(a.0, a.1)
  }

  /**
   * One stick craft (2 wood) from hotbar stacks of 64 and 10 wood: the written removal takes 2 from
   * each stack, 4 wood in all, where the recipe needs 2; refunding the 2 needed does not restore the count.
   */
  lemma StickCraftAsWrittenOverdraws()
    ensures var stick := DefaultRecipes()[4];
      var r := Rows([ItemStack(Block(Wood), 64), ItemStack(Block(Wood), 10)], []);
      var removed := RemoveAllAsWritten(r, stick.ingredients, 1);
      stick.ingredients == [RecipeIngredient(Block(Wood), 2)] && |Shortfalls(r, stick.ingredients, 1)| == 0
      && removed == Rows([ItemStack(Block(Wood), 62), ItemStack(Block(Wood), 8)], [])
      && Total(r, Block(Wood)) == 74 && Total(removed, Block(Wood)) == 70
      && Total(RemoveAll(r, stick.ingredients, 1), Block(Wood)) == 72
  {
    var stick := DefaultRecipes()[4];
    var h := [ItemStack(Block(Wood), 64), ItemStack(Block(Wood), 10)];
    var r := Rows(h, []);
    assert h[..1][..0] == [];
    assert h[..|h| - 1] == h[..1];
    assert TakeAsWritten([], Block(Wood), 2) == ([], 2, false);
    assert TakeAsWritten(h[..1], Block(Wood), 2) == ([] + [ItemStack(Block(Wood), 62)], 2, false);
    assert [] + [ItemStack(Block(Wood), 62)] == [ItemStack(Block(Wood), 62)];
    assert h[1].Remove(2) == (ItemStack(Block(Wood), 8), 2);
    assert TakeAsWritten(h, Block(Wood), 2) == ([ItemStack(Block(Wood), 62)] + [ItemStack(Block(Wood), 8)], 2, false);
    assert stick.ingredients[..0] == [];
    assert Count(h, Block(Wood)) == 74 by {
      assert h == h[..1] + [h[1]];
      CountAppend(h[..1], [h[1]], Block(Wood));
    }
    var h' := [ItemStack(Block(Wood), 62), ItemStack(Block(Wood), 8)];
    assert Count(h', Block(Wood)) == 70 by {
      assert h' == h'[..1] + [h'[1]];
      CountAppend(h'[..1], [h'[1]], Block(Wood));
    }
    RemoveStep(r, Block(Wood), 2, Block(Wood));
  }

  /** The rows after `add_item` of quantity * n for each ingredient in turn, and whether every add succeeded. */
  function AddAll(r: Rows, ings: seq<RecipeIngredient>, n: nat, maxStackSize: nat): (Rows, bool) {
    if |ings| == 0 then (r, true)
    else
      var prev := AddAll(r, ings[..|ings| - 1], n, maxStackSize);
      var last := ings[|ings| - 1];
      var a := AddItemSpec(prev.0.hotbar, prev.0.main, last.itemType, Amount(last, n), maxStackSize, true);
      (Rows(a.1, a.2), prev.1 && a.0)
  }

  /**
   * One crafting request against the rows `r`: the rows afterwards and the event sent. A missing
   * recipe or ingredient fails with the rows untouched.
   */
  function CraftSpec(r: Rows, recipe: Option<CraftingRecipe>, ev: CraftItemEvent, maxStackSize: nat): (res: (Rows, CraftOutcome))
    ensures res.1.Failed? && !res.1.fail.reason.InventoryFull? ==> res.0 == r
    ensures (res.1.Failed? && res.1.fail.reason.RecipeNotFound?) <==> recipe.None?
    ensures (res.1.Failed? && res.1.fail.reason.MissingIngredients?) <==>
      (recipe.Some? &&
       exists i :: 0 <= i < |recipe.value.ingredients| &&
         Total(r, recipe.value.ingredients[i].itemType) < Amount(recipe.value.ingredients[i], ev.quantity))
  {
    match recipe
    case None => (r, Failed(CraftingFailEvent(ev.recipeId, RecipeNotFound)))
    case Some(rc) =>
      var n := ev.quantity;
      var missing := Shortfalls(r, rc.ingredients, n);
      if |missing| > 0 then (r, Failed(CraftingFailEvent(rc.id, MissingIngredients(missing))))
      else
        var removed := RemoveAll(r, rc.ingredients, n);
        var a := AddItemSpec(removed.hotbar, removed.main, rc.output.itemType, rc.output.quantity * n, maxStackSize, true);
        if a.0 then (Rows(a.1, a.2), Crafted(CraftingSuccessEvent(rc.id, rc.name, rc.output.itemType, rc.output.quantity * n)))
        else (AddAll(removed, rc.ingredients, n, maxStackSize).0, Failed(CraftingFailEvent(rc.id, InventoryFull)))
  }

  /** Removing each ingredient in turn removes, of every item, min(count, total need). */
  lemma {:induction false} RemoveAllCount(r: Rows, ings: seq<RecipeIngredient>, n: nat, u: ItemType)
    ensures Total(RemoveAll(r, ings, n), u) == Total(r, u) - Min(Total(r, u), Need(ings, u, n))
    decreases |ings|
  {
    if |ings| > 0 {
      var prefix, last := ings[..|ings| - 1], ings[|ings| - 1];
      var q := Amount(last, n);
      RemoveAllCount(r, prefix, n, u);
      var p := RemoveAll(r, prefix, n);
      RemoveStep(p, last.itemType, q, u);
      var have, before, after := Total(r, u), Need(prefix, u, n), Total(p, u);
      if last.itemType == u {
        assert Need(ings, u, n) == before + q;
        MinStep(have, before, q);
      } else {
        assert Need(ings, u, n) == before;
      }
    }
  }

  /** One `remove_item` of q of t: t loses min(q, its total), every other item keeps its total. */
  lemma RemoveStep(p: Rows, t: ItemType, q: nat, u: ItemType)
    ensures var a := RemoveItemSpec(p.hotbar, p.main, t, q);
      Total(Rows(a.0, a.1), u) == Total(p, u) - (if u == t then Min(q, Total(p, u)) else 0)
  {
    RemoveItemCount(p.hotbar, p.main, t, q, u);
    RemoveItemRemoved(p.hotbar, p.main, t, q);
  }

  /** One successful `add_item` of q of t: t gains q, every other item keeps its total. */
  lemma AddStep(p: Rows, t: ItemType, q: nat, maxStackSize: nat, u: ItemType)
    ensures var a := AddItemSpec(p.hotbar, p.main, t, q, maxStackSize, true);
      Total(Rows(a.1, a.2), u) == Total(p, u) + (if u == t && a.0 then q else 0)
  {
    AddItemCount(p.hotbar, p.main, t, q, maxStackSize, true, u);
  }

  /** Taking min(have, q) after min(have, need) is taking min(have, need + q) at once. */
  lemma MinStep(have: nat, need: nat, q: nat)
    ensures var left := have - Min(have, need);
      left - Min(q, left) == have - Min(have, need + q)
  {
  }

  /** When every add succeeds, adding each ingredient in turn raises every item's count by its total need. */
  lemma {:induction false} AddAllCount(r: Rows, ings: seq<RecipeIngredient>, n: nat, maxStackSize: nat, u: ItemType)
    requires AddAll(r, ings, n, maxStackSize).1
    ensures Total(AddAll(r, ings, n, maxStackSize).0, u) == Total(r, u) + Need(ings, u, n)
    decreases |ings|
  {
    if |ings| > 0 {
      var prefix, last := ings[..|ings| - 1], ings[|ings| - 1];
      var q := Amount(last, n);
      var prev := AddAll(r, prefix, n, maxStackSize);
      var a := AddItemSpec(prev.0.hotbar, prev.0.main, last.itemType, q, maxStackSize, true);
      assert AddAll(r, ings, n, maxStackSize) == (Rows(a.1, a.2), prev.1 && a.0);
      assert prev.1 && a.0;
      AddAllCount(r, prefix, n, maxStackSize, u);
      AddStep(prev.0, last.itemType, q, maxStackSize, u);
      if last.itemType == u {
        assert Need(ings, u, n) == Need(prefix, u, n) + q;
      } else {
        assert Need(ings, u, n) == Need(prefix, u, n);
      }
    }
  }

  /** With distinct ingredient items, the need for an item is that of its one ingredient, or nothing. */
  lemma {:induction false} NeedOfDistinct(ings: seq<RecipeIngredient>, u: ItemType, n: nat)
    requires DistinctTypes(ings)
    ensures Need(ings, u, n) == 0 || exists i :: 0 <= i < |ings| && ings[i].itemType == u && Need(ings, u, n) == Amount(ings[i], n)
    decreases |ings|
  {
    if |ings| > 0 {
      var prefix, last := ings[..|ings| - 1], ings[|ings| - 1];
      NeedOfDistinct(prefix, u, n);
      if last.itemType == u {
        NeedAbsent(prefix, u, n);
      }
    }
  }

  lemma {:induction false} NeedAbsent(ings: seq<RecipeIngredient>, u: ItemType, n: nat)
    requires forall i :: 0 <= i < |ings| ==> ings[i].itemType != u
    ensures Need(ings, u, n) == 0
    decreases |ings|
  {
    if |ings| > 0 {
      NeedAbsent(ings[..|ings| - 1], u, n);
    }
  }

  /** A recipe with no shortfall and distinct ingredient items has, of every item, at least the need. */
  lemma EnoughOfEverything(r: Rows, ings: seq<RecipeIngredient>, n: nat, u: ItemType)
    requires DistinctTypes(ings) && |Shortfalls(r, ings, n)| == 0
    ensures Need(ings, u, n) <= Total(r, u)
  {
    NeedOfDistinct(ings, u, n);
  }

  /**
   * A successful craft of a recipe with distinct ingredient items consumes exactly quantity * n of
   * each ingredient and adds output quantity * n of the output item; no other count changes.
   */
  lemma CraftedCounts(r: Rows, recipe: CraftingRecipe, ev: CraftItemEvent, maxStackSize: nat, u: ItemType)
    requires DistinctTypes(recipe.ingredients)
    ensures var (r', outcome) := CraftSpec(r, Some(recipe), ev, maxStackSize);
      outcome.Crafted? ==>
        Need(recipe.ingredients, u, ev.quantity) <= Total(r, u) &&
        Total(r', u) == Total(r, u) - Need(recipe.ingredients, u, ev.quantity)
          + (if u == recipe.output.itemType then recipe.output.quantity * ev.quantity else 0)
  {
    var n := ev.quantity;
    if |Shortfalls(r, recipe.ingredients, n)| == 0 {
      EnoughOfEverything(r, recipe.ingredients, n, u);
      RemoveAllCount(r, recipe.ingredients, n, u);
      var removed := RemoveAll(r, recipe.ingredients, n);
      AddItemCount(removed.hotbar, removed.main, recipe.output.itemType, recipe.output.quantity * n, maxStackSize, true, u);
    }
  }

  /** When the output does not fit and every refund succeeds, every item's count is back where it started. */
  lemma RefundRestores(r: Rows, recipe: CraftingRecipe, ev: CraftItemEvent, maxStackSize: nat, u: ItemType)
    requires DistinctTypes(recipe.ingredients)
    requires AddAll(RemoveAll(r, recipe.ingredients, ev.quantity), recipe.ingredients, ev.quantity, maxStackSize).1
    ensures var (r', outcome) := CraftSpec(r, Some(recipe), ev, maxStackSize);
      outcome == Failed(CraftingFailEvent(recipe.id, InventoryFull)) ==> Total(r', u) == Total(r, u)
  {
    var n := ev.quantity;
    if |Shortfalls(r, recipe.ingredients, n)| == 0 {
      EnoughOfEverything(r, recipe.ingredients, n, u);
      RemoveAllCount(r, recipe.ingredients, n, u);
      AddAllCount(RemoveAll(r, recipe.ingredients, n), recipe.ingredients, n, maxStackSize, u);
    }
  }

  /** The availability pass: each ingredient's total count against quantity * n, before anything is removed. */
  method FindShortfalls(inventory: Inventory, ings: seq<RecipeIngredient>, n: nat) returns (missing: seq<Shortfall>)
    ensures missing == Shortfalls(Rows(inventory.hotbarSlots, inventory.slots), ings, n)
  {
    ghost var r0 := Rows(inventory.hotbarSlots, inventory.slots);
    missing := [];
    for i := 0 to |ings|
      invariant missing == Shortfalls(r0, ings[..i], n)
    {
      assert ings[..i + 1][..i] == ings[..i];
      var available := inventory.GetItemCount(ings[i].itemType);
      var required := Amount(ings[i], n);
      if available < required {
        missing := missing + [Shortfall(ings[i].itemType, required, available)];
      }
    }
    assert ings[..|ings|] == ings;
  }

  /** Removes quantity * n of each ingredient in turn. */
  method RemoveIngredients(inventory: Inventory, ings: seq<RecipeIngredient>, n: nat)
    requires inventory.Valid()
    modifies inventory`hotbarSlots, inventory`slots
    ensures inventory.Valid()
    ensures Rows(inventory.hotbarSlots, inventory.slots) == RemoveAll(old(Rows(inventory.hotbarSlots, inventory.slots)), ings, n)
  {
    ghost var r0 := Rows(inventory.hotbarSlots, inventory.slots);
    for i := 0 to |ings|
      invariant inventory.Valid() && Rows(inventory.hotbarSlots, inventory.slots) == RemoveAll(r0, ings[..i], n)
    {
      assert ings[..i + 1][..i] == ings[..i];
      var _ := inventory.RemoveItem(ings[i].itemType, Amount(ings[i], n));
    }
    assert ings[..|ings|] == ings;
  }

  /** Adds quantity * n of each ingredient back in turn, ignoring whether each add succeeds. */
  method RefundIngredients(inventory: Inventory, ings: seq<RecipeIngredient>, n: nat)
    requires inventory.Valid()
    modifies inventory`hotbarSlots, inventory`slots
    ensures inventory.Valid()
    ensures Rows(inventory.hotbarSlots, inventory.slots)
      == AddAll(old(Rows(inventory.hotbarSlots, inventory.slots)), ings, n, inventory.maxStackSize).0
  {
    ghost var r0 := Rows(inventory.hotbarSlots, inventory.slots);
    for i := 0 to |ings|
      invariant inventory.Valid() && Rows(inventory.hotbarSlots, inventory.slots) == AddAll(r0, ings[..i], n, inventory.maxStackSize).0
    {
      assert ings[..i + 1][..i] == ings[..i];
      var _ := inventory.AddItem(ings[i].itemType, Amount(ings[i], n));
    }
    assert ings[..|ings|] == ings;
  }

  /** Handles one crafting request against the inventory, as CraftSpec describes. */
  method Craft(book: RecipeBook, inventory: Inventory, ev: CraftItemEvent) returns (outcome: CraftOutcome)
    requires inventory.Valid()
    modifies inventory`hotbarSlots, inventory`slots
    ensures inventory.Valid()
    ensures (Rows(inventory.hotbarSlots, inventory.slots), outcome)
      == CraftSpec(old(Rows(inventory.hotbarSlots, inventory.slots)), book.GetRecipe(ev.recipeId), ev, inventory.maxStackSize)
  {
    var recipe := book.GetRecipe(ev.recipeId);
    if recipe.None? {
      return Failed(CraftingFailEvent(ev.recipeId, RecipeNotFound));
    }
    var rc := recipe.value;
    var n := ev.quantity;
    var missing := FindShortfalls(inventory, rc.ingredients, n);
    var allAvailable := |missing| == 0;
    if allAvailable {
      RemoveIngredients(inventory, rc.ingredients, n);
      var outputQuantity := rc.output.quantity * n;
      var added := inventory.AddItem(rc.output.itemType, outputQuantity);
      if added {
        outcome := Crafted(CraftingSuccessEvent(rc.id, rc.name, rc.output.itemType, outputQuantity));
      } else {
        outcome := Failed(CraftingFailEvent(rc.id, InventoryFull));
        RefundIngredients(inventory, rc.ingredients, n);
      }
    } else {
      outcome := Failed(CraftingFailEvent(rc.id, MissingIngredients(missing)));
    }
  }

  /** Every request in turn, from the rows `r`: the final rows and the outcome of each request. */
  function CraftAll(r: Rows, recipes: seq<CraftingRecipe>, events: seq<CraftItemEvent>, maxStackSize: nat): (res: (Rows, seq<CraftOutcome>))
    ensures |res.1| == |events|
  {
    if |events| == 0 then (r, [])
    else
      var prev := CraftAll(r, recipes, events[..|events| - 1], maxStackSize);
      var ev := events[|events| - 1];
      var step := CraftSpec(prev.0, LookupRecipe(recipes, ev.recipeId), ev, maxStackSize);
      (step.0, prev.1 + [step.1])
  }

  function Successes(os: seq<CraftOutcome>): (r: seq<CraftingSuccessEvent>)
    ensures |r| <= |os|
  {
    if |os| == 0 then []
    else Successes(os[..|os| - 1]) + (if os[|os| - 1].Crafted? then [os[|os| - 1].success] else [])
  }

  function Failures(os: seq<CraftOutcome>): (r: seq<CraftingFailEvent>)
    ensures |r| + |Successes(os)| == |os|
  {
    if |os| == 0 then []
    else Failures(os[..|os| - 1]) + (if os[|os| - 1].Failed? then [os[|os| - 1].fail] else [])
  }

  /** Handling one more request extends the run by that request's CraftSpec step. */
  lemma CraftAllStep(r: Rows, recipes: seq<CraftingRecipe>, events: seq<CraftItemEvent>, i: nat, maxStackSize: nat)
    requires i < |events|
    ensures var prev := CraftAll(r, recipes, events[..i], maxStackSize);
      var step := CraftSpec(prev.0, LookupRecipe(recipes, events[i].recipeId), events[i], maxStackSize);
      CraftAll(r, recipes, events[..i + 1], maxStackSize) == (step.0, prev.1 + [step.1])
  {
    assert events[..i + 1][..i] == events[..i];
  }

  /** One more outcome adds its event to exactly one of the two lists. */
  lemma OutcomesStep(os: seq<CraftOutcome>, o: CraftOutcome)
    ensures Successes(os + [o]) == Successes(os) + (if o.Crafted? then [o.success] else [])
    ensures Failures(os + [o]) == Failures(os) + (if o.Failed? then [o.fail] else [])
  {
    assert (os + [o])[..|os|] == os;
  }

  /** Handles the requests in order; each sends exactly one success or one failure event. */
  method HandleCraftingRequests(book: RecipeBook, inventory: Inventory, events: seq<CraftItemEvent>)
    returns (successes: seq<CraftingSuccessEvent>, failures: seq<CraftingFailEvent>)
    requires inventory.Valid()
    modifies inventory`hotbarSlots, inventory`slots
    ensures inventory.Valid()
    ensures var (r', outcomes) := CraftAll(old(Rows(inventory.hotbarSlots, inventory.slots)), book.recipes, events, inventory.maxStackSize);
      Rows(inventory.hotbarSlots, inventory.slots) == r' && successes == Successes(outcomes) && failures == Failures(outcomes)
    ensures |successes| + |failures| == |events|
  {
    ghost var r0 := Rows(inventory.hotbarSlots, inventory.slots);
    ghost var outcomes: seq<CraftOutcome> := [];
    successes, failures := [], [];
    for i := 0 to |events|
      invariant inventory.Valid()
      invariant (Rows(inventory.hotbarSlots, inventory.slots), outcomes) == CraftAll(r0, book.recipes, events[..i], inventory.maxStackSize)
      invariant successes == Successes(outcomes) && failures == Failures(outcomes)
    {
      CraftAllStep(r0, book.recipes, events, i, inventory.maxStackSize);
      var o := Craft(book, inventory, events[i]);
      OutcomesStep(outcomes, o);
      outcomes := outcomes + [o];
      if o.Crafted? {
        successes := successes + [o.success];
      } else {
        failures := failures + [o.fail];
      }
    }
    assert events[..|events|] == events;
  }
}
