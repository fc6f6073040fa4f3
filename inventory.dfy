/** The inventory screen: the crafting grid with its shaped-recipe matcher,
    the stack held on the cursor, and what clicking a slot, a creative item
    or the output slot does to them. Each handler is one synchronous step;
    `onAddItem` calls are returned as the list of stacks handed back. */
module InventoryModal {
  import opened Common
  import opened Blocks
  import opened Stacks
  import opened Recipes

  /** A cell of the matcher's grids: `null`, an item id, or `undefined` (read
      past the end of the recipe's grid). */
  datatype Cell = Null | Id(id: int) | Undefined

  /** `gridSize`: 9 slots at a crafting table, 4 in the player's own grid. */
  function GridSize(tableMode: bool): (n: nat)
    ensures n == Side(tableMode) * Side(tableMode)
  {
    if tableMode then 9 else 4
  }

  /** `currentGridSize`: the side of the square grid. */
  function Side(tableMode: bool): nat
  {
    if tableMode then 3 else 2
  }

  /** The matcher's view of a slot: its id, or `null` when it is empty. */
  function CellOf(s: ItemStack): (c: Cell)
    ensures c != Undefined
    ensures c == Null <==> s.id == AIR
  {
    if s.id != AIR then Id(s.id) else Null
  }

  /** `gridShape`: the grid's ids; counts play no part in matching. */
  function ShapeOf(grid: seq<ItemStack>): (shape: seq<Cell>)
    ensures |shape| == |grid|
    ensures forall i :: 0 <= i < |grid| ==> shape[i] == CellOf(grid[i])
  {
    seq(|grid|, i requires 0 <= i < |grid| => CellOf(grid[i]))
  }

  /** Counts play no part in crafting: grids holding the same ids slot by
      slot offer the same output, whatever their counts. */
  lemma CountsIgnored(a: seq<ItemStack>, b: seq<ItemStack>, tableMode: bool)
    requires |a| == |b| && forall i :: 0 <= i < |a| ==> a[i].id == b[i].id
    ensures ShapeOf(a) == ShapeOf(b)
    ensures Crafted(ShapeOf(a), tableMode, 0) == Crafted(ShapeOf(b), tableMode, 0)
  {
    assert forall i :: 0 <= i < |a| ==> ShapeOf(a)[i] == ShapeOf(b)[i];
  }

  /** What the recipe puts at row `row`, column `col` of the grid when its top
      left corner sits at (ox, oy): the ingredient under a non-blank shape
      character, and `null` under a blank or outside the shape. */
  function Placed(r: Recipe, ox: int, oy: int, row: int, col: int): Cell
    requires WellFormed(r)
  {
    if oy <= row < oy + Height(r) && ox <= col < ox + Width(r) then
      var ch := r.shape[row - oy][col - ox];
      if ch == ' ' then Null else Id(r.ingredients[ch])
    else Null
  }

  /** `tempGrid[i]`, the recipe drawn into an n×n grid at (ox, oy); reading
      past the grid's n·n cells gives `undefined`. */
  function Template(r: Recipe, n: nat, ox: int, oy: int, i: int): Cell
    requires WellFormed(r) && n > 0
  {
    if 0 <= i < n * n then Placed(r, ox, oy, i / n, i % n) else Undefined
  }

  /** The recipe matches the grid at (ox, oy): every cell of the grid's shape
      equals the recipe drawn there. */
  predicate MatchesAt(shape: seq<Cell>, r: Recipe, n: nat, ox: int, oy: int)
    requires WellFormed(r) && n > 0
  {
    forall i :: 0 <= i < |shape| ==> shape[i] == Template(r, n, ox, oy, i)
  }

  /** The offsets the matcher tries: the shape's top left corner anywhere the
      whole shape stays inside the n×n grid. */
  predicate Offset(r: Recipe, n: nat, ox: int, oy: int)
    requires WellFormed(r)
  {
    0 <= oy <= n - Height(r) && 0 <= ox <= n - Width(r)
  }

  /** The recipe matches the grid at some offset. */
  ghost predicate MatchesSomewhere(shape: seq<Cell>, r: Recipe, n: nat)
    requires WellFormed(r) && n > 0
  {
    exists oy, ox :: Offset(r, n, ox, oy) && MatchesAt(shape, r, n, ox, oy)
  }

  /** The recipes a grid mode considers: the shape test agrees with the mode
      (the recipe's own `requiresTable` flag is not read), and the shape fits. */
  predicate Considered(r: Recipe, tableMode: bool)
    requires WellFormed(r)
  {
    NeedsTable(r) == tableMode && Height(r) <= Side(tableMode) && Width(r) <= Side(tableMode)
  }

  /** A recipe's output slot. */
  function Output(r: Recipe): ItemStack
  {
    ItemStack(r.outputId, r.outputCount)
  }

  /** Recipe `k` of the table applies to the grid: the mode considers it and
      it matches at some offset. */
  ghost predicate Applies(shape: seq<Cell>, tableMode: bool, k: int)
  {
    && 0 <= k < |CRAFTING_RECIPES|
    && WellFormed(CRAFTING_RECIPES[k])
    && Considered(CRAFTING_RECIPES[k], tableMode)
    && MatchesSomewhere(shape, CRAFTING_RECIPES[k], Side(tableMode))
  }

  /** The output of the first recipe, from index `k` on, that applies to the
      grid; `null` when none does. */
  ghost function Crafted(shape: seq<Cell>, tableMode: bool, k: nat): Option<ItemStack>
    decreases |CRAFTING_RECIPES| - k
  {
    if k >= |CRAFTING_RECIPES| then None
    else if Applies(shape, tableMode, k) then Some(Output(CRAFTING_RECIPES[k]))
    else Crafted(shape, tableMode, k + 1)
  }

  /** A grid position's row and column, and back. */
  lemma GridIndex(n: nat, row: int, col: int)
    requires n == 2 || n == 3
    requires 0 <= row < n && 0 <= col < n
    ensures 0 <= row * n + col < n * n
    ensures (row * n + col) / n == row && (row * n + col) % n == col
  {
  }

  /** The cells of `tempGrid` drawn once the shape's rows before `ry` are in. */
  ghost predicate DrawnRows(temp: seq<Cell>, r: Recipe, n: nat, ox: int, oy: int, ry: int)
    requires WellFormed(r) && n > 0 && |temp| == n * n
  {
    forall i :: 0 <= i < n * n ==> temp[i] == if i / n < oy + ry then Template(r, n, ox, oy, i) else Null
  }

  /** Draws row `ry` of the shape into `tempGrid`. */
  method DrawRow(temp: array<Cell>, r: Recipe, n: nat, ox: int, oy: int, ry: int)
    requires WellFormed(r) && (n == 2 || n == 3) && Offset(r, n, ox, oy) && 0 <= ry < Height(r)
    requires temp.Length == n * n && DrawnRows(temp[..], r, n, ox, oy, ry)
    modifies temp
    ensures DrawnRows(temp[..], r, n, ox, oy, ry + 1)
  {
    for rx := 0 to Width(r)
      invariant forall i :: 0 <= i < n * n ==>
                  temp[i] == if i / n < oy + ry || (i / n == oy + ry && i % n < ox + rx)
                             then Template(r, n, ox, oy, i) else Null
    {
      var ch := r.shape[ry][rx];
      GridIndex(n, oy + ry, ox + rx);
      if ch != ' ' {
        temp[(oy + ry) * n + (ox + rx)] := Id(r.ingredients[ch]);
      }
    }
  }

  /** Draws the recipe into a fresh `tempGrid` at (ox, oy), row by row. */
  method DrawRecipe(r: Recipe, n: nat, ox: int, oy: int) returns (temp: array<Cell>)
    requires WellFormed(r) && (n == 2 || n == 3) && Offset(r, n, ox, oy)
    ensures fresh(temp) && temp.Length == n * n
    ensures forall i :: 0 <= i < n * n ==> temp[i] == Template(r, n, ox, oy, i)
  {
    temp := new Cell[n * n](_ => Null);
    for ry := 0 to Height(r)
      invariant DrawnRows(temp[..], r, n, ox, oy, ry)
    {
      DrawRow(temp, r, n, ox, oy, ry);
    }
  }

  /** One offset of the matcher: draw the recipe there and compare it with the
      grid's shape cell by cell, stopping at the first difference. */
  method MatchAt(shape: seq<Cell>, r: Recipe, n: nat, ox: int, oy: int) returns (matched: bool)
    requires WellFormed(r) && (n == 2 || n == 3) && Offset(r, n, ox, oy)
    ensures matched == MatchesAt(shape, r, n, ox, oy)
  {
    var temp := DrawRecipe(r, n, ox, oy);
    matched := true;
    for i := 0 to |shape|
      invariant forall j :: 0 <= j < i ==> shape[j] == Template(r, n, ox, oy, j)
    {
      var cell := if i < temp.Length then temp[i] else Undefined;
      if shape[i] != cell {
        matched := false;
        break;
      }
    }
  }

  /** Tries every offset, rows of offsets first, and reports whether one matched. */
  method MatchAnywhere(shape: seq<Cell>, r: Recipe, n: nat) returns (found: bool)
    requires WellFormed(r) && (n == 2 || n == 3) && Height(r) <= n && Width(r) <= n
    ensures found == MatchesSomewhere(shape, r, n)
  {
    for oy := 0 to n - Height(r) + 1
      invariant forall y, x :: 0 <= y < oy && Offset(r, n, x, y) ==> !MatchesAt(shape, r, n, x, y)
    {
      for ox := 0 to n - Width(r) + 1
        invariant forall y, x :: (0 <= y < oy || (y == oy && x < ox)) && Offset(r, n, x, y)
                    ==> !MatchesAt(shape, r, n, x, y)
      {
        var m := MatchAt(shape, r, n, ox, oy);
        if m {
          return true;
        }
      }
    }
    return false;
  }

  /** `checkRecipe`: the output slot for the grid, the first recipe in table
      order that the mode considers and that matches at some offset. */
  method CheckRecipe(grid: seq<ItemStack>, tableMode: bool) returns (output: Option<ItemStack>)
    ensures output == Crafted(ShapeOf(grid), tableMode, 0)
  {
    var shape := ShapeOf(grid);
    var n := Side(tableMode);
    TableWellFormed();
    for k := 0 to |CRAFTING_RECIPES|
      invariant Crafted(shape, tableMode, 0) == Crafted(shape, tableMode, k)
    {
      var r := CRAFTING_RECIPES[k];
      if NeedsTable(r) == tableMode && Height(r) <= n && Width(r) <= n {
        var found := MatchAnywhere(shape, r, n);
        if found {
          return Some(Output(r));
        }
      }
    }
    return None;
  }

  // ---- At most one recipe matches a grid of the mode's size.

  /** What a grid's shape shows: which of three ingredients appear, whether
      some cell is empty, and whether the left column of a 3×3 grid is used. */
  datatype Probe = Probe(wood: bool, cobble: bool, stick: bool, gap: bool, left: bool)

  function Probes(shape: seq<Cell>): Probe
  {
    Probe(Id(WOOD) in shape, Id(COBBLESTONE) in shape, Id(STICK) in shape, Null in shape,
          |shape| == 9 && (shape[0] != Null || shape[3] != Null || shape[6] != Null))
  }

  /** The probes of each recipe, wherever it is drawn in its own grid. */
  const RECIPE_PROBES: seq<Probe> := [
    Probe(true, false, false, true, false),
    Probe(false, false, false, true, false),
    Probe(false, false, false, false, false),
    Probe(false, false, true, true, false),
    Probe(false, false, true, true, false),
    Probe(false, false, true, true, true),
    Probe(false, true, false, true, true),
    Probe(false, false, false, true, true),
    Probe(false, true, false, true, false)
  ]

  /** A matched grid holds at row `row`, column `col` what the recipe draws there. */
  lemma CellAt(shape: seq<Cell>, r: Recipe, n: nat, ox: int, oy: int, row: int, col: int)
    requires WellFormed(r) && (n == 2 || n == 3) && |shape| == n * n
    requires MatchesAt(shape, r, n, ox, oy)
    requires 0 <= row < n && 0 <= col < n
    ensures shape[row * n + col] == Placed(r, ox, oy, row, col)
  {
    GridIndex(n, row, col);
  }

  /** A matched grid holds nothing but empty cells and the recipe's ingredients. */
  lemma CellsFromLegend(shape: seq<Cell>, r: Recipe, n: nat, ox: int, oy: int)
    requires WellFormed(r) && n > 0 && |shape| == n * n
    requires MatchesAt(shape, r, n, ox, oy)
    ensures forall c :: c in shape ==> c == Null || (c.Id? && c.id in r.ingredients.Values)
  {
    forall c | c in shape
      ensures c == Null || (c.Id? && c.id in r.ingredients.Values)
    {
      var i :| 0 <= i < |shape| && shape[i] == c;
      assert c == Template(r, n, ox, oy, i);
    }
  }

  /** The 1×1 recipes, planks and stone. */
  lemma OneCellProbes(shape: seq<Cell>, tableMode: bool, k: int, ox: int, oy: int)
    requires IngredientIdsDistinct()
    requires (k == 0 || k == 8) && |shape| == GridSize(tableMode)
    requires WellFormed(CRAFTING_RECIPES[k]) && Considered(CRAFTING_RECIPES[k], tableMode)
    requires Offset(CRAFTING_RECIPES[k], Side(tableMode), ox, oy)
    requires MatchesAt(shape, CRAFTING_RECIPES[k], Side(tableMode), ox, oy)
    ensures Probes(shape) == RECIPE_PROBES[k]
  {
    var r, n := CRAFTING_RECIPES[k], Side(tableMode);
    CellsFromLegend(shape, r, n, ox, oy);
    CellAt(shape, r, n, ox, oy, oy, ox);
    CellAt(shape, r, n, ox, oy, oy, 1 - ox);
  }

  /** The 1×2 recipes, sticks and the torch. */
  lemma ColumnProbes(shape: seq<Cell>, tableMode: bool, k: int, ox: int, oy: int)
    requires IngredientIdsDistinct()
    requires (k == 1 || k == 3) && |shape| == GridSize(tableMode)
    requires WellFormed(CRAFTING_RECIPES[k]) && Considered(CRAFTING_RECIPES[k], tableMode)
    requires Offset(CRAFTING_RECIPES[k], Side(tableMode), ox, oy)
    requires MatchesAt(shape, CRAFTING_RECIPES[k], Side(tableMode), ox, oy)
    ensures Probes(shape) == RECIPE_PROBES[k]
  {
    var r, n := CRAFTING_RECIPES[k], Side(tableMode);
    CellsFromLegend(shape, r, n, ox, oy);
    CellAt(shape, r, n, ox, oy, 1, ox);
    CellAt(shape, r, n, ox, oy, 0, 1 - ox);
  }

  /** The 2×2 crafting table. */
  lemma SquareProbes(shape: seq<Cell>, tableMode: bool, k: int, ox: int, oy: int)
    requires IngredientIdsDistinct()
    requires k == 2 && |shape| == GridSize(tableMode)
    requires WellFormed(CRAFTING_RECIPES[k]) && Considered(CRAFTING_RECIPES[k], tableMode)
    requires Offset(CRAFTING_RECIPES[k], Side(tableMode), ox, oy)
    requires MatchesAt(shape, CRAFTING_RECIPES[k], Side(tableMode), ox, oy)
    ensures Probes(shape) == RECIPE_PROBES[k]
  {
    var r, n := CRAFTING_RECIPES[k], Side(tableMode);
    CellsFromLegend(shape, r, n, ox, oy);
    CellAt(shape, r, n, ox, oy, 0, 0);
    CellAt(shape, r, n, ox, oy, 0, 1);
    CellAt(shape, r, n, ox, oy, 1, 0);
    CellAt(shape, r, n, ox, oy, 1, 1);
  }

  /** The sword. */
  lemma SwordProbes(shape: seq<Cell>, tableMode: bool, k: int, ox: int, oy: int)
    requires IngredientIdsDistinct()
    requires k == 4 && |shape| == GridSize(tableMode)
    requires WellFormed(CRAFTING_RECIPES[k]) && Considered(CRAFTING_RECIPES[k], tableMode)
    requires Offset(CRAFTING_RECIPES[k], Side(tableMode), ox, oy)
    requires MatchesAt(shape, CRAFTING_RECIPES[k], Side(tableMode), ox, oy)
    ensures Probes(shape) == RECIPE_PROBES[k]
  {
    var r, n := CRAFTING_RECIPES[k], Side(tableMode);
    CellsFromLegend(shape, r, n, ox, oy);
    CellAt(shape, r, n, ox, oy, 2, 1);
    CellAt(shape, r, n, ox, oy, 0, 0);
    CellAt(shape, r, n, ox, oy, 1, 0);
    CellAt(shape, r, n, ox, oy, 2, 0);
  }

  /** The fence. */
  lemma FenceProbes(shape: seq<Cell>, tableMode: bool, k: int, ox: int, oy: int)
    requires IngredientIdsDistinct()
    requires k == 5 && |shape| == GridSize(tableMode)
    requires WellFormed(CRAFTING_RECIPES[k]) && Considered(CRAFTING_RECIPES[k], tableMode)
    requires Offset(CRAFTING_RECIPES[k], Side(tableMode), ox, oy)
    requires MatchesAt(shape, CRAFTING_RECIPES[k], Side(tableMode), ox, oy)
    ensures Probes(shape) == RECIPE_PROBES[k]
  {
    var r, n := CRAFTING_RECIPES[k], Side(tableMode);
    CellsFromLegend(shape, r, n, ox, oy);
    CellAt(shape, r, n, ox, oy, oy, 1);
    CellAt(shape, r, n, ox, oy, oy, 0);
    CellAt(shape, r, n, ox, oy, 2 - 2 * oy, 0);
  }

  /** The two stairs. */
  lemma StairProbes(shape: seq<Cell>, tableMode: bool, k: int, ox: int, oy: int)
    requires IngredientIdsDistinct()
    requires (k == 6 || k == 7) && |shape| == GridSize(tableMode)
    requires WellFormed(CRAFTING_RECIPES[k]) && Considered(CRAFTING_RECIPES[k], tableMode)
    requires Offset(CRAFTING_RECIPES[k], Side(tableMode), ox, oy)
    requires MatchesAt(shape, CRAFTING_RECIPES[k], Side(tableMode), ox, oy)
    ensures Probes(shape) == RECIPE_PROBES[k]
  {
    var r, n := CRAFTING_RECIPES[k], Side(tableMode);
    CellsFromLegend(shape, r, n, ox, oy);
    CellAt(shape, r, n, ox, oy, 0, 0);
    CellAt(shape, r, n, ox, oy, 0, 1);
  }

  /** Wherever recipe `k` matches a grid of its mode's size, the grid shows
      that recipe's probes. */
  lemma MatchProbes(shape: seq<Cell>, tableMode: bool, k: int, ox: int, oy: int)
    requires IngredientIdsDistinct()
    requires 0 <= k < |CRAFTING_RECIPES| && |shape| == GridSize(tableMode)
    requires WellFormed(CRAFTING_RECIPES[k]) && Considered(CRAFTING_RECIPES[k], tableMode)
    requires Offset(CRAFTING_RECIPES[k], Side(tableMode), ox, oy)
    requires MatchesAt(shape, CRAFTING_RECIPES[k], Side(tableMode), ox, oy)
    ensures Probes(shape) == RECIPE_PROBES[k]
  {
    if k == 0 || k == 8 {
      OneCellProbes(shape, tableMode, k, ox, oy);
    } else if k == 1 || k == 3 {
      ColumnProbes(shape, tableMode, k, ox, oy);
    } else if k == 2 {
      SquareProbes(shape, tableMode, k, ox, oy);
    } else if k == 4 {
      SwordProbes(shape, tableMode, k, ox, oy);
    } else if k == 5 {
      FenceProbes(shape, tableMode, k, ox, oy);
    } else {
      StairProbes(shape, tableMode, k, ox, oy);
    }
  }

  /** Two recipes never both apply to a grid of the mode's size. */
  lemma AtMostOneRecipe(shape: seq<Cell>, tableMode: bool, j: int, k: int)
    requires IngredientIdsDistinct() && |shape| == GridSize(tableMode)
    requires Applies(shape, tableMode, j) && Applies(shape, tableMode, k)
    ensures j == k
  {
    var n := Side(tableMode);
    var yj, xj :| Offset(CRAFTING_RECIPES[j], n, xj, yj) && MatchesAt(shape, CRAFTING_RECIPES[j], n, xj, yj);
    var yk, xk :| Offset(CRAFTING_RECIPES[k], n, xk, yk) && MatchesAt(shape, CRAFTING_RECIPES[k], n, xk, yk);
    MatchProbes(shape, tableMode, j, xj, yj);
    MatchProbes(shape, tableMode, k, xk, yk);
    ProbesApart(tableMode, j, k);
  }

  /** The recipes a mode considers show different probes. */
  lemma ProbesApart(tableMode: bool, j: int, k: int)
    requires 0 <= j < |CRAFTING_RECIPES| && WellFormed(CRAFTING_RECIPES[j]) && Considered(CRAFTING_RECIPES[j], tableMode)
    requires 0 <= k < |CRAFTING_RECIPES| && WellFormed(CRAFTING_RECIPES[k]) && Considered(CRAFTING_RECIPES[k], tableMode)
    requires RECIPE_PROBES[j] == RECIPE_PROBES[k]
    ensures j == k
  {
  }

  /** From index `j` on, crafting finds nothing exactly when no recipe from
      `j` on applies, and what it finds is the output of one that does. */
  lemma {:induction false} CraftedFrom(shape: seq<Cell>, tableMode: bool, j: nat)
    ensures Crafted(shape, tableMode, j).None? <==>
              forall k :: j <= k < |CRAFTING_RECIPES| ==> !Applies(shape, tableMode, k)
    ensures Crafted(shape, tableMode, j).Some? ==>
              exists k :: j <= k < |CRAFTING_RECIPES| && Applies(shape, tableMode, k)
                && Crafted(shape, tableMode, j).value == Output(CRAFTING_RECIPES[k])
    decreases |CRAFTING_RECIPES| - j
  {
    if j < |CRAFTING_RECIPES| && !Applies(shape, tableMode, j) {
      CraftedFrom(shape, tableMode, j + 1);
    }
  }

  /** The output slot is empty exactly when no recipe applies, and otherwise
      holds the output of a recipe that does. */
  lemma CraftedMeaning(shape: seq<Cell>, tableMode: bool)
    ensures Crafted(shape, tableMode, 0).None? <==>
              forall k :: 0 <= k < |CRAFTING_RECIPES| ==> !Applies(shape, tableMode, k)
    ensures Crafted(shape, tableMode, 0).Some? ==>
              exists k :: 0 <= k < |CRAFTING_RECIPES| && Applies(shape, tableMode, k)
                && Crafted(shape, tableMode, 0).value == Output(CRAFTING_RECIPES[k])
  {
    CraftedFrom(shape, tableMode, 0);
  }

  /** Crafting skips every recipe before `k` when recipe `k` applies. */
  lemma {:induction false} CraftedReaches(shape: seq<Cell>, tableMode: bool, j: nat, k: int)
    requires IngredientIdsDistinct() && |shape| == GridSize(tableMode)
    requires j <= k && Applies(shape, tableMode, k)
    ensures Crafted(shape, tableMode, j) == Some(Output(CRAFTING_RECIPES[k]))
    decreases k - j
  {
    if j < k {
      if Applies(shape, tableMode, j) {
        AtMostOneRecipe(shape, tableMode, j, k);
      }
      CraftedReaches(shape, tableMode, j + 1, k);
    }
  }

  /** A recipe drawn at any offset of a grid of its mode's size crafts that
      recipe's output, whatever the stack counts: matching is invariant under
      translation, and list order never matters. */
  lemma CraftsDrawnRecipe(grid: seq<ItemStack>, tableMode: bool, k: int, ox: int, oy: int)
    requires IngredientIdsDistinct() && |grid| == GridSize(tableMode)
    requires 0 <= k < |CRAFTING_RECIPES| && WellFormed(CRAFTING_RECIPES[k])
    requires Considered(CRAFTING_RECIPES[k], tableMode)
    requires Offset(CRAFTING_RECIPES[k], Side(tableMode), ox, oy)
    requires MatchesAt(ShapeOf(grid), CRAFTING_RECIPES[k], Side(tableMode), ox, oy)
    ensures Crafted(ShapeOf(grid), tableMode, 0) == Some(Output(CRAFTING_RECIPES[k]))
  {
    CraftedReaches(ShapeOf(grid), tableMode, 0, k);
  }

  // ---- The held stack, the slots, and the output slot.

  /** The held stack after one unit leaves it: `null` once it is used up. */
  function Remaining(h: ItemStack): Option<ItemStack>
  {
    if h.count - 1 > 0 then Some(ItemStack(h.id, h.count - 1)) else None
  }

  /** What a click leaves: the held stack and the clicked slot. */
  datatype Click = Click(held: Option<ItemStack>, slot: ItemStack)

  /** `handleSlotClick` on one slot. Holding a stack, a click puts one unit
      into an empty slot, adds one unit to a slot of the same item below its
      limit, leaves a full one alone, and swaps with any other. With empty
      hands it picks up the whole slot, and does nothing on an empty one. */
  function SlotClick(held: Option<ItemStack>, clicked: ItemStack): Click
  {
    if held.Some? then
      var h := held.value;
      if clicked.id == AIR then Click(Remaining(h), ItemStack(h.id, 1))
      else if clicked.id == h.id then
        if clicked.count < MaxStack(clicked.id) then Click(Remaining(h), ItemStack(clicked.id, clicked.count + 1))
        else Click(held, clicked)
      else Click(Some(clicked), h)
    else if clicked.id != AIR then Click(Some(clicked), EMPTY)
    else Click(None, clicked)
  }

  /** A slot click conserves every item between the hand and the slot, and
      keeps both well formed: a used-up held stack becomes `null`. */
  lemma SlotClickConserves(held: Option<ItemStack>, clicked: ItemStack)
    requires ValidHeld(held) && ValidSlot(clicked)
    ensures var c := SlotClick(held, clicked);
      && ValidHeld(c.held) && ValidSlot(c.slot)
      && forall id :: HeldAmount(id, c.held) + Amount(id, c.slot) == HeldAmount(id, held) + Amount(id, clicked)
  {
  }

  /** Which row of slots a click lands in. */
  datatype Location = Hotbar | Grid

  /** `handleSlotClick`: the crafting grid, the hotbar and the held stack after
      a click on slot `index` of one of the two rows. */
  function ClickSlot(grid: seq<ItemStack>, hotbar: seq<ItemStack>, held: Option<ItemStack>,
                     index: int, at: Location): (r: (seq<ItemStack>, seq<ItemStack>, Option<ItemStack>))
    requires 0 <= index < (if at == Grid then |grid| else |hotbar|)
    ensures |r.0| == |grid| && |r.1| == |hotbar|
    ensures forall i :: 0 <= i < |grid| && (at != Grid || i != index) ==> r.0[i] == grid[i]
    ensures forall i :: 0 <= i < |hotbar| && (at == Grid || i != index) ==> r.1[i] == hotbar[i]
  {
    if at == Grid then
      var c := SlotClick(held, grid[index]);
      (grid[index := c.slot], hotbar, c.held)
    else
      var c := SlotClick(held, hotbar[index]);
      (grid, hotbar[index := c.slot], c.held)
  }

  /** A click changes only the clicked slot and the hand, and conserves every
      item across the grid, the hotbar and the hand together. */
  lemma ClickSlotConserves(grid: seq<ItemStack>, hotbar: seq<ItemStack>, held: Option<ItemStack>,
                           index: int, at: Location)
    requires 0 <= index < (if at == Grid then |grid| else |hotbar|)
    requires ValidSlots(grid) && ValidSlots(hotbar) && ValidHeld(held)
    ensures var (grid', hotbar', held') := ClickSlot(grid, hotbar, held, index, at);
      && |grid'| == |grid| && |hotbar'| == |hotbar|
      && (forall i :: 0 <= i < |grid| && (at != Grid || i != index) ==> grid'[i] == grid[i])
      && (forall i :: 0 <= i < |hotbar| && (at != Hotbar || i != index) ==> hotbar'[i] == hotbar[i])
      && ValidSlots(grid') && ValidSlots(hotbar') && ValidHeld(held')
      && forall id :: Count(id, grid') + Count(id, hotbar') + HeldAmount(id, held')
                        == Count(id, grid) + Count(id, hotbar) + HeldAmount(id, held)
  {
    var clicked := if at == Grid then grid[index] else hotbar[index];
    var c := SlotClick(held, clicked);
    SlotClickConserves(held, clicked);
    forall id
      ensures Count(id, if at == Grid then grid[index := c.slot] else grid)
                + Count(id, if at == Hotbar then hotbar[index := c.slot] else hotbar)
                + HeldAmount(id, c.held)
              == Count(id, grid) + Count(id, hotbar) + HeldAmount(id, held)
    {
      if at == Grid {
        CountUpdate(id, grid, index, c.slot);
      } else {
        CountUpdate(id, hotbar, index, c.slot);
      }
    }
  }

  /** `handleCreativeItemClick`: the hand takes a full stack of the item, and
      a stack it held before goes back to the inventory. */
  function CreativeClick(held: Option<ItemStack>, itemId: int): (r: (ItemStack, seq<ItemStack>))
    ensures r.0.id == itemId && r.0.count == MaxStack(itemId)
    ensures |r.1| <= 1 && (r.1 == [] <==> held.None?)
  {
    (ItemStack(itemId, MaxStack(itemId)), if held.Some? then [held.value] else [])
  }

  /** A creative click hands every item held before back to the inventory. */
  lemma CreativeClickReturnsHeld(held: Option<ItemStack>, itemId: int)
    ensures var (hand, returned) := CreativeClick(held, itemId);
      && hand.id == itemId && hand.count == MaxStack(itemId)
      && forall id :: Count(id, returned) == HeldAmount(id, held)
  {
    var (_, returned) := CreativeClick(held, itemId);
    if held.Some? {
      assert returned[..0] == [];
    }
  }

  /** The output can be taken: there is one, and the hand is empty or holds
      the same item with room for the whole output under its limit. */
  predicate CanTake(held: Option<ItemStack>, output: Option<ItemStack>)
  {
    && output.Some?
    && (held.None? || (held.value.id == output.value.id
                       && held.value.count + output.value.count <= MaxStack(output.value.id)))
  }

  function Consumed(grid: seq<ItemStack>): (r: seq<ItemStack>)
    ensures |r| == |grid|
  {
    if |grid| == 0 then [] else Consumed(grid[..|grid| - 1]) + [UseOne(grid[|grid| - 1])]
  }

  /** How many slots hold item `id`. */
  function Slots(id: int, grid: seq<ItemStack>): nat
  {
    if |grid| == 0 then 0
    else Slots(id, grid[..|grid| - 1]) + (if grid[|grid| - 1].id == id && id != AIR then 1 else 0)
  }

  /** Crafting takes exactly one unit from every occupied slot and keeps the
      grid well formed. */
  lemma {:induction false} ConsumedTakesOne(grid: seq<ItemStack>)
    requires ValidSlots(grid)
    ensures ValidSlots(Consumed(grid))
    ensures forall i :: 0 <= i < |grid| ==> Consumed(grid)[i] == UseOne(grid[i])
    ensures forall id :: Count(id, Consumed(grid)) == Count(id, grid) - Slots(id, grid)
  {
    if |grid| > 0 {
      var init := grid[..|grid| - 1];
      ConsumedTakesOne(init);
      var r := Consumed(grid);
      assert r[..|r| - 1] == Consumed(init);
      forall i | 0 <= i < |grid|
        ensures r[i] == UseOne(grid[i])
      {
        if i < |grid| - 1 {
          assert r[i] == Consumed(init)[i];
          assert grid[i] == init[i];
        }
      }
    }
  }

  /** `handleOutputClick`: when the output can be taken, every occupied grid
      slot gives up one unit and the hand gains the output; otherwise nothing
      changes. */
  method TakeOutput(grid: array<ItemStack>, held: Option<ItemStack>, output: Option<ItemStack>)
    returns (newHeld: Option<ItemStack>)
    modifies grid
    ensures CanTake(held, output) ==>
              && grid[..] == Consumed(old(grid[..]))
              && newHeld == Some(ItemStack(output.value.id, (if held.Some? then held.value.count else 0) + output.value.count))
    ensures !CanTake(held, output) ==> grid[..] == old(grid[..]) && newHeld == held
  {
    if !CanTake(held, output) {
      return held;
    }
    ghost var before := grid[..];
    for i := 0 to grid.Length
      invariant grid[..i] == Consumed(before[..i])
      invariant grid[i..] == before[i..]
    {
      assert before[..i + 1][..i] == before[..i];
      if grid[i].id != AIR {
        grid[i] := ItemStack(grid[i].id, grid[i].count - 1);
        if grid[i].count <= 0 {
          grid[i] := EMPTY;
        }
      }
      assert grid[..i + 1] == grid[..i] + [grid[i]];
    }
    assert before[..grid.Length] == before;
    assert grid[..grid.Length] == grid[..];
    newHeld := Some(ItemStack(output.value.id, (if held.Some? then held.value.count else 0) + output.value.count));
  }

  /** Taking the output adds exactly the output's units of its item to the hand. */
  lemma TakeOutputAddsToHand(held: Option<ItemStack>, output: Option<ItemStack>)
    requires ValidHeld(held) && CanTake(held, output)
    requires output.value.id != AIR && output.value.count >= 1
    ensures var hand := ItemStack(output.value.id, (if held.Some? then held.value.count else 0) + output.value.count);
      && ValidHeld(Some(hand))
      && HeldAmount(output.value.id, Some(hand)) == HeldAmount(output.value.id, held) + output.value.count
      && (held.Some? ==> hand.count <= MaxStack(hand.id))
  {
  }

  /** The occupied slots of a row, in order. */
  function Occupied(grid: seq<ItemStack>): seq<ItemStack>
  {
    if |grid| == 0 then []
    else Occupied(grid[..|grid| - 1]) + (if grid[|grid| - 1].id != AIR then [grid[|grid| - 1]] else [])
  }

  /** Handing back the occupied slots hands back every item in the row. */
  lemma {:induction false} OccupiedKeepsItems(grid: seq<ItemStack>)
    ensures forall s :: s in Occupied(grid) ==> s.id != AIR && s in grid
    ensures forall id :: Count(id, Occupied(grid)) == Count(id, grid)
  {
    if |grid| > 0 {
      var init, last := grid[..|grid| - 1], grid[|grid| - 1];
      OccupiedKeepsItems(init);
      forall id
        ensures Count(id, Occupied(grid)) == Count(id, grid)
      {
        CountAppend(id, Occupied(init), if last.id != AIR then [last] else []);
        assert [last][..0] == [];
      }
      assert forall s :: s in init ==> s in grid;
    }
  }

  /** `handleClose`: hands back the held stack and then every occupied grid
      slot (the `onAddItem` calls, in order), and leaves an empty grid of the
      mode's size and an empty hand. */
  method Close(grid: seq<ItemStack>, held: Option<ItemStack>, tableMode: bool)
    returns (returned: seq<ItemStack>, newGrid: seq<ItemStack>)
    ensures returned == (if held.Some? then [held.value] else []) + Occupied(grid)
    ensures |newGrid| == GridSize(tableMode) && forall i :: 0 <= i < |newGrid| ==> newGrid[i] == EMPTY
  {
    returned := if held.Some? then [held.value] else [];
    ghost var first := returned;
    for i := 0 to |grid|
      invariant returned == first + Occupied(grid[..i])
    {
      assert grid[..i + 1][..i] == grid[..i];
      if grid[i].id != AIR {
        returned := returned + [grid[i]];
      }
    }
    assert grid[..|grid|] == grid;
    newGrid := seq(GridSize(tableMode), _ => EMPTY);
  }

  /** The stacks handed back hold every item of the hand and the grid.
      Whether the hotbar takes them is not checked: on a full hotbar
      (`App.FullHotbarTakesNothing`) they are lost. */
  lemma CloseReturnsEverything(grid: seq<ItemStack>, held: Option<ItemStack>)
    ensures var returned := (if held.Some? then [held.value] else []) + Occupied(grid);
      forall id :: Count(id, returned) == HeldAmount(id, held) + Count(id, grid)
  {
    OccupiedKeepsItems(grid);
    var first: seq<ItemStack> := if held.Some? then [held.value] else [];
    forall id
      ensures Count(id, first + Occupied(grid)) == HeldAmount(id, held) + Count(id, grid)
    {
      CountAppend(id, first, Occupied(grid));
      if held.Some? {
        assert first[..0] == [];
      }
    }
  }
}
