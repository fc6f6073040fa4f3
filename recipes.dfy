/** The crafting recipe table: shaped recipes whose rows of characters name
    ingredients through a per-recipe legend. */
module Recipes {
  import opened Blocks

  /** A shaped recipe (`Recipe`). A blank `' '` in a row is an empty cell. */
  datatype Recipe = Recipe(outputId: int, outputCount: int, shape: seq<string>,
                           ingredients: map<char, int>, requiresTable: bool)

  /** `CRAFTING_RECIPES`, in the order the matcher tries them. */
  const CRAFTING_RECIPES: seq<Recipe> := [
    Recipe(PLANK, 4, ["W"], map['W' := WOOD], false),
    Recipe(STICK, 4, ["P", "P"], map['P' := PLANK], false),
    Recipe(CRAFTING_TABLE, 1, ["PP", "PP"], map['P' := PLANK], false),
    Recipe(TORCH, 4, ["P", "S"], map['P' := PLANK, 'S' := STICK], false),
    Recipe(WOOD_SWORD, 1, [" P ", " P ", " S "], map['P' := PLANK, 'S' := STICK], true),
    Recipe(FENCE, 3, ["PSP", "PSP"], map['P' := PLANK, 'S' := STICK], true),
    Recipe(COBBLESTONE_STAIR, 4, ["C  ", "CC ", "CCC"], map['C' := COBBLESTONE], true),
    Recipe(STAIR, 4, ["P  ", "PP ", "PPP"], map['P' := PLANK], true),
    Recipe(STONE, 1, ["C"], map['C' := COBBLESTONE], true)
  ]

  /** The index of the cobblestone-to-stone recipe, the last one. */
  const STONE_RECIPE := 8

  /** A shape the matcher can read: at least one row, every row as wide as
      the first, and every non-blank character named in the legend. */
  predicate WellFormed(r: Recipe)
  {
    && |r.shape| > 0
    && (forall row :: 0 <= row < |r.shape| ==> |r.shape[row]| == |r.shape[0]|)
    && (forall row, col :: 0 <= row < |r.shape| && 0 <= col < |r.shape[row]| && r.shape[row][col] != ' '
          ==> r.shape[row][col] in r.ingredients)
  }

  function Height(r: Recipe): nat
  {
    |r.shape|
  }

  function Width(r: Recipe): nat
    requires |r.shape| > 0
  {
    |r.shape[0]|
  }

  /** The matcher's own test for a table recipe: some dimension exceeds 2,
      so the shape cannot fit the 2x2 player grid. */
  predicate NeedsTable(r: Recipe)
    requires |r.shape| > 0
  {
    Height(r) > 2 || Width(r) > 2
  }

  /** Every recipe is well formed, fits the 3x3 table grid, and makes at
      least one item. */
  lemma TableWellFormed()
    ensures |CRAFTING_RECIPES| == 9
    ensures forall k :: 0 <= k < |CRAFTING_RECIPES| ==>
              && WellFormed(CRAFTING_RECIPES[k])
              && 1 <= Height(CRAFTING_RECIPES[k]) <= 3
              && 1 <= Width(CRAFTING_RECIPES[k]) <= 3
              && CRAFTING_RECIPES[k].outputCount >= 1
  {
    forall k | 0 <= k < |CRAFTING_RECIPES|
      ensures WellFormed(CRAFTING_RECIPES[k])
    {
      var r := CRAFTING_RECIPES[k];
      forall row, col | 0 <= row < |r.shape| && 0 <= col < |r.shape[row]| && r.shape[row][col] != ' '
        ensures r.shape[row][col] in r.ingredients
      {
        assert r.shape[row][col] in {'W', 'P', 'S', 'C'};
      }
    }
  }

  /** The `requiresTable` flag agrees with the shape test for every recipe
      except cobblestone to stone, which is flagged although it is 1x1. */
  lemma RequiresTableFlag()
    ensures forall k :: 0 <= k < |CRAFTING_RECIPES| ==>
              (CRAFTING_RECIPES[k].requiresTable == NeedsTable(CRAFTING_RECIPES[k]) <==> k != STONE_RECIPE)
  {
  }
}
