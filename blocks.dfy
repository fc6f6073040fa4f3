/** Block and item ids. The numeric ids come from data tables that are not
    part of this model, so every id is an abstract constant. Each variant
    family is laid out on consecutive ids, in the order the chunk mesher
    lists its cases, by definition. The predicates at the end state the one
    further fact the code relies on: the ids it tells apart are distinct. */
module Blocks {
  import opened Common

  const AIR: nat
  const STONE: nat
  const DIRT: nat
  const GRASS: nat
  const SAND: nat
  const SNOW: nat
  const GRAVEL: nat
  const WOOD: nat
  const PLANK: nat
  const COBBLESTONE: nat
  const GLASS: nat
  const FARMLAND: nat
  const LEAF: nat
  const PINE_LEAF: nat
  const CACTUS: nat
  const TALL_GRASS: nat
  const RED_FLOWER: nat
  const YELLOW_FLOWER: nat
  const FENCE: nat
  const CRAFTING_TABLE: nat
  const WATER: nat
  const WATER_FLOW_1: nat
  const WATER_FLOW_2: nat
  const WATER_FLOW_3: nat
  const SEEDS: nat
  const WHEAT_ITEM: nat
  const BED_ITEM: nat
  const STAIR: nat
  const COBBLESTONE_STAIR: nat
  const STICK: nat
  const WOOD_SWORD: nat
  const FISHING_ROD: nat
  const RAW_FISH: nat

  const WHEAT_STAGE_0: nat
  const WHEAT_STAGE_1 := WHEAT_STAGE_0 + 1
  const WHEAT_STAGE_2 := WHEAT_STAGE_0 + 2
  const WHEAT_STAGE_3 := WHEAT_STAGE_0 + 3

  const DOOR_BOTTOM: nat
  const DOOR_TOP := DOOR_BOTTOM + 1
  const DOOR_BOTTOM_OPEN := DOOR_BOTTOM + 2
  const DOOR_TOP_OPEN := DOOR_BOTTOM + 3

  const STAIR_NORTH: nat
  const STAIR_EAST := STAIR_NORTH + 1
  const STAIR_SOUTH := STAIR_NORTH + 2
  const STAIR_WEST := STAIR_NORTH + 3

  const COBBLESTONE_STAIR_NORTH: nat
  const COBBLESTONE_STAIR_EAST := COBBLESTONE_STAIR_NORTH + 1
  const COBBLESTONE_STAIR_SOUTH := COBBLESTONE_STAIR_NORTH + 2
  const COBBLESTONE_STAIR_WEST := COBBLESTONE_STAIR_NORTH + 3

  const BED_FOOT_NORTH: nat
  const BED_FOOT_EAST := BED_FOOT_NORTH + 1
  const BED_FOOT_SOUTH := BED_FOOT_NORTH + 2
  const BED_FOOT_WEST := BED_FOOT_NORTH + 3
  const BED_HEAD_NORTH := BED_FOOT_NORTH + 4
  const BED_HEAD_EAST := BED_FOOT_NORTH + 5
  const BED_HEAD_SOUTH := BED_FOOT_NORTH + 6
  const BED_HEAD_WEST := BED_FOOT_NORTH + 7

  const TORCH: nat
  const TORCH_NORTH := TORCH + 1
  const TORCH_EAST := TORCH + 2
  const TORCH_SOUTH := TORCH + 3
  const TORCH_WEST := TORCH + 4
  /** Fully grown wheat is the block `WHEAT`. */
  const WHEAT := WHEAT_STAGE_3

  /** The solidity flag of a block's registry definition, if it has one. */
  datatype BlockDef = BlockDef(solid: bool)
  const BLOCK_DEFS: int -> Option<BlockDef>

  /** `def && def.solid`. */
  predicate DefinedSolid(t: int)
  {
    BLOCK_DEFS(t).Some? && BLOCK_DEFS(t).value.solid
  }

  predicate IsDoor(t: int) { DOOR_BOTTOM <= t <= DOOR_TOP_OPEN }
  predicate IsBed(t: int) { BED_FOOT_NORTH <= t <= BED_HEAD_WEST }
  predicate IsBedFoot(t: int) { BED_FOOT_NORTH <= t <= BED_FOOT_WEST }
  predicate IsTorch(t: int) { TORCH <= t <= TORCH_WEST }
  predicate IsWheat(t: int) { WHEAT_STAGE_0 <= t <= WHEAT_STAGE_3 }
  predicate IsWoodStair(t: int) { STAIR_NORTH <= t <= STAIR_WEST }
  predicate IsCobbleStair(t: int) { COBBLESTONE_STAIR_NORTH <= t <= COBBLESTONE_STAIR_WEST }
  predicate IsFlower(t: int) { t == RED_FLOWER || t == YELLOW_FLOWER }

  /** `isWater`: still water and its three flowing stages. */
  predicate IsWater(t: int)
  {
    t == WATER || t == WATER_FLOW_1 || t == WATER_FLOW_2 || t == WATER_FLOW_3
  }

  /** A stack of items in a slot or in hand (`ItemStack`). */
  datatype ItemStack = ItemStack(id: int, count: int)

  /** The `maxStack` of an item's registry definition, where it declares one.
      The field is optional and no entry of the registry sets it. */
  const DECLARED_MAX_STACK: int -> Option<int> := _ => None

  /** `getItemDef(id)?.maxStack || 64`: a missing or zero limit means 64. */
  function MaxStack(id: int): int
  {
    match DECLARED_MAX_STACK(id)
    case Some(m) => if m != 0 then m else 64
    case None => 64
  }

  // ---- What the rules take for granted about the id table: the ids each set of rules
  // ---- compares are distinct, and lie outside the families it tests.

  /** The ids the fluid rules compare are pairwise distinct. */
  ghost predicate FluidIdsDistinct()
  {
    && AIR != WATER && AIR != WATER_FLOW_1 && AIR != WATER_FLOW_2 && AIR != WATER_FLOW_3
    && AIR != TALL_GRASS && AIR != RED_FLOWER && AIR != YELLOW_FLOWER && AIR != WHEAT
    && WATER != WATER_FLOW_1 && WATER != WATER_FLOW_2 && WATER != WATER_FLOW_3
    && WATER != TALL_GRASS && WATER != RED_FLOWER && WATER != YELLOW_FLOWER && WATER != WHEAT
    && WATER_FLOW_1 != WATER_FLOW_2 && WATER_FLOW_1 != WATER_FLOW_3 && WATER_FLOW_1 != TALL_GRASS
    && WATER_FLOW_1 != RED_FLOWER && WATER_FLOW_1 != YELLOW_FLOWER && WATER_FLOW_1 != WHEAT
    && WATER_FLOW_2 != WATER_FLOW_3 && WATER_FLOW_2 != TALL_GRASS && WATER_FLOW_2 != RED_FLOWER
    && WATER_FLOW_2 != YELLOW_FLOWER && WATER_FLOW_2 != WHEAT && WATER_FLOW_3 != TALL_GRASS
    && WATER_FLOW_3 != RED_FLOWER && WATER_FLOW_3 != YELLOW_FLOWER && WATER_FLOW_3 != WHEAT
    && TALL_GRASS != RED_FLOWER && TALL_GRASS != YELLOW_FLOWER && TALL_GRASS != WHEAT
    && RED_FLOWER != YELLOW_FLOWER && RED_FLOWER != WHEAT && YELLOW_FLOWER != WHEAT
  }

  /** No water stage is AIR. */
  ghost predicate WaterIsNotAir()
  {
    AIR != WATER && AIR != WATER_FLOW_1 && AIR != WATER_FLOW_2 && AIR != WATER_FLOW_3
  }

  /** The natural terrain blocks are not AIR, and a cactus is not part of a tree. */
  ghost predicate TerrainIdsDistinct()
  {
    && AIR != STONE && AIR != DIRT && AIR != GRASS && AIR != SAND && AIR != SNOW && AIR != WATER
    && CACTUS != WOOD && CACTUS != LEAF && CACTUS != PINE_LEAF
  }

  /** Stairs of either material are not skipped by the collision scan, and the two ranges are apart. */
  ghost predicate StairIdsApart()
  {
    && (AIR < STAIR_NORTH || AIR > STAIR_WEST)
    && (AIR < COBBLESTONE_STAIR_NORTH || AIR > COBBLESTONE_STAIR_WEST)
    && (WATER < STAIR_NORTH || WATER > STAIR_WEST)
    && (WATER < COBBLESTONE_STAIR_NORTH || WATER > COBBLESTONE_STAIR_WEST)
    && (WATER_FLOW_1 < STAIR_NORTH || WATER_FLOW_1 > STAIR_WEST)
    && (WATER_FLOW_1 < COBBLESTONE_STAIR_NORTH || WATER_FLOW_1 > COBBLESTONE_STAIR_WEST)
    && (WATER_FLOW_2 < STAIR_NORTH || WATER_FLOW_2 > STAIR_WEST)
    && (WATER_FLOW_2 < COBBLESTONE_STAIR_NORTH || WATER_FLOW_2 > COBBLESTONE_STAIR_WEST)
    && (WATER_FLOW_3 < STAIR_NORTH || WATER_FLOW_3 > STAIR_WEST)
    && (WATER_FLOW_3 < COBBLESTONE_STAIR_NORTH || WATER_FLOW_3 > COBBLESTONE_STAIR_WEST)
    && (TALL_GRASS < STAIR_NORTH || TALL_GRASS > STAIR_WEST)
    && (TALL_GRASS < COBBLESTONE_STAIR_NORTH || TALL_GRASS > COBBLESTONE_STAIR_WEST)
    && (RED_FLOWER < STAIR_NORTH || RED_FLOWER > STAIR_WEST)
    && (RED_FLOWER < COBBLESTONE_STAIR_NORTH || RED_FLOWER > COBBLESTONE_STAIR_WEST)
    && (YELLOW_FLOWER < STAIR_NORTH || YELLOW_FLOWER > STAIR_WEST)
    && (YELLOW_FLOWER < COBBLESTONE_STAIR_NORTH || YELLOW_FLOWER > COBBLESTONE_STAIR_WEST)
    && (WHEAT_STAGE_3 < STAIR_NORTH || STAIR_WEST < WHEAT_STAGE_0)
    && (WHEAT_STAGE_3 < COBBLESTONE_STAIR_NORTH || COBBLESTONE_STAIR_WEST < WHEAT_STAGE_0)
    && (TORCH_WEST < STAIR_NORTH || STAIR_WEST < TORCH)
    && (TORCH_WEST < COBBLESTONE_STAIR_NORTH || COBBLESTONE_STAIR_WEST < TORCH)
    && (STAIR_WEST < COBBLESTONE_STAIR_NORTH || COBBLESTONE_STAIR_WEST < STAIR_NORTH)
  }

  /** Doors are neither stairs nor beds, nor the cactus or fence. */
  ghost predicate DoorIdsApart()
  {
    && (DOOR_TOP_OPEN < STAIR_NORTH || STAIR_WEST < DOOR_BOTTOM)
    && (DOOR_TOP_OPEN < COBBLESTONE_STAIR_NORTH || COBBLESTONE_STAIR_WEST < DOOR_BOTTOM)
    && (DOOR_TOP_OPEN < BED_FOOT_NORTH || BED_HEAD_WEST < DOOR_BOTTOM)
    && (CACTUS < DOOR_BOTTOM || CACTUS > DOOR_TOP_OPEN)
    && (FENCE < DOOR_BOTTOM || FENCE > DOOR_TOP_OPEN)
  }

  /** The bed, cactus, fence, doors and farmland are told apart. */
  ghost predicate ShapeIdsApart()
  {
    && (CACTUS < BED_FOOT_NORTH || CACTUS > BED_HEAD_WEST)
    && (CACTUS < DOOR_BOTTOM || CACTUS > DOOR_TOP_OPEN)
    && (FENCE < BED_FOOT_NORTH || FENCE > BED_HEAD_WEST)
    && (FENCE < DOOR_BOTTOM || FENCE > DOOR_TOP_OPEN)
    && (FARMLAND < BED_FOOT_NORTH || FARMLAND > BED_HEAD_WEST)
    && (FARMLAND < DOOR_BOTTOM || FARMLAND > DOOR_TOP_OPEN)
    && (DOOR_TOP_OPEN < BED_FOOT_NORTH || BED_HEAD_WEST < DOOR_BOTTOM) && CACTUS != FENCE
    && CACTUS != FARMLAND && FENCE != FARMLAND
  }

  /** The fence is not skipped by the collision scan, and is neither a stair, a bed nor the cactus. */
  ghost predicate FenceIdsApart()
  {
    && FENCE != AIR && FENCE != WATER && FENCE != WATER_FLOW_1 && FENCE != WATER_FLOW_2
    && FENCE != WATER_FLOW_3 && FENCE != TALL_GRASS && FENCE != RED_FLOWER
    && FENCE != YELLOW_FLOWER && FENCE != CACTUS
    && (FENCE < WHEAT_STAGE_0 || FENCE > WHEAT_STAGE_3) && (FENCE < TORCH || FENCE > TORCH_WEST)
    && (FENCE < STAIR_NORTH || FENCE > STAIR_WEST)
    && (FENCE < COBBLESTONE_STAIR_NORTH || FENCE > COBBLESTONE_STAIR_WEST)
    && (FENCE < BED_FOOT_NORTH || FENCE > BED_HEAD_WEST)
  }

  /** A tapped door, bed, crafting table and AIR are told apart, and no door or bed id is 0 (a stored 0 reads back as AIR). */
  ghost predicate TargetIdsApart()
  {
    && (AIR < DOOR_BOTTOM || AIR > DOOR_TOP_OPEN) && (AIR < BED_FOOT_NORTH || AIR > BED_HEAD_WEST)
    && (CRAFTING_TABLE < DOOR_BOTTOM || CRAFTING_TABLE > DOOR_TOP_OPEN)
    && (CRAFTING_TABLE < BED_FOOT_NORTH || CRAFTING_TABLE > BED_HEAD_WEST)
    && (DOOR_TOP_OPEN < BED_FOOT_NORTH || BED_HEAD_WEST < DOOR_BOTTOM) && AIR != CRAFTING_TABLE
    && 0 < DOOR_BOTTOM && 0 < BED_FOOT_NORTH
  }

  /** The held items with a placement rule of their own are distinct, and none is AIR. */
  ghost predicate HeldIdsDistinct()
  {
    && AIR != SEEDS && AIR != STAIR && AIR != COBBLESTONE_STAIR && AIR != DOOR_BOTTOM
    && AIR != BED_ITEM && AIR != TORCH && SEEDS != STAIR && SEEDS != COBBLESTONE_STAIR
    && SEEDS != DOOR_BOTTOM && SEEDS != BED_ITEM && SEEDS != TORCH && STAIR != COBBLESTONE_STAIR
    && STAIR != DOOR_BOTTOM && STAIR != BED_ITEM && STAIR != TORCH
    && COBBLESTONE_STAIR != DOOR_BOTTOM && COBBLESTONE_STAIR != BED_ITEM
    && COBBLESTONE_STAIR != TORCH && DOOR_BOTTOM != BED_ITEM && DOOR_BOTTOM != TORCH
    && BED_ITEM != TORCH
  }

  /** The four crafting ingredients are distinct items. */
  ghost predicate IngredientIdsDistinct()
  {
    && WOOD != PLANK && WOOD != STICK && WOOD != COBBLESTONE && PLANK != STICK
    && PLANK != COBBLESTONE && STICK != COBBLESTONE
  }

  /** The blocks with a loot rule of their own are distinct, and lie outside the wheat, door and bed families, which are apart. */
  ghost predicate LootIdsApart()
  {
    && GRASS != STONE && GRASS != LEAF && GRASS != PINE_LEAF && GRASS != GLASS
    && GRASS != TALL_GRASS && GRASS != RED_FLOWER && GRASS != YELLOW_FLOWER && GRASS != FENCE
    && STONE != LEAF && STONE != PINE_LEAF && STONE != GLASS && STONE != TALL_GRASS
    && STONE != RED_FLOWER && STONE != YELLOW_FLOWER && STONE != FENCE && LEAF != PINE_LEAF
    && LEAF != GLASS && LEAF != TALL_GRASS && LEAF != RED_FLOWER && LEAF != YELLOW_FLOWER
    && LEAF != FENCE && PINE_LEAF != GLASS && PINE_LEAF != TALL_GRASS && PINE_LEAF != RED_FLOWER
    && PINE_LEAF != YELLOW_FLOWER && PINE_LEAF != FENCE && GLASS != TALL_GRASS
    && GLASS != RED_FLOWER && GLASS != YELLOW_FLOWER && GLASS != FENCE && TALL_GRASS != RED_FLOWER
    && TALL_GRASS != YELLOW_FLOWER && TALL_GRASS != FENCE && RED_FLOWER != YELLOW_FLOWER
    && RED_FLOWER != FENCE && YELLOW_FLOWER != FENCE
    && (GRASS < WHEAT_STAGE_0 || GRASS > WHEAT_STAGE_3)
    && (GRASS < DOOR_BOTTOM || GRASS > DOOR_TOP_OPEN)
    && (GRASS < BED_FOOT_NORTH || GRASS > BED_HEAD_WEST)
    && (STONE < WHEAT_STAGE_0 || STONE > WHEAT_STAGE_3)
    && (STONE < DOOR_BOTTOM || STONE > DOOR_TOP_OPEN)
    && (STONE < BED_FOOT_NORTH || STONE > BED_HEAD_WEST)
    && (LEAF < WHEAT_STAGE_0 || LEAF > WHEAT_STAGE_3)
    && (LEAF < DOOR_BOTTOM || LEAF > DOOR_TOP_OPEN)
    && (LEAF < BED_FOOT_NORTH || LEAF > BED_HEAD_WEST)
    && (PINE_LEAF < WHEAT_STAGE_0 || PINE_LEAF > WHEAT_STAGE_3)
    && (PINE_LEAF < DOOR_BOTTOM || PINE_LEAF > DOOR_TOP_OPEN)
    && (PINE_LEAF < BED_FOOT_NORTH || PINE_LEAF > BED_HEAD_WEST)
    && (GLASS < WHEAT_STAGE_0 || GLASS > WHEAT_STAGE_3)
    && (GLASS < DOOR_BOTTOM || GLASS > DOOR_TOP_OPEN)
    && (GLASS < BED_FOOT_NORTH || GLASS > BED_HEAD_WEST)
    && (TALL_GRASS < WHEAT_STAGE_0 || TALL_GRASS > WHEAT_STAGE_3)
    && (TALL_GRASS < DOOR_BOTTOM || TALL_GRASS > DOOR_TOP_OPEN)
    && (TALL_GRASS < BED_FOOT_NORTH || TALL_GRASS > BED_HEAD_WEST)
    && (RED_FLOWER < WHEAT_STAGE_0 || RED_FLOWER > WHEAT_STAGE_3)
    && (RED_FLOWER < DOOR_BOTTOM || RED_FLOWER > DOOR_TOP_OPEN)
    && (RED_FLOWER < BED_FOOT_NORTH || RED_FLOWER > BED_HEAD_WEST)
    && (YELLOW_FLOWER < WHEAT_STAGE_0 || YELLOW_FLOWER > WHEAT_STAGE_3)
    && (YELLOW_FLOWER < DOOR_BOTTOM || YELLOW_FLOWER > DOOR_TOP_OPEN)
    && (YELLOW_FLOWER < BED_FOOT_NORTH || YELLOW_FLOWER > BED_HEAD_WEST)
    && (FENCE < WHEAT_STAGE_0 || FENCE > WHEAT_STAGE_3)
    && (FENCE < DOOR_BOTTOM || FENCE > DOOR_TOP_OPEN)
    && (FENCE < BED_FOOT_NORTH || FENCE > BED_HEAD_WEST)
    && (WHEAT_STAGE_3 < DOOR_BOTTOM || DOOR_TOP_OPEN < WHEAT_STAGE_0)
    && (WHEAT_STAGE_3 < BED_FOOT_NORTH || BED_HEAD_WEST < WHEAT_STAGE_0)
    && (DOOR_TOP_OPEN < BED_FOOT_NORTH || BED_HEAD_WEST < DOOR_BOTTOM)
  }
}
