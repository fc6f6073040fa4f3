# ReCraft core in Dafny

A model of the game logic of ReCraft, a browser voxel sandbox, with proofs
about it. The world is a sparse overlay of edited blocks (`Overlay`, a map
from integer cells to block ids) layered over procedurally generated terrain.
Everything downstream reads a cell through one query, `WorldGen.Read`: an
overlay entry wins, otherwise the generator decides.

What is modelled, one module per source file:

- `WorldGen` (engine/world/WorldGen.ts): surface height, biome and tree hash
  from a noise sample; village plots, roads and buildings; the world floor;
  column layering by height, water level and biome; forest vegetation; trees
  found by a 5×5 root scan. Proved: overlay precedence, rounding, the floor,
  layering, village refusals and road shape, vegetation bands, tree shapes.
- `WaterSystem`: the queue-driven fluid automaton. One tick snapshots and
  clears the queue, lets water fall before it spreads, decays
  WATER → FLOW_1 → FLOW_2 → FLOW_3 → stop, and writes the collected changes.
  Proved: the decay chain ends within four steps, an empty queue is a no-op,
  writes are only flow blocks into passable non-water cells, cells enqueued
  in a tick wait for the next one, a tick without changes is a fixed point.
- `PhysicsSystem`: the box pool, strict box intersection, the collider
  catalogue (stairs, slabs, doors, beds, fences with connectable
  neighbours), the candidate scan over every integer cell of a box, buoyancy
  and drag in water, per-axis resolution, and the substep schedule.
- `InteractionController`: the block decisions of a tap (door toggle, seed,
  stair, door, bed and torch placement, break, bed-partner break, water
  queueing) and of the 3×3×3 radius break. Proved: the door toggle is an
  involution, bed placement and partner break are inverse, the radius break
  clears exactly the breakable cells of the cube and nothing else, and it
  queues only water cells next to the cells it cleared, among them every
  such cell still holding water afterwards.
- `Recipes` and `InventoryModal` (with `Stacks` for item stacks): the
  recipe table and its well-formedness, the shape matcher (first recipe,
  row-major offsets, translation only, counts ignored), slot clicks that
  conserve counts, creative picks, taking the output, and closing the grid.
  The stone recipe is 1×1 but flagged as needing the table; the matcher
  never reads the flag and uses the shape test, so stone is craftable in the
  player's 2×2 grid and never at the table.
- `App`: adding items to the hotbar (partial stacks first, no slot above
  the maximum stack, count conserved), consuming and dropping, loot for a
  broken block, sleeping through the night, and chunk version bumps.
- `Pathfinder`: A* over a bounded step budget. Proved: a returned path starts
  at the rounded start, moves by unit steps through cells a body fits in,
  ends within 1.5 of the goal, and every node's cost is its parent's plus one.
- `CropSystem`, `TorchLightSystem`, `TerrainView` (components/Terrain.tsx),
  `ItemDropManager`, `FishingSystem`: the per-frame updaters. Crops advance
  one stage per tick and only in the overlay; the ten nearest torch lights
  are selected in distance order; the visible chunk disc and its culling;
  dropped items fall, land and are picked up or expire while the survivors
  keep their order; the fishing state machine. The torch quick test compares
  against the corner of the player's cell, so a torch just within range on
  the far side can be skipped (`TorchLightSystem.CornerTestSkipsNearTorch`).

Support modules: `Common` (options, points, rounding), `Config` (world
constants), `Blocks` (block ids and the adjacency facts between them).

## Model

| member | source | states |
|---|---|---|
| WorldGen.Overlay.constructor | App.tsx:186 | the overlay of edited blocks starts as the given map |
| WorldGen.GetBlock | engine/world/WorldGen.ts:147-248 | getBlock at any point: the block of the cell the point rounds into (OnlyRoundedCoordinatesMatter), overlay first (OverlayWins) |
| WorldGen.BlockAt | engine/world/WorldGen.ts:152-248 | getBlock at an integer cell: overlay, floor, village, trees and terrain in the source's order; OverlayWins, BelowFloorIsStone, VillageOverridesTerrain and ColumnLayering state its cases |
| WorldGen.BlockHeight | engine/world/WorldGen.ts:8-11 | a noise sample in [-1, 1] gives a surface height in 0..8 |
| WorldGen.TreeRandom | engine/world/WorldGen.ts:13-16 | the per-column tree value lies in [0, 1) |
| WorldGen.BiomeAt | engine/world/WorldGen.ts:20-25 | snow exactly below -0.3, desert exactly above 0.3, forest exactly in between |
| WorldGen.BuildType | engine/world/WorldGen.ts:57-58 | a quadrant's building type is in 0..9 |
| WorldGen.Vegetation | engine/world/WorldGen.ts:177-185 | ground cover appears exactly one above a dry forest surface whose hash exceeds 0.81, and which plant it is follows the hash thresholds 0.85, 0.83, 0.81 |
| WorldGen.TreeScan | engine/world/WorldGen.ts:187-246 | the result is the first tree of the lx-then-lz scan that claims the cell, and none exactly when no root claims it |
| WorldGen.OverlayWins | engine/world/WorldGen.ts:147-153 | an edited block is returned whatever the terrain, a stored 0 reading as air |
| WorldGen.OnlyRoundedCoordinatesMatter | engine/world/WorldGen.ts:147-151 | the query depends only on the rounded coordinates |
| WorldGen.BelowFloorIsStone | engine/world/WorldGen.ts:154 | an unedited cell below the world floor is stone |
| WorldGen.VillageOverridesTerrain | engine/world/WorldGen.ts:156-157 | a village claim overrides the natural terrain |
| WorldGen.ColumnLayering | engine/world/WorldGen.ts:159-175 | surface block by biome, two layers of dirt or sand, stone below, water up to the water level, and never air at or below the surface |
| WorldGen.VillageBlock | engine/world/WorldGen.ts:27-59 | getVillageBlock: a village claims a cell only on a plot that has a village; VillageDeclines and VillageRoad state the declining cases and the road |
| WorldGen.VillageDeclines | engine/world/WorldGen.ts:27-59 | no village block on a plot without a village, in the desert, below water level or in a type-9 quadrant |
| WorldGen.VillageRoad | engine/world/WorldGen.ts:46-51 | road cells are gravel at road height with three cells of air above and nothing else claimed |
| WorldGen.TreeRootRequirements | engine/world/WorldGen.ts:189-195 | a tree needs a root with tree value above 0.97, dry ground and no village claim |
| WorldGen.CactusShape | engine/world/WorldGen.ts:198-204 | a desert root grows exactly a three-high cactus in its own column |
| WorldGen.CactusOnlyInDesert | engine/world/WorldGen.ts:196-204 | only desert roots grow cacti |
| WorldGen.ForestTreeShape | engine/world/WorldGen.ts:227-243 | a forest tree has a four-high trunk and a single leaf cap above the root |
| WaterSystem.WaterQueue.constructor | engine/world/WaterSystem.ts:9 | the queue starts empty |
| WaterSystem.WaterQueue.Enqueue | engine/world/WaterSystem.ts:12-15 | the rounded cell is in the queue afterwards, added once at the end if it was not there, and the queue keeps no repeats |
| WaterSystem.NextFlow | engine/world/WaterSystem.ts:25-30 | the next stage is a flowing stage or air, and only water has a flowing successor |
| WaterSystem.Step | engine/world/WaterSystem.ts:53-81 | one queued cell: fall first, otherwise spread the next stage sideways, otherwise nothing; FallingHasPriority, SpreadsSideways and IdleCells state its cases |
| WaterSystem.Process | engine/world/WaterSystem.ts:52-82 | the snapshot processed in order with every read against the tick's starting overlay; ProcessSound states what it may write and queue |
| WaterSystem.DecayChain | engine/world/WaterSystem.ts:25-30 | WATER, FLOW_1, FLOW_2, FLOW_3, AIR in that order, and four steps from any block reach air |
| WaterSystem.ProcessSound | engine/world/WaterSystem.ts:52-82 | after any prefix of the queue the next queue has no repeats, is empty while nothing changed, and every write is a flowing stage into a cell that was passable and dry |
| WaterSystem.ChunkOfSpans | engine/world/WaterSystem.ts:89 | the chunk key of a cell is the chunk whose span holds it on x and on z |
| WaterSystem.SpreadFrom | engine/world/WaterSystem.ts:67-78 | the neighbour loop computes the spread into the four neighbours in order |
| WaterSystem.ProcessCell | engine/world/WaterSystem.ts:53-81 | the loop body computes the step for one queued cell |
| WaterSystem.Requeue | engine/world/WaterSystem.ts:92-96 | the queue becomes the next queue and the chunk set gains the chunk of every re-queued cell |
| WaterSystem.UpdateFluids | engine/world/WaterSystem.ts:32-101 | the overlay gains exactly the tick's changes, the queue becomes the next queue, chunks are reported exactly when something changed, and an empty queue changes nothing |
| WaterSystem.FallingHasPriority | engine/world/WaterSystem.ts:60-63 | water above a passable dry cell writes FLOW_1 below, re-queues both cells and spreads nowhere |
| WaterSystem.IdleCells | engine/world/WaterSystem.ts:56-66 | a non-water cell, a cell on water, or FLOW_3 on solid ground changes nothing |
| WaterSystem.SpreadsSideways | engine/world/WaterSystem.ts:64-77 | water on solid dry ground writes its next stage into every passable dry neighbour |
| WaterSystem.SpreadKeeps | engine/world/WaterSystem.ts:67-77 | a later neighbour never overwrites an earlier neighbour's write |
| WaterSystem.QuietTickIsFixedPoint | engine/world/WaterSystem.ts:60-76 | a tick that changes nothing queues nothing |
| WaterSystem.OnlyFlowIntoDryCells | engine/world/WaterSystem.ts:60-77 | every write is FLOW_1, FLOW_2 or FLOW_3, into a cell that was passable and not water |
| PhysicsSystem.TouchingBoxesDoNotIntersect | engine/physics/PhysicsSystem.ts:35-41 | boxes that only share a face do not intersect, in either order |
| PhysicsSystem.AabbPool.constructor | engine/physics/PhysicsSystem.ts:9-15 | the pool starts at slot 0 |
| PhysicsSystem.AabbPool.Get | engine/physics/PhysicsSystem.ts:17-25 | the next slot, wrapping to 0 after 1000, is overwritten with the box and nothing else changes |
| PhysicsSystem.Connectability | engine/physics/PhysicsSystem.ts:53-59 | air never connects, a fence always does, and other blocks connect exactly when solid and not cactus, leaves or torch |
| PhysicsSystem.Colliders | engine/physics/PhysicsSystem.ts:76-124 | a block has at most two colliders and each lies in its cell, extended half a block up for the fence |
| PhysicsSystem.NoColliders | engine/physics/PhysicsSystem.ts:66-74 | passable blocks, blocks without a solid definition and open doors have no collider |
| PhysicsSystem.StairColliders | engine/physics/PhysicsSystem.ts:80-95 | a stair is a full lower slab plus a raised half |
| PhysicsSystem.StairHalfSide | engine/physics/PhysicsSystem.ts:80-95 | the raised half sits on the north, east, south or west side as the variant says |
| PhysicsSystem.OtherColliders | engine/physics/PhysicsSystem.ts:96-124 | the exact boxes of bed, cactus, closed door, farmland and the full cube |
| PhysicsSystem.FenceCollider | engine/physics/PhysicsSystem.ts:100-116 | the fence post reaches a cell face exactly on the sides whose neighbour connects |
| PhysicsSystem.CellColliders | engine/physics/PhysicsSystem.ts:64-124 | the colliders of a world cell lie in its envelope |
| PhysicsSystem.ScanXMembers | engine/physics/PhysicsSystem.ts:61-63 | the triple scan yields exactly the colliders of the cells in its ranges |
| PhysicsSystem.CandidateCells | engine/physics/PhysicsSystem.ts:43-63 | the candidates are exactly the colliders of the cells from floor(min) to ceil(max) on every axis |
| PhysicsSystem.CandidatesComplete | engine/physics/PhysicsSystem.ts:43-63 | any collider that overlaps the box is among the candidates |
| PhysicsSystem.ScanRow | engine/physics/PhysicsSystem.ts:63-125 | the inner loop appends the colliders of one row in order |
| PhysicsSystem.ScanSlab | engine/physics/PhysicsSystem.ts:62-126 | the middle loop appends the rows of one slab in order |
| PhysicsSystem.FillCandidates | engine/physics/PhysicsSystem.ts:43-129 | the candidate list is cleared and refilled with the scan of the box's cells |
| PhysicsSystem.Forces | engine/physics/PhysicsSystem.ts:147-156 | drag and gravity in water with a fall cap of 3, gravity in air with a fall cap of 30 |
| PhysicsSystem.HitX | engine/physics/PhysicsSystem.ts:161-179 | one candidate of the x pass: climb or stop (HitXOutcomes) |
| PhysicsSystem.HitZ | engine/physics/PhysicsSystem.ts:182-199 | one candidate of the z pass: climb or stop (HitZOutcomes) |
| PhysicsSystem.HitY | engine/physics/PhysicsSystem.ts:202-212 | one candidate of the y pass: land or bump the head (HitYSeparates) |
| PhysicsSystem.HitXOutcomes | engine/physics/PhysicsSystem.ts:161-179 | a hit on x climbs exactly when the obstacle top is above the feet by more than 0 and at most the step height, landing 0.001 above it with the velocity kept; otherwise x velocity becomes 0 and the body is clamped 0.001 clear of the face it ran into (unmoved when it had no x velocity), no longer overlapping the obstacle |
| PhysicsSystem.HitZOutcomes | engine/physics/PhysicsSystem.ts:182-199 | the same climb condition and clamp on z |
| PhysicsSystem.HitYSeparates | engine/physics/PhysicsSystem.ts:202-212 | a moving body hit on y ends clear of the obstacle with no vertical speed, landing on top when falling |
| PhysicsSystem.ResolveXFacts | engine/physics/PhysicsSystem.ts:161-179 | the x pass never lowers the body, keeps z and the other velocities, and keeps or zeroes the x velocity |
| PhysicsSystem.ResolveZFacts | engine/physics/PhysicsSystem.ts:182-199 | the z pass never lowers the body, keeps x and the other velocities, and keeps or zeroes the z velocity |
| PhysicsSystem.ResolveYFacts | engine/physics/PhysicsSystem.ts:202-212 | the y pass moves only vertically, keeps or zeroes the vertical velocity, and grounds only a falling body, at rest |
| PhysicsSystem.PassXFacts | engine/physics/PhysicsSystem.ts:161-179 | the whole x pass keeps or zeroes the x velocity and does not ground the body |
| PhysicsSystem.PassZFacts | engine/physics/PhysicsSystem.ts:182-199 | the whole z pass keeps or zeroes the z velocity |
| PhysicsSystem.PassYFacts | engine/physics/PhysicsSystem.ts:202-212 | the whole y pass keeps or zeroes the vertical velocity and a grounded body is at rest |
| PhysicsSystem.StepFacts | engine/physics/PhysicsSystem.ts:131-217 | after a step the body is not below -20, a grounded body is at rest vertically, the fall speed is capped, and each horizontal velocity is the forced one or zero |
| PhysicsSystem.MoveX | engine/physics/PhysicsSystem.ts:165-179 | the x loop updates position and velocity as the x pass does |
| PhysicsSystem.MoveZ | engine/physics/PhysicsSystem.ts:186-199 | the z loop updates position and velocity as the z pass does |
| PhysicsSystem.MoveY | engine/physics/PhysicsSystem.ts:206-212 | the y loop updates position and velocity and grounds as the y pass does |
| PhysicsSystem.ApplyForces | engine/physics/PhysicsSystem.ts:147-156 | the velocity becomes the forced velocity |
| PhysicsSystem.StepX | engine/physics/PhysicsSystem.ts:161-179 | move along x, gather candidates and resolve, as the x pass |
| PhysicsSystem.StepZ | engine/physics/PhysicsSystem.ts:182-199 | move along z, gather candidates and resolve, as the z pass |
| PhysicsSystem.StepY | engine/physics/PhysicsSystem.ts:202-212 | move along y, gather candidates and resolve, as the y pass |
| PhysicsSystem.PerformPhysicsStep | engine/physics/PhysicsSystem.ts:131-217 | position, velocity and flags become those of one step |
| PhysicsSystem.PhysicsStep | engine/physics/PhysicsSystem.ts:131-217 | performPhysicsStep as a value: forces, x, z and y passes, then the floor at −20; StepFacts states its outcome |
| PhysicsSystem.SubstepCount | engine/physics/PhysicsSystem.ts:229-231 | at least one substep |
| PhysicsSystem.SubstepBound | engine/physics/PhysicsSystem.ts:229-232 | each substep moves at most 0.4 along any axis at the starting speed |
| PhysicsSystem.ShareBound | engine/physics/PhysicsSystem.ts:231-232 | a distance of at most 0.4 n shared over n steps is at most 0.4 each |
| PhysicsSystem.SubstepsNext | engine/physics/PhysicsSystem.ts:237-243 | n + 1 substeps are one more step after n |
| PhysicsSystem.ApplyFacts | engine/physics/PhysicsSystem.ts:219-246 | after the frame the body is not below -20 and a grounded body is at rest vertically |
| PhysicsSystem.RunSubsteps | engine/physics/PhysicsSystem.ts:237-243 | the loop leaves the state of the given number of substeps |
| PhysicsSystem.ApplyPhysics | engine/physics/PhysicsSystem.ts:219-246 | the frame is split into the substep count and run in order |
| InteractionController.FaceCells | components/InteractionController.tsx:52-55 | a hit on the face of a cell breaks that cell and places into the neighbour across the face |
| InteractionController.DoorTapFlips | components/InteractionController.tsx:64-75 | a tap on either door half writes both halves with the opposite open state and nothing else |
| InteractionController.DoorToggleTwice | components/InteractionController.tsx:64-75 | tapping a consistent door twice restores every cell |
| InteractionController.ToggleDoor | components/InteractionController.tsx:64-75 | both door halves written with the opposite open state (DoorTapFlips, DoorToggleTwice) |
| InteractionController.Facing | components/InteractionController.tsx:121-125 | the facing is one of four direction indices |
| InteractionController.FacingAlongDominantAxis | components/InteractionController.tsx:121-125 | the chosen direction is the unit cardinal step along the larger facing component |
| InteractionController.StairVariant | components/InteractionController.tsx:117-127 | the placed stair is of the held material |
| InteractionController.TorchVariant | components/InteractionController.tsx:159-178 | the placed block is one of the torch variants |
| InteractionController.TorchOnFaces | components/InteractionController.tsx:164-178 | a standing torch on top and bottom faces, and on a side face the torch mounted against the block behind |
| InteractionController.BedPartnerInverse | components/InteractionController.tsx:246-260 | the break offsets invert the placement offsets of foot and head |
| InteractionController.BedBreakClearsBoth | components/InteractionController.tsx:233-270 | breaking either half of a placed bed clears both halves and nothing else |
| InteractionController.Wake | components/InteractionController.tsx:202-208 | waking neighbours never changes the overlay |
| InteractionController.WakeQueues | components/InteractionController.tsx:202-206 | every neighbour holding water is queued, only such neighbours are added, and the queue keeps its entries without repeats |
| InteractionController.WakeKeeps | components/InteractionController.tsx:202-206 | waking keeps every queued entry and adds no repeat |
| InteractionController.WakeAddsOnlyWater | components/InteractionController.tsx:202-206 | only face neighbours of the broken cell that hold water are added to the queue |
| InteractionController.WakeQueuesWater | components/InteractionController.tsx:202-206 | every visited neighbour that holds water ends up queued |
| InteractionController.WakeChunks | components/InteractionController.tsx:207 | every neighbour's chunk is marked and no mark is lost |
| InteractionController.SweepCellReads | components/InteractionController.tsx:282-291 | one loop body sets its cell to air unless protected and leaves every other cell as it reads |
| InteractionController.RowReads | components/InteractionController.tsx:277-301 | after n iterations of the inner loop, exactly its visited unprotected cells read air |
| InteractionController.SlabReads | components/InteractionController.tsx:276-302 | after n rows, exactly the visited unprotected cells read air |
| InteractionController.SlabsReads | components/InteractionController.tsx:275-303 | after n slabs, exactly the visited unprotected cells read air |
| InteractionController.SweepReads | components/InteractionController.tsx:272-303 | the 3×3×3 break sets exactly the cube cells that were not air, a door or a bed to air |
| InteractionController.SeedAndDoorPlacement | components/InteractionController.tsx:109-134 | seeds go down exactly on farmland into air or water; a door exactly below air or water, as a closed bottom and top |
| InteractionController.StairPlacement | components/InteractionController.tsx:117-127 | a stair is always placed, facing the player's dominant direction |
| InteractionController.BedPlacement | components/InteractionController.tsx:135-158 | a bed goes down exactly when the head cell is air or water, foot and head sharing the direction index |
| InteractionController.OtherPlacement | components/InteractionController.tsx:159-187 | a torch follows the face normal; any other item is written as is and placed water is queued |
| InteractionController.Placement | components/InteractionController.tsx:97-192 | the placement rules for seeds, doors, stairs, beds, torches and other blocks; the four placement lemmas state each rule |
| InteractionController.TapOutcome | components/InteractionController.tsx:42-211 | handleTap as a value: door, bed, table, placement, then break (TapInteractsFirst, TapBreaks) |
| InteractionController.TapInteractsFirst | components/InteractionController.tsx:63-87 | doors toggle, beds only call onSleep and tables only open crafting, whatever is held |
| InteractionController.TapBreaks | components/InteractionController.tsx:194-210 | with nothing placeable held, a tap drops the block, leaves air and queues the neighbours holding water |
| InteractionController.RadiusBreakClears | components/InteractionController.tsx:272-307 | away from a bed the radius break clears exactly the unprotected cube cells and drops nothing |
| InteractionController.RadiusOutcome | components/InteractionController.tsx:212-309 | handleRadiusBreak as a value: a bed broken precisely, otherwise the 3×3×3 sweep (RadiusBreakClears, RadiusBreakQueues) |
| InteractionController.RadiusBreakQueues | components/InteractionController.tsx:272-298 | away from a bed the radius break keeps every queued cell with no repeats; each cell it queues held water and is a face neighbour of a cleared cube cell; every face neighbour of a cleared cell that still reads as water is queued |
| InteractionController.SweepCellQueue | components/InteractionController.tsx:280-298 | one cube cell keeps the queue, queues only water neighbours when it breaks, and queues each neighbour still holding water |
| InteractionController.RowQueue | components/InteractionController.tsx:275-298 | the innermost loop keeps the queue and each added cell has a broken neighbour in the row |
| InteractionController.RowWakes | components/InteractionController.tsx:275-298 | the innermost loop queues every water neighbour of a cell it broke |
| InteractionController.SlabQueue | components/InteractionController.tsx:274-298 | the middle loop keeps the queue and each added cell has a broken neighbour in the slab |
| InteractionController.SlabWakes | components/InteractionController.tsx:274-298 | the middle loop queues every water neighbour of a cell it broke |
| InteractionController.SlabsQueue | components/InteractionController.tsx:273-298 | the outer loop keeps the queue and each added cell has a broken neighbour in the cube |
| InteractionController.SlabsWakes | components/InteractionController.tsx:273-298 | the outer loop queues every water neighbour of a cell it broke |
| InteractionController.WakeNeighbours | components/InteractionController.tsx:202-208 | the neighbour loop queues and marks as the wake specification says |
| InteractionController.BreakBlock | components/InteractionController.tsx:291-300 | the cell becomes air, its chunk is marked and its neighbours are woken |
| InteractionController.SweepAt | components/InteractionController.tsx:278-300 | one body of the triple loop, as the cell sweep |
| InteractionController.SweepRow | components/InteractionController.tsx:277-301 | the inner loop, as the row sweep |
| InteractionController.RowNext | components/InteractionController.tsx:277 | one more inner iteration extends the row sweep by one cell |
| InteractionController.SweepSlab | components/InteractionController.tsx:276-302 | the middle loop, as the slab sweep |
| InteractionController.SweepCube | components/InteractionController.tsx:275-303 | the outer loop, as the cube sweep |
| InteractionController.HandleTap | components/InteractionController.tsx:42-211 | the overlay, water queue and callbacks become the tap outcome |
| InteractionController.PlaceHeld | components/InteractionController.tsx:97-192 | the overlay and queue become the placement when the item's rule allows it, and are untouched otherwise |
| InteractionController.BreakBed | components/InteractionController.tsx:237-266 | the tapped bed half and its matching partner are cleared as the bed break says |
| InteractionController.HandleRadiusBreak | components/InteractionController.tsx:212-309 | the overlay, water queue and callbacks become the radius-break outcome |
| Recipes.TableWellFormed | data/recipes.ts:11-78 | nine recipes, each well formed, at most 3×3 and making at least one item |
| Recipes.RequiresTableFlag | data/recipes.ts:71-77 | the table flag agrees with the shape test for every recipe except cobblestone to stone |
| InventoryModal.GridSize | components/ui/InventoryModal.tsx:28 | the slot count is the square of the grid's side |
| InventoryModal.CellOf | components/ui/InventoryModal.tsx:69 | a slot reads as null exactly when it is empty, and never as undefined |
| InventoryModal.CountsIgnored | components/ui/InventoryModal.tsx:69-111 | grids holding the same ids slot by slot have the same shape and craft the same output, whatever their counts |
| InventoryModal.GridIndex | components/ui/InventoryModal.tsx:91 | row·n + col is a grid index, and division and remainder give row and column back |
| InventoryModal.DrawRow | components/ui/InventoryModal.tsx:88-93 | drawing one row of the shape extends the drawn rows by one |
| InventoryModal.DrawRecipe | components/ui/InventoryModal.tsx:84-94 | the fresh temporary grid holds the recipe drawn at the offset, null elsewhere |
| InventoryModal.MatchAt | components/ui/InventoryModal.tsx:83-102 | the comparison loop reports a match exactly when every cell of the shape equals the drawn recipe |
| InventoryModal.MatchAnywhere | components/ui/InventoryModal.tsx:81-109 | the offset loops find a match exactly when the recipe matches at some offset |
| InventoryModal.CheckRecipe | components/ui/InventoryModal.tsx:67-114 | the output slot is that of the first recipe in table order the mode considers and that matches somewhere |
| InventoryModal.CellAt | components/ui/InventoryModal.tsx:91-98 | a matched grid holds at each row and column what the recipe draws there |
| InventoryModal.CellsFromLegend | components/ui/InventoryModal.tsx:89-98 | a matched grid holds only empty cells and the recipe's ingredients |
| InventoryModal.OneCellProbes | components/ui/InventoryModal.tsx:81-102 | a grid matched by planks or stone shows that recipe's ingredients and gaps |
| InventoryModal.ColumnProbes | components/ui/InventoryModal.tsx:81-102 | likewise for sticks and the torch |
| InventoryModal.SquareProbes | components/ui/InventoryModal.tsx:81-102 | likewise for the crafting table |
| InventoryModal.SwordProbes | components/ui/InventoryModal.tsx:81-102 | likewise for the sword |
| InventoryModal.FenceProbes | components/ui/InventoryModal.tsx:81-102 | likewise for the fence |
| InventoryModal.StairProbes | components/ui/InventoryModal.tsx:81-102 | likewise for the two stairs |
| InventoryModal.MatchProbes | components/ui/InventoryModal.tsx:81-102 | wherever any recipe matches, the grid shows that recipe's probes |
| InventoryModal.AtMostOneRecipe | components/ui/InventoryModal.tsx:71-110 | no two recipes both apply to one grid, so table order never decides the output |
| InventoryModal.ProbesApart | data/recipes.ts:13-78 | the recipes a mode considers show pairwise different probes |
| InventoryModal.CraftedFrom | components/ui/InventoryModal.tsx:71-111 | from any index on, nothing is found exactly when no later recipe applies, and what is found is the output of one that does |
| InventoryModal.Crafted | components/ui/InventoryModal.tsx:71-111 | the output of the first considered recipe that matches at some offset; CraftedFrom, CraftedMeaning and AtMostOneRecipe state what it finds |
| InventoryModal.CraftedMeaning | components/ui/InventoryModal.tsx:67-114 | the output slot is empty exactly when no recipe applies, and otherwise holds the output of one that does |
| InventoryModal.CraftedReaches | components/ui/InventoryModal.tsx:71-107 | when a recipe applies, the search reaches it and returns its output |
| InventoryModal.CraftsDrawnRecipe | components/ui/InventoryModal.tsx:67-114 | a recipe drawn at any offset crafts its output whatever the stack counts |
| InventoryModal.SlotClickConserves | components/ui/InventoryModal.tsx:124-167 | a slot click conserves every item between hand and slot and keeps both well formed |
| InventoryModal.SlotClick | components/ui/InventoryModal.tsx:119-168 | the slot click rules for every held and clicked case (SlotClickConserves) |
| InventoryModal.ClickSlot | components/ui/InventoryModal.tsx:119-168 | handleSlotClick on a grid or hotbar slot: both rows keep their length and only the clicked slot changes; ClickSlotConserves adds that every item is conserved |
| InventoryModal.ClickSlotConserves | components/ui/InventoryModal.tsx:119-168 | a click changes only the clicked slot and the hand, and conserves every item across grid, hotbar and hand |
| InventoryModal.CreativeClick | components/ui/InventoryModal.tsx:170-183 | handleCreativeItemClick: the hand takes a full stack of the clicked item, and a held stack, if any, is handed back; CreativeClickReturnsHeld states that it is handed back whole |
| InventoryModal.CreativeClickReturnsHeld | components/ui/InventoryModal.tsx:170-183 | the hand takes a full stack of the item and everything held before goes back to the inventory |
| InventoryModal.Consumed | components/ui/InventoryModal.tsx:192-200 | consuming keeps the grid's length |
| InventoryModal.ConsumedTakesOne | components/ui/InventoryModal.tsx:193-200 | crafting takes exactly one unit from every occupied slot and keeps the grid well formed |
| InventoryModal.TakeOutput | components/ui/InventoryModal.tsx:185-208 | when the output can be taken the grid is consumed and the hand gains the output; otherwise nothing changes |
| InventoryModal.TakeOutputAddsToHand | components/ui/InventoryModal.tsx:203-207 | the hand gains exactly the output's units and stays within its limit |
| InventoryModal.OccupiedKeepsItems | components/ui/InventoryModal.tsx:48-50 | the occupied slots hold every item of the row and nothing else |
| InventoryModal.Close | components/ui/InventoryModal.tsx:42-53 | the held stack then every occupied slot is handed back in order, and the grid is left empty at the mode's size |
| InventoryModal.CloseReturnsEverything | components/ui/InventoryModal.tsx:42-53 | the stacks handed back hold every item of the hand and the grid (whether the hotbar takes them is not checked) |
| App.AddItem | App.tsx:656-694 | the hotbar becomes the two-pass result and the answer is whether every unit fitted |
| App.AddStack | App.tsx:660-684 | the two passes of handleAddItem; AddStackKeepsUnits, AddStackSlots, AddStackOrder and FullHotbarTakesNothing state what it does |
| App.TopUpKeepsUnits | App.tsx:663-672 | the stacking pass keeps every unit it takes, never takes more than remains, and keeps slots well formed |
| App.TopUpSlots | App.tsx:663-672 | the stacking pass only raises slots of the item up to the limit, and leaves units over only when they are all full |
| App.FillEmptyKeepsUnits | App.tsx:674-684 | the empty-slot pass keeps every unit it takes and keeps slots well formed |
| App.FillEmptySlots | App.tsx:674-684 | the empty-slot pass only fills empty slots with the item, at most the limit each, and leaves units over only when none is empty |
| App.AddStackKeepsUnits | App.tsx:656-694 | adding keeps every unit, in the hotbar or in the remainder |
| App.AddStackSlots | App.tsx:656-694 | adding touches only slots of the item and empty ones and leaves no stack of the item above its limit |
| App.AddStackOrder | App.tsx:663-684 | partial stacks fill before empty slots, and something remains only when every slot is another item or a full stack |
| App.FullHotbarTakesNothing | App.tsx:656-694 | a hotbar in which every slot holds another item or a full stack of this one is unchanged and every unit remains |
| App.ConsumeActive | App.tsx:729-740 | handleConsumeItem: the hotbar keeps its length and every slot but the active one; ConsumeTakesOne states the one unit taken |
| App.ConsumeTakesOne | App.tsx:729-740 | using an item takes exactly one unit of the active slot, emptying it at zero, and nothing else |
| App.DropActive | App.tsx:704-727 | handleDropItem: only the active slot changes, a drop is that slot's item, and with nothing dropped the hotbar is unchanged; DropMovesOne states the one unit moved |
| App.DropMovesOne | App.tsx:704-727 | dropping moves exactly one unit of the active item out of the hotbar, and does nothing on an empty slot |
| App.LootTable | App.tsx:742-787 | the drops of every block type, including the chance rolls of leaves and plant cover |
| App.Loot | App.tsx:742-787 | the drops of a broken block with its chance rolls (LootTable) |
| App.LootRenamed | App.tsx:752-753 | grass drops dirt and stone drops cobblestone |
| App.LootNothing | App.tsx:759-771 | glass and either top-half door state drop nothing |
| App.LootCrops | App.tsx:764-768 | ripe wheat drops wheat then seeds, and the three young stages drop seeds |
| App.LootBed | App.tsx:772-774 | every bed part drops the bed item |
| App.LootLeaves | App.tsx:754-758 | leaves drop seeds when the first roll is under 0.1, else a stick when the second is under 0.05, else nothing |
| App.LootPlantCover | App.tsx:760-763 | tall grass and flowers drop seeds when the roll is under 0.2, else nothing |
| App.LootItself | App.tsx:748-786 | any other block drops itself |
| App.WakeAtSunrise | App.tsx:156-163 | waking lands exactly on the start of a cycle and moves the offset forward by at most one cycle |
| App.WakeLandsOnStart | App.tsx:156-163 | after waking the cycle position is exactly 0 |
| App.WakeMovesAtMostACycle | App.tsx:156-163 | for a non-negative game time the offset grows by more than nothing and at most one cycle |
| App.CycleFraction | App.tsx:151 | for a non-negative game time the cycle position is a fraction in [0, 1) |
| App.TrySleep | App.tsx:142-168 | the answer of trySleep: host-only, not night, or asleep (WakeAtSunrise, NoSleepAtSunrise) |
| App.UpdateChunkVersions | App.tsx:566-577 | the versions become the bumped map, and the state is replaced exactly when keys were given |
| App.BumpedCounts | App.tsx:568-575 | every listed chunk's version grows by the number of times it is listed, and nothing else changes |
| App.NoSleepAtSunrise | App.tsx:142-168 | right after waking a second sleep attempt is refused, since sunrise is outside the night window |
| CropSystem.SurveyGrows | components/CropSystem.tsx:26-36 | every update advances a growable crop of the overlay by one stage, and one number is drawn per growable crop |
| CropSystem.Survey | components/CropSystem.tsx:21-36 | the scan over the overlay collecting growth and chunks; SurveyGrows, SurveyChunks and SurveyChooses state its result |
| CropSystem.SurveyChunks | components/CropSystem.tsx:31-33 | the chunks reported are exactly those of the updated cells, each once, and none when nothing grew |
| CropSystem.SurveyChunksListed | components/CropSystem.tsx:31-33 | the chunk of every updated cell is reported, each chunk once, and none when nothing grew |
| CropSystem.SurveyChunkSource | components/CropSystem.tsx:31-33 | every reported chunk holds a cell that grew |
| CropSystem.SurveyChooses | components/CropSystem.tsx:27-30 | a growable crop grows exactly when its number is below 0.10 |
| CropSystem.GrowthKeepsEntries | components/CropSystem.tsx:38-41 | writing the growth back adds no key and moves only growable crops, by one stage at most |
| CropSystem.CollectGrowth | components/CropSystem.tsx:21-36 | the scan loop collects the survey's updates and chunks |
| CropSystem.Crops.constructor | components/CropSystem.tsx:13 | the last tick starts at time 0 |
| CropSystem.Crops.Frame | components/CropSystem.tsx:15-45 | a tick runs exactly more than a second after the last, writes the survey's growth, and reports chunks exactly when something grew |
| Pathfinder.Manhattan | engine/ai/Pathfinder.ts:14-16 | the distance is non-negative and zero exactly between equal points |
| Pathfinder.NeighboursAreUnitSteps | engine/ai/Pathfinder.ts:65-69 | the six directions are exactly the unit steps along one axis |
| Pathfinder.DirOf | engine/ai/Pathfinder.ts:65-69 | every unit step is one of the six directions |
| Pathfinder.ReachMeans | engine/ai/Pathfinder.ts:54 | the goal test accepts exactly the cells sharing a face or an edge with the goal, and the goal itself |
| Pathfinder.WalkStaysInside | engine/ai/Pathfinder.ts:42-106 | a walk that starts in a set no legal move leaves stays in it |
| Pathfinder.LineageLast | engine/ai/Pathfinder.ts:55-61 | the start node ends a lineage, and any other node extends its parent's |
| Pathfinder.LineageIsWalk | engine/ai/Pathfinder.ts:55-101 | a node's lineage is a walk of legal moves from the start to its cell, one longer than its cost |
| Pathfinder.ReversedSnoc | engine/ai/Pathfinder.ts:61 | reversing a sequence with one more element puts it first |
| Pathfinder.Trace | engine/ai/Pathfinder.ts:55-61 | the path read back and reversed is the node's lineage |
| Pathfinder.FindOpen | engine/ai/Pathfinder.ts:89 | the index of the first open node at the cell, or -1 exactly when none is there |
| Pathfinder.Lowest | engine/ai/Pathfinder.ts:45-50 | the first open node of least f |
| Pathfinder.Pop | engine/ai/Pathfinder.ts:45-52 | the least-f node leaves the open list, its cell is closed, and every other open cell stays open |
| Pathfinder.SpliceKeepsOpen | engine/ai/Pathfinder.ts:51-52 | splicing an entry out and closing its cell keeps the open list well formed |
| Pathfinder.PopKeepsFrontier | engine/ai/Pathfinder.ts:51-52 | closing the popped cell keeps every other closed cell expanded |
| Pathfinder.Relax | engine/ai/Pathfinder.ts:71-103 | one direction keeps the search invariant and leaves an open node at a legal unclosed neighbour with cost at most one more |
| Pathfinder.Improve | engine/ai/Pathfinder.ts:88-101 | a new node is opened or the open one gets the cheaper route, keeping the search invariant |
| Pathfinder.CanEnter | engine/ai/Pathfinder.ts:77-86 | a neighbour is enterable exactly when body and head are clear and, unless climbing, the ground is solid |
| Pathfinder.UpdateKeepsSearching | engine/ai/Pathfinder.ts:95-98 | rerouting an open node through the current node keeps the search invariant |
| Pathfinder.PushKeepsSearching | engine/ai/Pathfinder.ts:99-101 | pushing a node at a cell no open node holds keeps the search invariant |
| Pathfinder.FindPath | engine/ai/Pathfinder.ts:25-107 | with no step budget there is no path; a start already within reach gives the one-cell path; a returned path is no longer than the rounds spent, starts at the rounded start, ends within reach of the rounded end and is a walk of legal moves; null before the step limit means no walk reaches the goal |
| Pathfinder.Expand | engine/ai/Pathfinder.ts:71-103 | relaxing all six directions keeps the search invariant and leaves every closed cell expanded |
| Pathfinder.ExpandedNext | engine/ai/Pathfinder.ts:71-103 | one more relaxed direction extends the expansion |
| Pathfinder.ExpandedGrows | engine/ai/Pathfinder.ts:71-103 | an expansion stays recorded as the open list grows |
| TorchLightSystem.CandidatesExact | components/TorchLightSystem.tsx:26-41 | exactly the qualifying torch entries become candidates, each with its own light position and squared distance |
| TorchLightSystem.CandidatesSound | components/TorchLightSystem.tsx:26-41 | every candidate is the light and squared distance of a qualifying torch entry |
| TorchLightSystem.CandidatesComplete | components/TorchLightSystem.tsx:26-41 | every qualifying torch entry yields its candidate |
| TorchLightSystem.InsertKeeps | components/TorchLightSystem.tsx:44 | inserting keeps every candidate and adds the new one |
| TorchLightSystem.InsertNoFarther | components/TorchLightSystem.tsx:44 | inserting a candidate within a bound keeps every candidate within it |
| TorchLightSystem.InsertSorted | components/TorchLightSystem.tsx:44 | inserting into a sorted list keeps it sorted |
| TorchLightSystem.SortFacts | components/TorchLightSystem.tsx:44 | sorting orders the candidates nearest first and is a permutation |
| TorchLightSystem.Positions | components/TorchLightSystem.tsx:47 | the mapped list holds each candidate's position in order |
| TorchLightSystem.SortedCandidates | components/TorchLightSystem.tsx:26-44 | the sorted candidates are nearest first, each a torch light with its own distance, and every qualifying torch is among them |
| TorchLightSystem.SelectionNearest | components/TorchLightSystem.tsx:43-47 | at most ten lights, each a torch light within the render radius, nearest first |
| TorchLightSystem.Selected | components/TorchLightSystem.tsx:26-47 | the positions of the ten nearest qualifying torches (SelectionNearest, SelectionLeavesOutFarther) |
| TorchLightSystem.SelectionLeavesOutFarther | components/TorchLightSystem.tsx:43-47 | a qualifying torch is left out only when ten lights no farther than it were kept |
| TorchLightSystem.CornerTestSkipsNearTorch | components/TorchLightSystem.tsx:32-37 | the quick test on the cell corner skips a torch whose light is within the render radius |
| TorchLightSystem.CollectCandidates | components/TorchLightSystem.tsx:22-41 | the scan loop collects exactly the candidates |
| TorchLightSystem.TorchLights.constructor | components/TorchLightSystem.tsx:12-13 | no lights and no refresh yet |
| TorchLightSystem.TorchLights.Frame | components/TorchLightSystem.tsx:15-53 | a refresh runs exactly 0.2 s after the last, the lights become the selection, and the list is replaced exactly when it differs |
| TerrainView.VisibleChunks | components/Terrain.tsx:40-47 | the list holds each chunk of the disc once, in the loop's order |
| TerrainView.IncreasingNoDup | components/Terrain.tsx:41-47 | a list in the loop's order has no repeats |
| TerrainView.IncreasingUnique | components/Terrain.tsx:41-47 | two lists of the same chunks, both in the loop's order, are equal, so the disc determines the list |
| TerrainView.OwnChunkListed | components/Terrain.tsx:41-47 | the player's own chunk is listed for a non-negative distance |
| TerrainView.DiscSymmetric | components/Terrain.tsx:41-43 | the disc is symmetric under negating either offset |
| TerrainView.CircleImpliesSquare | components/Terrain.tsx:41-43 | a chunk is listed exactly when x² + z² ≤ r², the square bound being implied |
| TerrainView.SquareGrows | components/Terrain.tsx:41-43 | an offset beyond r has a square beyond r² |
| TerrainView.MaxDistSq | components/Terrain.tsx:52-54 | the squared culling distance is non-negative |
| TerrainView.DrawnMeaning | components/Terrain.tsx:59-75 | exactly the listed chunks whose centre is near enough are drawn, in list order |
| TerrainView.Drawn | components/Terrain.tsx:59-75 | the listed chunks left after culling (DrawnMeaning, OwnChunkDrawn) |
| TerrainView.OwnChunkDrawn | components/Terrain.tsx:52-72 | the camera's own chunk is never culled when the render distance is at least one |
| TerrainView.InsideBound | components/Terrain.tsx:70 | offsets of at most h on two axes stay under any bound above 2h² |
| TerrainView.CullingReachesHalfChunks | components/Terrain.tsx:52-54 | the culling distance covers two half chunks squared |
| TerrainView.HalfChunk | components/Terrain.tsx:63-67 | a coordinate is within half a chunk of its own chunk's centre |
| TerrainView.WithinOneStep | components/Terrain.tsx:30-31 | a coordinate lies in the step that its floor quotient names |
| TerrainView.ChunkList.constructor | components/Terrain.tsx:21-22 | no chunk recorded and no chunks listed |
| TerrainView.ChunkList.Frame | components/Terrain.tsx:24-50 | without a player nothing happens; otherwise the list is rebuilt exactly when the chunk or the distance changed, as the disc around the player's chunk |
| ItemDropManager.NewItem | components/ItemDropManager.tsx:85-95 | the new item has the given uid, type, position and time, velocity 6·direction plus 3 upward, and the registry entry's look when there is one (a white block otherwise) |
| ItemDropManager.FallMeaning | components/ItemDropManager.tsx:113-140 | a landing item rests 0.25 above the top of the cell it landed on with velocity (0.6·vx, −0.5·vy, 0.6·vz) of the dragged velocity, bouncing up no faster than it fell; any other item moves by its dragged velocity |
| ItemDropManager.Fall | components/ItemDropManager.tsx:113-140 | one frame of item physics: drag and gravity, then land or move (FallMeaning, FallKeepsIdentity) |
| ItemDropManager.FallKeepsIdentity | components/ItemDropManager.tsx:113-140 | physics keeps an item's identity, kind and creation time |
| ItemDropManager.Sweep | components/ItemDropManager.tsx:112-162 | one fate per item, and onPickup asked at most once per item |
| ItemDropManager.Kinds | components/ItemDropManager.tsx:148 | the kinds of the items, in order |
| ItemDropManager.Falls | components/ItemDropManager.tsx:113-140 | every item after one frame of physics |
| ItemDropManager.SweepSelects | components/ItemDropManager.tsx:112-162 | the kept items are exactly the fallen items kept, in order, and the kinds picked up are those of the items picked up |
| ItemDropManager.SweepPrefix | components/ItemDropManager.tsx:112-162 | an item's fate depends only on the items before it |
| ItemDropManager.ItemFate | components/ItemDropManager.tsx:142-161 | an item is picked up exactly when onPickup is asked and accepts, despawns exactly when it is not picked up and has expired, and is kept otherwise |
| ItemDropManager.YoungNeverPicked | components/ItemDropManager.tsx:145-153 | an item younger than a second is never picked up and onPickup is not asked about it |
| ItemDropManager.SelectPartition | components/ItemDropManager.tsx:112-162 | the fates split the list: nothing is lost or made up |
| ItemDropManager.Move | components/ItemDropManager.tsx:113-140 | the physics step of the loop body is the fall |
| ItemDropManager.UpdateItems | components/ItemDropManager.tsx:104-163 | the loop yields the kept items and the kinds picked up, and flags an update exactly when some item left |
| ItemDropManager.DroppedItems.constructor | components/ItemDropManager.tsx:76-77 | no items |
| ItemDropManager.DroppedItems.DropItem | components/ItemDropManager.tsx:85-99 | one new item is appended and the others are kept |
| ItemDropManager.DroppedItems.Frame | components/ItemDropManager.tsx:102-168 | an empty list stays as it is; otherwise the list becomes the kept items, with the time step capped at 0.05, and a change is reported exactly when an item left |
| FishingSystem.NextBite | components/FishingSystem.tsx:68-92 | the next bite is due three to eight seconds later |
| FishingSystem.FrameMoves | components/FishingSystem.tsx:56-94 | a frame never stows or casts the rod; a cast lands in the water, a bite starts when due, and a bite ends when its time is up |
| FishingSystem.NextState | components/FishingSystem.tsx:64-94 | the state a frame moves to (FrameMoves) |
| FishingSystem.AfterTrigger | components/FishingSystem.tsx:36-49 | idle casts, anything else reels in, and a fish is caught exactly when reeling in during a bite |
| FishingSystem.Fly | components/FishingSystem.tsx:61-63 | the flight step computes the bobber's flight |
| FishingSystem.Flight | components/FishingSystem.tsx:61-63 | gravity, drag and one step of the bobber's flight (Fly) |
| FishingSystem.Buoyed | components/FishingSystem.tsx:71-73 | under water the bobber is pushed upward against the water drag |
| FishingSystem.Jittered | components/FishingSystem.tsx:87-89 | during a bite the bobber bobs around 0.3 below the water level and twitches by at most 0.025 sideways |
| FishingSystem.Fishing.constructor | components/FishingSystem.tsx:28-32 | idle, with everything at zero |
| FishingSystem.Fishing.Trigger | components/FishingSystem.tsx:36-49 | the state follows the trigger; a cast throws the bobber from 1.2 above the player at twelve along the facing plus four upward |
| FishingSystem.Fishing.Frame | components/FishingSystem.tsx:52-97 | the rod tip follows the player; the state moves as the frame rules say, rescheduling bites three to eight seconds out and ending a bite a second and a half after it began |

## Left out

- Rendering: React components, meshes, materials, the cast line and the debug visuals are not modelled; only the state they read or write is.
- The multiplayer broadcast of block changes and the toasts are not modelled; an operation returns them as effects where the source emits them.
- Camera and player orientation (quaternions, raycasts) are parameters: the facing vector, the hit cell and face normal come in as inputs.
- `Math.random`, the clock and `performance.now` are parameters (`roll`, `accept`, `jitterX`, `jitterZ`, `time`, `now`).
- Simplex noise is a parameter `noise`; `Math.sin` is the abstract function `Common.Sin`; floating point is modelled with exact reals.
- Block ids are abstract constants with only the adjacency and distinctness facts the code relies on; of an item definition only the optional `maxStack` is kept (`Blocks.DECLARED_MAX_STACK`); no registry entry sets it, so `MaxStack` is 64 for every item, as `def?.maxStack || 64` gives in the program.
- The pathfinder's node objects are kept as indices into a sequence of nodes; the open list is a sequence.
- PhysicsSystem.AabbPool.Get: boxes are values, so the aliasing of pooled objects is not captured (in the source, once more than 1000 boxes are handed out in one step, earlier ones are overwritten).
- App.AddItem: the source mutates stack objects shared with the previous state through a shallow copy; stacks are values here, so that sharing is not captured.
- InventoryModal.TakeOutput: the same shallow-copy sharing of grid stacks is not captured.
- TorchLightSystem.TorchLights.Frame: the comparison against the current light list uses the list as the frame sees it; a stale closure value in the source is not modelled.
- InteractionController.HandleRadiusBreak: the outcome is stated at the level of what each cell reads as, not of raw overlay entries.
- FishingSystem.Fishing.Frame: the bobber's position outside the biting state and its velocity are computed but not stated in the contract, including the small height correction while waiting.
- Closing the crafting grid does not look at whether the hotbar took the returned stacks: what does not fit is lost (`App.FullHotbarTakesNothing` shows a hotbar that takes nothing). The model states what is handed back, not where it ends up.
- The render distance is an integer.
- Sort stability of `Array.prototype.sort` is not relied on: the torch selection is proved sorted and nearest, not a particular order among equal distances.
