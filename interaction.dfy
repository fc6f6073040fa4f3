/** Tapping and radius-breaking blocks: what a tap does to the block under
    the cursor (toggle a door, sleep in a bed, open a crafting table, place
    the held item, or break the block), the 3×3×3 radius break with its
    precise bed removal, and the cells both hand to the water queue.

    The raycast is an input: the first terrain hit as a point and the face
    normal. The player's facing is the horizontal part (fx, fz) of the
    rotated forward vector. The handlers' callbacks are returned as a list
    of effects in call order. */
module InteractionController {
  import opened Common
  import opened Config
  import opened Blocks
  import opened WorldGen
  import opened WaterSystem

  /** The callbacks a handler invokes, in call order. */
  datatype Effect =
    | Sleep
    | OpenCraftingTable
    | DropItem(id: int, x: int, y: int, z: int)
    | Placed
    | ChunksUpdated(keys: seq<ChunkKey>)

  /** The first terrain hit under the cursor: the point and its face's normal. */
  datatype Hit = Hit(px: real, py: real, pz: real, nx: real, ny: real, nz: real)

  /** The overlay, the water queue and the affected chunks while an edit runs. */
  datatype Edit = Edit(blocks: map<Coord, int>, pending: seq<Coord>, chunks: seq<ChunkKey>)

  /** What a handler leaves behind: the overlay, the water queue, the callbacks. */
  datatype Reaction = Reaction(blocks: map<Coord, int>, pending: seq<Coord>, effects: seq<Effect>)

  /** `ALL_NEIGHBORS`: the six face neighbours, in the order they are visited. */
  const ALL_NEIGHBORS: seq<Coord> := [(1, 0, 0), (-1, 0, 0), (0, 1, 0), (0, -1, 0), (0, 0, 1), (0, 0, -1)]

  function Shift(q: Coord, d: Coord): Coord
  {
    (q.0 + d.0, q.1 + d.1, q.2 + d.2)
  }

  /** `getBlock` at an integer cell. */
  function At(blocks: map<Coord, int>, terrain: Terrain, q: Coord): int
  {
    Read(blocks, terrain, q.0, q.1, q.2)
  }

  /** Two cells that share a face. */
  predicate Adjacent(q: Coord, n: Coord)
  {
    Abs(n.0 - q.0) + Abs(n.1 - q.1) + Abs(n.2 - q.2) == 1
  }

  /** A cell a seed, a door's top half or a bed's head may go into. */
  predicate Open(t: int)
  {
    t == AIR || IsWater(t)
  }

  // ------------------------------------------------------------- the hit

  /** The block behind the face: the hit point moved half a block against the normal. */
  function BreakCell(h: Hit): Coord
  {
    (Round(h.px - h.nx * 0.5), Round(h.py - h.ny * 0.5), Round(h.pz - h.nz * 0.5))
  }

  /** The cell in front of the face: the hit point moved half a block along the normal. */
  function PlaceCell(h: Hit): Coord
  {
    (Round(h.px + h.nx * 0.5), Round(h.py + h.ny * 0.5), Round(h.pz + h.nz * 0.5))
  }

  /** The unrounded break point is more than 10 from the player. */
  predicate OutOfReach(h: Hit, p: Point)
  {
    var dx, dy, dz := h.px - h.nx * 0.5 - p.x, h.py - h.ny * 0.5 - p.y, h.pz - h.nz * 0.5 - p.z;
    dx * dx + dy * dy + dz * dz > 100.0
  }

  /** A block placed at `q` would overlap the player's body. */
  predicate InsidePlayer(q: Coord, p: Point)
  {
    && AbsR(q.0 as real - p.x) < 0.6 && AbsR(q.2 as real - p.z) < 0.6
    && q.1 as real - p.y > -1.5 && q.1 as real - p.y < 1.0
  }

  /** A hit on the face of cell `c` whose outward normal is the unit step `n`
      breaks `c` and places into the neighbour `c + n`. */
  lemma FaceCells(h: Hit, c: Coord, n: Coord)
    requires n in ALL_NEIGHBORS
    requires h.nx == n.0 as real && h.ny == n.1 as real && h.nz == n.2 as real
    requires -0.5 <= h.px - h.nx * 0.5 - c.0 as real < 0.5
    requires -0.5 <= h.py - h.ny * 0.5 - c.1 as real < 0.5
    requires -0.5 <= h.pz - h.nz * 0.5 - c.2 as real < 0.5
    ensures BreakCell(h) == c && PlaceCell(h) == Shift(c, n)
  {
  }

  // ------------------------------------------------------------- doors

  /** The door family by half and state, in the order B, T, BO, TO. */
  function DoorType(top: bool, open: bool): int
  {
    DOOR_BOTTOM + (if top then 1 else 0) + (if open then 2 else 0)
  }

  /** The overlay after a tap on door half `t` at `q`: both halves are
      written with the opposite open state. */
  function ToggleDoor(blocks: map<Coord, int>, q: Coord, t: int): map<Coord, int>
  {
    var isBottom := t == DOOR_BOTTOM || t == DOOR_BOTTOM_OPEN;
    var isOpen := t == DOOR_BOTTOM_OPEN || t == DOOR_TOP_OPEN;
    var bottomY := if isBottom then q.1 else q.1 - 1;
    var topY := if isBottom then q.1 + 1 else q.1;
    var newBottom := if isOpen then DOOR_BOTTOM else DOOR_BOTTOM_OPEN;
    var newTop := if isOpen then DOOR_TOP else DOOR_TOP_OPEN;
    blocks[(q.0, bottomY, q.2) := newBottom][(q.0, topY, q.2) := newTop]
  }

  /** A tap on either half writes the bottom half at the tapped cell or one
      below it, the top half one above that, both in the flipped state, and
      nothing else. */
  lemma DoorTapFlips(blocks: map<Coord, int>, q: Coord, top: bool, open: bool)
    ensures var bottom := if top then (q.0, q.1 - 1, q.2) else q;
      var r := ToggleDoor(blocks, q, DoorType(top, open));
      && r[bottom] == DoorType(false, !open)
      && r[Shift(bottom, (0, 1, 0))] == DoorType(true, !open)
      && r.Keys == blocks.Keys + {bottom, Shift(bottom, (0, 1, 0))}
      && forall c :: c in blocks && c != bottom && c != Shift(bottom, (0, 1, 0)) ==> r[c] == blocks[c]
  {
  }

  /** Tapping a door twice at the same cell restores every cell's block,
      provided both halves were in the same state. */
  lemma DoorToggleTwice(blocks: map<Coord, int>, terrain: Terrain, q: Coord, top: bool, open: bool)
    requires TargetIdsApart()
    requires At(blocks, terrain, q) == DoorType(top, open)
    requires At(blocks, terrain, Shift(q, if top then (0, -1, 0) else (0, 1, 0))) == DoorType(!top, open)
    ensures var once := ToggleDoor(blocks, q, DoorType(top, open));
      var twice := ToggleDoor(once, q, At(once, terrain, q));
      forall c :: At(twice, terrain, c) == At(blocks, terrain, c)
  {
    var once := ToggleDoor(blocks, q, DoorType(top, open));
    DoorTapFlips(blocks, q, top, open);
    assert At(once, terrain, q) == DoorType(top, !open);
    DoorTapFlips(once, q, top, !open);
  }

  // ---------------------------------------------------- facing and variants

  /** The direction index 0..3 (north -z, east +x, south +z, west -x) of
      the larger horizontal component of the facing; ties go to z. */
  function Facing(fx: real, fz: real): (d: nat)
    ensures d < 4
  {
    if AbsR(fx) > AbsR(fz) then (if fx > 0.0 then 1 else 3)
    else (if fz > 0.0 then 2 else 0)
  }

  /** The unit step (dx, dz) of a direction index. */
  function DirOffset(d: nat): (int, int)
    requires d < 4
  {
    [(0, -1), (1, 0), (0, 1), (-1, 0)][d]
  }

  /** The chosen direction is the cardinal step closest to the facing: its
      dot product with the facing is the larger of |fx| and |fz|. */
  lemma FacingAlongDominantAxis(fx: real, fz: real)
    ensures var (dx, dz) := DirOffset(Facing(fx, fz));
      && dx * dx + dz * dz == 1
      && dx as real * fx + dz as real * fz == MaxR(AbsR(fx), AbsR(fz))
  {
  }

  /** The stair written for a held wooden or cobblestone stair item. */
  function StairVariant(item: int, fx: real, fz: real): (t: int)
    ensures item == STAIR ==> IsWoodStair(t)
    ensures item != STAIR ==> IsCobbleStair(t)
  {
    (if item == STAIR then STAIR_NORTH else COBBLESTONE_STAIR_NORTH) + Facing(fx, fz)
  }

  /** The torch written for a face normal. */
  function TorchVariant(nx: real, ny: real, nz: real): (t: int)
    ensures IsTorch(t)
  {
    if ny > 0.5 then TORCH
    else if nx > 0.5 then TORCH_WEST
    else if nx < -0.5 then TORCH_EAST
    else if nz > 0.5 then TORCH_NORTH
    else if nz < -0.5 then TORCH_SOUTH
    else TORCH
  }

  /** On the six faces of a block: a standing torch on the top and the
      bottom, and on a side face a torch mounted against the block it was
      placed on. */
  lemma TorchOnFaces()
    ensures TorchVariant(0.0, 1.0, 0.0) == TORCH && TorchVariant(0.0, -1.0, 0.0) == TORCH
    ensures TorchVariant(1.0, 0.0, 0.0) == TORCH_WEST && TorchVariant(-1.0, 0.0, 0.0) == TORCH_EAST
    ensures TorchVariant(0.0, 0.0, 1.0) == TORCH_NORTH && TorchVariant(0.0, 0.0, -1.0) == TORCH_SOUTH
  {
  }

  // ---------------------------------------------------------------- beds

  /** From a bed half: the (dx, dz) step to the other half and the type it should hold. */
  function BedPartner(t: int): (int, int, int)
    requires IsBed(t)
  {
    if IsBedFoot(t) then
      var dir := t - BED_FOOT_NORTH;
      var (dx, dz) :=
        if dir == 0 then (0, -1) else if dir == 1 then (1, 0)
        else if dir == 2 then (0, 1) else if dir == 3 then (-1, 0) else (0, 0);
      (dx, dz, BED_HEAD_NORTH + dir)
    else
      var dir := t - BED_HEAD_NORTH;
      var (dx, dz) :=
        if dir == 0 then (0, 1) else if dir == 1 then (-1, 0)
        else if dir == 2 then (0, -1) else if dir == 3 then (1, 0) else (0, 0);
      (dx, dz, BED_FOOT_NORTH + dir)
  }

  /** The break offsets invert the placement offsets: from the foot of a bed
      placed in direction d the partner is the head one step along d, and
      from the head it is the foot one step back. */
  lemma BedPartnerInverse(d: nat)
    requires d < 4
    ensures var (dx, dz) := DirOffset(d);
      && BedPartner(BED_FOOT_NORTH + d) == (dx, dz, BED_HEAD_NORTH + d)
      && BedPartner(BED_HEAD_NORTH + d) == (-dx, -dz, BED_FOOT_NORTH + d)
  {
  }

  /** The precise bed break: the tapped half becomes AIR, and so does the
      partner cell if it holds the matching half. Returns the overlay and
      the affected chunks. */
  function BedBreak(blocks: map<Coord, int>, terrain: Terrain, q: Coord, t: int): (map<Coord, int>, seq<ChunkKey>)
    requires IsBed(t)
  {
    var cleared := blocks[q := AIR];
    var (dx, dz, target) := BedPartner(t);
    var other := (q.0 + dx, q.1, q.2 + dz);
    if At(cleared, terrain, other) == target then (cleared[other := AIR], Add([ChunkOf(q)], ChunkOf(other)))
    else (cleared, [ChunkOf(q)])
  }

  /** Breaking either half of a bed as it was placed clears both halves and nothing else. */
  lemma BedBreakClearsBoth(blocks: map<Coord, int>, terrain: Terrain, p: Coord, d: nat, atHead: bool)
    requires TargetIdsApart() && d < 4
    ensures var (dx, dz) := DirOffset(d);
      var head := (p.0 + dx, p.1, p.2 + dz);
      var placed := blocks[p := BED_FOOT_NORTH + d][head := BED_HEAD_NORTH + d];
      var q := if atHead then head else p;
      BedBreak(placed, terrain, q, placed[q]).0 == placed[p := AIR][head := AIR]
  {
    var (dx, dz) := DirOffset(d);
    var head := (p.0 + dx, p.1, p.2 + dz);
    var placed := blocks[p := BED_FOOT_NORTH + d][head := BED_HEAD_NORTH + d];
    BedPartnerInverse(d);
    if atHead {
      assert placed[head] == BED_HEAD_NORTH + d;
      var cleared := placed[head := AIR];
      assert At(cleared, terrain, p) == BED_FOOT_NORTH + d;
      assert cleared[p := AIR] == placed[p := AIR][head := AIR];
    } else {
      assert placed[p] == BED_FOOT_NORTH + d;
      var cleared := placed[p := AIR];
      assert At(cleared, terrain, head) == BED_HEAD_NORTH + d;
    }
  }

  // ---------------------------------------------------- breaking a cell

  /** The neighbour loop after a cell is cleared, over the first `i`
      neighbours: a neighbour holding water (as the overlay now reads) is
      queued, and every neighbour's chunk is marked. */
  function Wake(e: Edit, terrain: Terrain, q: Coord, i: nat): (r: Edit)
    requires i <= |ALL_NEIGHBORS|
    ensures r.blocks == e.blocks
  {
    if i == 0 then e
    else
      var r0 := Wake(e, terrain, q, i - 1);
      var n := Shift(q, ALL_NEIGHBORS[i - 1]);
      Edit(r0.blocks,
           if IsWater(At(r0.blocks, terrain, n)) then Add(r0.pending, n) else r0.pending,
           Add(r0.chunks, ChunkOf(n)))
  }

  /** Breaking one cell: it becomes AIR, its chunk is marked, then its neighbours are woken. */
  function BreakOne(e: Edit, terrain: Terrain, q: Coord): Edit
  {
    Wake(Edit(e.blocks[q := AIR], e.pending, Add(e.chunks, ChunkOf(q))), terrain, q, |ALL_NEIGHBORS|)
  }

  /** Each of the six offsets leads to a face neighbour. */
  lemma NeighbourIsAdjacent(q: Coord, k: nat)
    requires k < |ALL_NEIGHBORS|
    ensures Adjacent(q, Shift(q, ALL_NEIGHBORS[k]))
  {
  }

  /** One more neighbour woken. */
  lemma WakeStep(e: Edit, terrain: Terrain, q: Coord, i: nat)
    requires i < |ALL_NEIGHBORS|
    ensures var r0 := Wake(e, terrain, q, i);
      var n := Shift(q, ALL_NEIGHBORS[i]);
      Wake(e, terrain, q, i + 1)
        == Edit(e.blocks,
                if IsWater(At(e.blocks, terrain, n)) then Add(r0.pending, n) else r0.pending,
                Add(r0.chunks, ChunkOf(n)))
  {
  }

  /** Waking keeps the queue's entries and its lack of repeats. */
  lemma {:induction false} WakeKeeps(e: Edit, terrain: Terrain, q: Coord, i: nat)
    requires i <= |ALL_NEIGHBORS|
    ensures var r := Wake(e, terrain, q, i);
      && (forall n :: n in e.pending ==> n in r.pending)
      && (NoDup(e.pending) ==> NoDup(r.pending))
  {
    if i > 0 {
      WakeKeeps(e, terrain, q, i - 1);
      var r0 := Wake(e, terrain, q, i - 1);
      var n := Shift(q, ALL_NEIGHBORS[i - 1]);
      if IsWater(At(r0.blocks, terrain, n)) && NoDup(r0.pending) {
        AddKeepsNoDup(r0.pending, n);
      }
    }
  }

  /** Waking adds only face neighbours of `q` that hold water. */
  lemma {:induction false} WakeAddsOnlyWater(e: Edit, terrain: Terrain, q: Coord, i: nat)
    requires i <= |ALL_NEIGHBORS|
    ensures forall n :: n in Wake(e, terrain, q, i).pending ==>
              n in e.pending || (Adjacent(q, n) && IsWater(At(e.blocks, terrain, n)))
  {
    if i > 0 {
      WakeAddsOnlyWater(e, terrain, q, i - 1);
      NeighbourIsAdjacent(q, i - 1);
    }
  }

  /** Waking queues every one of the first `i` neighbours that holds water. */
  lemma {:induction false} WakeQueuesWater(e: Edit, terrain: Terrain, q: Coord, i: nat)
    requires i <= |ALL_NEIGHBORS|
    ensures forall k :: 0 <= k < i && IsWater(At(e.blocks, terrain, Shift(q, ALL_NEIGHBORS[k]))) ==>
              Shift(q, ALL_NEIGHBORS[k]) in Wake(e, terrain, q, i).pending
  {
    if i > 0 {
      WakeQueuesWater(e, terrain, q, i - 1);
    }
  }

  /** After waking the first `i` neighbours of `q`: every one of them holding
      water is queued, only face neighbours holding water were added, and
      the queue keeps its entries and stays duplicate-free. */
  lemma WakeQueues(e: Edit, terrain: Terrain, q: Coord, i: nat)
    requires i <= |ALL_NEIGHBORS|
    ensures var r := Wake(e, terrain, q, i);
      && (forall k :: 0 <= k < i && IsWater(At(e.blocks, terrain, Shift(q, ALL_NEIGHBORS[k]))) ==> Shift(q, ALL_NEIGHBORS[k]) in r.pending)
      && (forall n :: n in r.pending ==> n in e.pending || (Adjacent(q, n) && IsWater(At(e.blocks, terrain, n))))
      && (forall n :: n in e.pending ==> n in r.pending)
      && (NoDup(e.pending) ==> NoDup(r.pending))
  {
    WakeQueuesWater(e, terrain, q, i);
    WakeAddsOnlyWater(e, terrain, q, i);
    WakeKeeps(e, terrain, q, i);
  }

  /** After waking the first `i` neighbours of `q`, each of their chunks is
      marked and no earlier mark is lost. */
  lemma {:induction false} WakeChunks(e: Edit, terrain: Terrain, q: Coord, i: nat)
    requires i <= |ALL_NEIGHBORS|
    ensures var r := Wake(e, terrain, q, i);
      && (forall k :: 0 <= k < i ==> ChunkOf(Shift(q, ALL_NEIGHBORS[k])) in r.chunks)
      && (forall c :: c in e.chunks ==> c in r.chunks)
  {
    if i > 0 {
      WakeChunks(e, terrain, q, i - 1);
    }
  }

  // ------------------------------------------------------ the radius break

  predicate InCube(c: Coord, q: Coord)
  {
    Abs(q.0 - c.0) <= 1 && Abs(q.1 - c.1) <= 1 && Abs(q.2 - c.2) <= 1
  }

  /** The cells the radius break leaves alone: AIR, doors and beds. */
  predicate Protected(t: int)
  {
    t == AIR || IsDoor(t) || IsBed(t)
  }

  function SweepCell(e: Edit, terrain: Terrain, q: Coord): Edit
  {
    if Protected(At(e.blocks, terrain, q)) then e else BreakOne(e, terrain, q)
  }

  /** The innermost loop at (dx, dy): its first `n` iterations, dz = -1, 0, 1. */
  function SweepRowOf(e: Edit, terrain: Terrain, c: Coord, dx: int, dy: int, n: nat): Edit
    requires n <= 3
  {
    if n == 0 then e
    else SweepCell(SweepRowOf(e, terrain, c, dx, dy, n - 1), terrain, (c.0 + dx, c.1 + dy, c.2 + n - 2))
  }

  /** The middle loop at dx: its first `n` rows, dy = -1, 0, 1. */
  function SweepSlabOf(e: Edit, terrain: Terrain, c: Coord, dx: int, n: nat): Edit
    requires n <= 3
  {
    if n == 0 then e else SweepRowOf(SweepSlabOf(e, terrain, c, dx, n - 1), terrain, c, dx, n - 2, 3)
  }

  /** The outer loop around `c`: its first `n` slabs, dx = -1, 0, 1. */
  function Sweep(e: Edit, terrain: Terrain, c: Coord, n: nat): Edit
    requires n <= 3
  {
    if n == 0 then e else SweepSlabOf(Sweep(e, terrain, c, n - 1), terrain, c, n - 2, 3)
  }

  /** The cells the first `n` iterations of the row at (dx, dy) visit. */
  predicate InRow(c: Coord, dx: int, dy: int, n: nat, q: Coord)
  {
    q.0 == c.0 + dx && q.1 == c.1 + dy && c.2 - 1 <= q.2 < c.2 - 1 + n
  }

  /** The cells the first `n` rows of the slab at dx visit. */
  predicate InSlab(c: Coord, dx: int, n: nat, q: Coord)
  {
    q.0 == c.0 + dx && c.1 - 1 <= q.1 < c.1 - 1 + n && Abs(q.2 - c.2) <= 1
  }

  /** The cells the first `n` slabs visit. */
  predicate InSlabs(c: Coord, n: nat, q: Coord)
  {
    c.0 - 1 <= q.0 < c.0 - 1 + n && Abs(q.1 - c.1) <= 1 && Abs(q.2 - c.2) <= 1
  }

  /** Breaking a cell sets it to AIR and leaves every other cell as it was. */
  lemma SweepCellReads(e: Edit, terrain: Terrain, x: Coord, q: Coord)
    ensures At(SweepCell(e, terrain, x).blocks, terrain, q)
         == if q == x && !Protected(At(e.blocks, terrain, x)) then AIR else At(e.blocks, terrain, q)
  {
    if !Protected(At(e.blocks, terrain, x)) {
      assert SweepCell(e, terrain, x).blocks == e.blocks[x := AIR];
    }
  }

  /** After `n` iterations of a row, its visited cells that were not AIR,
      a door or a bed read AIR; every other cell reads as before. */
  lemma {:induction false} RowReads(e: Edit, terrain: Terrain, c: Coord, dx: int, dy: int, n: nat, q: Coord)
    requires n <= 3
    ensures At(SweepRowOf(e, terrain, c, dx, dy, n).blocks, terrain, q)
         == if InRow(c, dx, dy, n, q) && !Protected(At(e.blocks, terrain, q)) then AIR else At(e.blocks, terrain, q)
  {
    if n > 0 {
      var x := (c.0 + dx, c.1 + dy, c.2 + n - 2);
      var prev := SweepRowOf(e, terrain, c, dx, dy, n - 1);
      assert SweepRowOf(e, terrain, c, dx, dy, n) == SweepCell(prev, terrain, x);
      RowReads(e, terrain, c, dx, dy, n - 1, q);
      SweepCellReads(prev, terrain, x, q);
      assert InRow(c, dx, dy, n, q) <==> InRow(c, dx, dy, n - 1, q) || q == x;
      assert q == x ==> !InRow(c, dx, dy, n - 1, q);
    }
  }

  /** After `n` rows of a slab, likewise. */
  lemma {:induction false} SlabReads(e: Edit, terrain: Terrain, c: Coord, dx: int, n: nat, q: Coord)
    requires n <= 3
    ensures At(SweepSlabOf(e, terrain, c, dx, n).blocks, terrain, q)
         == if InSlab(c, dx, n, q) && !Protected(At(e.blocks, terrain, q)) then AIR else At(e.blocks, terrain, q)
  {
    if n > 0 {
      var prev := SweepSlabOf(e, terrain, c, dx, n - 1);
      SlabReads(e, terrain, c, dx, n - 1, q);
      RowReads(prev, terrain, c, dx, n - 2, 3, q);
    }
  }

  /** After `n` slabs, likewise. */
  lemma {:induction false} SlabsReads(e: Edit, terrain: Terrain, c: Coord, n: nat, q: Coord)
    requires n <= 3
    ensures At(Sweep(e, terrain, c, n).blocks, terrain, q)
         == if InSlabs(c, n, q) && !Protected(At(e.blocks, terrain, q)) then AIR else At(e.blocks, terrain, q)
  {
    if n > 0 {
      var prev := Sweep(e, terrain, c, n - 1);
      SlabsReads(e, terrain, c, n - 1, q);
      SlabReads(prev, terrain, c, n - 2, 3, q);
    }
  }

  /** The 3×3×3 break sets to AIR exactly the cube cells that were not AIR,
      a door or a bed; every other cell reads as before. */
  lemma SweepReads(e: Edit, terrain: Terrain, c: Coord)
    ensures var r := Sweep(e, terrain, c, 3);
      forall q :: At(r.blocks, terrain, q) == if InCube(c, q) && !Protected(At(e.blocks, terrain, q)) then AIR else At(e.blocks, terrain, q)
  {
    forall q
      ensures At(Sweep(e, terrain, c, 3).blocks, terrain, q)
           == if InCube(c, q) && !Protected(At(e.blocks, terrain, q)) then AIR else At(e.blocks, terrain, q)
    {
      SlabsReads(e, terrain, c, 3, q);
    }
  }

  /** A face neighbour is one of the six offsets. */
  lemma AdjacentIsNeighbour(q: Coord, n: Coord) returns (k: nat)
    requires Adjacent(q, n)
    ensures k < |ALL_NEIGHBORS| && n == Shift(q, ALL_NEIGHBORS[k])
  {
    if n.0 - q.0 == 1 { k := 0; }
    else if n.0 - q.0 == -1 { k := 1; }
    else if n.1 - q.1 == 1 { k := 2; }
    else if n.1 - q.1 == -1 { k := 3; }
    else if n.2 - q.2 == 1 { k := 4; }
    else { k := 5; }
  }

  /** Sweeping one cell keeps the queue's entries and its lack of repeats,
      adds only water-holding face neighbours of the cell when it breaks,
      and queues every face neighbour of the broken cell that still holds
      water. */
  lemma SweepCellQueue(e: Edit, terrain: Terrain, x0: Coord, x: Coord)
    requires WaterIsNotAir()
    ensures var r := SweepCell(e, terrain, x0);
      && (forall p :: p in e.pending ==> p in r.pending)
      && (NoDup(e.pending) ==> NoDup(r.pending))
      && (x in r.pending && x !in e.pending ==>
            !Protected(At(e.blocks, terrain, x0)) && Adjacent(x0, x) && IsWater(At(e.blocks, terrain, x)))
      && (!Protected(At(e.blocks, terrain, x0)) && Adjacent(x0, x) && IsWater(At(r.blocks, terrain, x)) ==> x in r.pending)
  {
    if !Protected(At(e.blocks, terrain, x0)) {
      var e' := Edit(e.blocks[x0 := AIR], e.pending, Add(e.chunks, ChunkOf(x0)));
      WakeQueues(e', terrain, x0, 6);
      SweepCellReads(e, terrain, x0, x);
      if Adjacent(x0, x) {
        var k := AdjacentIsNeighbour(x0, x);
      }
    }
  }

  /** After `n` iterations of a row, the queue keeps its entries, and each
      added entry held water and is a face neighbour of a cell the row broke
      (returned as `w`). */
  lemma {:induction false} RowQueue(e: Edit, terrain: Terrain, c: Coord, dx: int, dy: int, n: nat, x: Coord) returns (w: Coord)
    requires n <= 3 && WaterIsNotAir()
    ensures var r := SweepRowOf(e, terrain, c, dx, dy, n);
      && (forall p :: p in e.pending ==> p in r.pending)
      && (NoDup(e.pending) ==> NoDup(r.pending))
      && (x in r.pending && x !in e.pending ==>
            InRow(c, dx, dy, n, w) && !Protected(At(e.blocks, terrain, w)) && Adjacent(w, x) && IsWater(At(e.blocks, terrain, x)))
  {
    w := c;
    if n > 0 {
      var x0 := (c.0 + dx, c.1 + dy, c.2 + n - 2);
      var prev := SweepRowOf(e, terrain, c, dx, dy, n - 1);
      assert SweepRowOf(e, terrain, c, dx, dy, n) == SweepCell(prev, terrain, x0);
      w := RowQueue(e, terrain, c, dx, dy, n - 1, x);
      SweepCellQueue(prev, terrain, x0, x);
      if x !in prev.pending {
        RowReads(e, terrain, c, dx, dy, n - 1, x0);
        RowReads(e, terrain, c, dx, dy, n - 1, x);
        assert !InRow(c, dx, dy, n - 1, x0) && InRow(c, dx, dy, n, x0);
        w := x0;
      }
    }
  }

  /** After `n` iterations of a row, every face neighbour of a cell it broke
      that holds water afterwards is queued. */
  lemma {:induction false} RowWakes(e: Edit, terrain: Terrain, c: Coord, dx: int, dy: int, n: nat, q: Coord, x: Coord)
    requires n <= 3 && WaterIsNotAir()
    ensures var r := SweepRowOf(e, terrain, c, dx, dy, n);
      InRow(c, dx, dy, n, q) && !Protected(At(e.blocks, terrain, q)) && Adjacent(q, x) && IsWater(At(r.blocks, terrain, x)) ==>
        x in r.pending
  {
    if n > 0 {
      var x0 := (c.0 + dx, c.1 + dy, c.2 + n - 2);
      var prev := SweepRowOf(e, terrain, c, dx, dy, n - 1);
      assert SweepRowOf(e, terrain, c, dx, dy, n) == SweepCell(prev, terrain, x0);
      RowWakes(e, terrain, c, dx, dy, n - 1, q, x);
      SweepCellQueue(prev, terrain, x0, x);
      SweepCellReads(prev, terrain, x0, x);
      RowReads(e, terrain, c, dx, dy, n - 1, x0);
      assert !InRow(c, dx, dy, n - 1, x0);
      assert InRow(c, dx, dy, n, q) && q != x0 ==> InRow(c, dx, dy, n - 1, q);
    }
  }

  /** After `n` rows of a slab, the queue facts of RowQueue. */
  lemma {:induction false} SlabQueue(e: Edit, terrain: Terrain, c: Coord, dx: int, n: nat, x: Coord) returns (w: Coord)
    requires n <= 3 && WaterIsNotAir()
    ensures var r := SweepSlabOf(e, terrain, c, dx, n);
      && (forall p :: p in e.pending ==> p in r.pending)
      && (NoDup(e.pending) ==> NoDup(r.pending))
      && (x in r.pending && x !in e.pending ==>
            InSlab(c, dx, n, w) && !Protected(At(e.blocks, terrain, w)) && Adjacent(w, x) && IsWater(At(e.blocks, terrain, x)))
  {
    w := c;
    if n > 0 {
      var prev := SweepSlabOf(e, terrain, c, dx, n - 1);
      assert SweepSlabOf(e, terrain, c, dx, n) == SweepRowOf(prev, terrain, c, dx, n - 2, 3);
      w := SlabQueue(e, terrain, c, dx, n - 1, x);
      var w' := RowQueue(prev, terrain, c, dx, n - 2, 3, x);
      if x !in prev.pending {
        SlabReads(e, terrain, c, dx, n - 1, w');
        SlabReads(e, terrain, c, dx, n - 1, x);
        w := w';
      }
    }
  }

  /** After `n` rows of a slab, the completeness of RowWakes. */
  lemma {:induction false} SlabWakes(e: Edit, terrain: Terrain, c: Coord, dx: int, n: nat, q: Coord, x: Coord)
    requires n <= 3 && WaterIsNotAir()
    ensures var r := SweepSlabOf(e, terrain, c, dx, n);
      InSlab(c, dx, n, q) && !Protected(At(e.blocks, terrain, q)) && Adjacent(q, x) && IsWater(At(r.blocks, terrain, x)) ==>
        x in r.pending
  {
    if n > 0 {
      var prev := SweepSlabOf(e, terrain, c, dx, n - 1);
      SlabWakes(e, terrain, c, dx, n - 1, q, x);
      var _ := RowQueue(prev, terrain, c, dx, n - 2, 3, x);
      RowWakes(prev, terrain, c, dx, n - 2, 3, q, x);
      RowReads(prev, terrain, c, dx, n - 2, 3, x);
      SlabReads(e, terrain, c, dx, n - 1, q);
    }
  }

  /** After `n` slabs, the queue facts of RowQueue. */
  lemma {:induction false} SlabsQueue(e: Edit, terrain: Terrain, c: Coord, n: nat, x: Coord) returns (w: Coord)
    requires n <= 3 && WaterIsNotAir()
    ensures var r := Sweep(e, terrain, c, n);
      && (forall p :: p in e.pending ==> p in r.pending)
      && (NoDup(e.pending) ==> NoDup(r.pending))
      && (x in r.pending && x !in e.pending ==>
            InSlabs(c, n, w) && !Protected(At(e.blocks, terrain, w)) && Adjacent(w, x) && IsWater(At(e.blocks, terrain, x)))
  {
    w := c;
    if n > 0 {
      var prev := Sweep(e, terrain, c, n - 1);
      assert Sweep(e, terrain, c, n) == SweepSlabOf(prev, terrain, c, n - 2, 3);
      w := SlabsQueue(e, terrain, c, n - 1, x);
      var w' := SlabQueue(prev, terrain, c, n - 2, 3, x);
      if x !in prev.pending {
        SlabsReads(e, terrain, c, n - 1, w');
        SlabsReads(e, terrain, c, n - 1, x);
        w := w';
      }
    }
  }

  /** After `n` slabs, the completeness of RowWakes. */
  lemma {:induction false} SlabsWakes(e: Edit, terrain: Terrain, c: Coord, n: nat, q: Coord, x: Coord)
    requires n <= 3 && WaterIsNotAir()
    ensures var r := Sweep(e, terrain, c, n);
      InSlabs(c, n, q) && !Protected(At(e.blocks, terrain, q)) && Adjacent(q, x) && IsWater(At(r.blocks, terrain, x)) ==>
        x in r.pending
  {
    if n > 0 {
      var prev := Sweep(e, terrain, c, n - 1);
      SlabsWakes(e, terrain, c, n - 1, q, x);
      var _ := SlabQueue(prev, terrain, c, n - 2, 3, x);
      SlabWakes(prev, terrain, c, n - 2, 3, q, x);
      SlabReads(prev, terrain, c, n - 2, 3, x);
      SlabsReads(e, terrain, c, n - 1, q);
    }
  }

  // --------------------------------------------------------- placement

  /** Whether the held stack may be placed: a non-empty, non-AIR block item, or seeds. */
  predicate CanPlace(held: ItemStack, isBlock: int -> bool)
  {
    held.count > 0 && held.id != AIR && (isBlock(held.id) || held.id == SEEDS)
  }

  /** Placing item `id` into cell `p`: the new overlay, water queue and
      affected chunks, or None when the item's rule refuses. */
  function Placement(blocks: map<Coord, int>, terrain: Terrain, pending: seq<Coord>, p: Coord, id: int, fx: real, fz: real, h: Hit): Option<Edit>
  {
    var chunk := [ChunkOf(p)];
    var above := Shift(p, (0, 1, 0));
    if id == SEEDS then
      if At(blocks, terrain, Shift(p, (0, -1, 0))) == FARMLAND && Open(At(blocks, terrain, p))
      then Some(Edit(blocks[p := WHEAT_STAGE_0], pending, chunk))
      else None
    else if id == STAIR || id == COBBLESTONE_STAIR then
      Some(Edit(blocks[p := StairVariant(id, fx, fz)], pending, chunk))
    else if id == DOOR_BOTTOM then
      if Open(At(blocks, terrain, above))
      then Some(Edit(blocks[p := DOOR_BOTTOM][above := DOOR_TOP], pending, chunk))
      else None
    else if id == BED_ITEM then
      var d := Facing(fx, fz);
      var (dx, dz) := DirOffset(d);
      var head := (p.0 + dx, p.1, p.2 + dz);
      if Open(At(blocks, terrain, head))
      then Some(Edit(blocks[p := BED_FOOT_NORTH + d][head := BED_HEAD_NORTH + d], pending, Add(chunk, ChunkOf(head))))
      else None
    else if id == TORCH then
      Some(Edit(blocks[p := TorchVariant(h.nx, h.ny, h.nz)], pending, chunk))
    else if id != AIR then
      Some(Edit(blocks[p := id], if IsWater(id) then Add(pending, p) else pending, chunk))
    else None
  }

  /** Seeds grow only on farmland into AIR or water; a door needs AIR or
      water above and writes a closed bottom and top half. */
  lemma SeedAndDoorPlacement(blocks: map<Coord, int>, terrain: Terrain, pending: seq<Coord>, p: Coord, fx: real, fz: real, h: Hit)
    requires HeldIdsDistinct()
    ensures var r := Placement(blocks, terrain, pending, p, SEEDS, fx, fz, h);
      && (r.Some? <==> At(blocks, terrain, Shift(p, (0, -1, 0))) == FARMLAND && Open(At(blocks, terrain, p)))
      && (r.Some? ==> r.value.blocks == blocks[p := WHEAT_STAGE_0] && r.value.pending == pending)
    ensures var above := Shift(p, (0, 1, 0));
      var r := Placement(blocks, terrain, pending, p, DOOR_BOTTOM, fx, fz, h);
      && (r.Some? <==> Open(At(blocks, terrain, above)))
      && (r.Some? ==> r.value.blocks == blocks[p := DoorType(false, false)][above := DoorType(true, false)] && r.value.pending == pending)
  {
  }

  /** A stair faces the player's dominant direction, in the held material. */
  lemma StairPlacement(blocks: map<Coord, int>, terrain: Terrain, pending: seq<Coord>, p: Coord, id: int, fx: real, fz: real, h: Hit)
    requires HeldIdsDistinct() && (id == STAIR || id == COBBLESTONE_STAIR)
    ensures var base := if id == STAIR then STAIR_NORTH else COBBLESTONE_STAIR_NORTH;
      Placement(blocks, terrain, pending, p, id, fx, fz, h) == Some(Edit(blocks[p := base + Facing(fx, fz)], pending, [ChunkOf(p)]))
  {
  }

  /** A bed goes down only if the cell one step along the facing holds AIR or
      water; the foot is at the target and the head there, both with the
      same direction index. */
  lemma BedPlacement(blocks: map<Coord, int>, terrain: Terrain, pending: seq<Coord>, p: Coord, fx: real, fz: real, h: Hit)
    requires HeldIdsDistinct()
    ensures var d := Facing(fx, fz);
      var head := (p.0 + DirOffset(d).0, p.1, p.2 + DirOffset(d).1);
      var r := Placement(blocks, terrain, pending, p, BED_ITEM, fx, fz, h);
      && (r.Some? <==> Open(At(blocks, terrain, head)))
      && (r.Some? ==> r.value.blocks == blocks[p := BED_FOOT_NORTH + d][head := BED_HEAD_NORTH + d]
                      && r.value.pending == pending && ChunkOf(head) in r.value.chunks)
  {
  }

  /** A torch follows the face normal; any other block item is written as
      is, and a placed water block is queued. */
  lemma OtherPlacement(blocks: map<Coord, int>, terrain: Terrain, pending: seq<Coord>, p: Coord, id: int, fx: real, fz: real, h: Hit)
    requires HeldIdsDistinct()
    ensures Placement(blocks, terrain, pending, p, TORCH, fx, fz, h) == Some(Edit(blocks[p := TorchVariant(h.nx, h.ny, h.nz)], pending, [ChunkOf(p)]))
    ensures id !in {AIR, SEEDS, STAIR, COBBLESTONE_STAIR, DOOR_BOTTOM, BED_ITEM, TORCH} ==>
      var r := Placement(blocks, terrain, pending, p, id, fx, fz, h);
      && r.Some? && r.value.blocks == blocks[p := id]
      && (IsWater(id) ==> p in r.value.pending)
      && (!IsWater(id) ==> r.value.pending == pending)
  {
  }

  // ------------------------------------------------------------ handlers

  /** `handleTap`: the priorities door, bed, crafting table, then placement
      of the held item, then breaking the target. */
  function TapOutcome(blocks: map<Coord, int>, terrain: Terrain, pending: seq<Coord>, hit: Option<Hit>, player: Point,
                      fx: real, fz: real, held: ItemStack, isBlock: int -> bool): Reaction
  {
    var idle := Reaction(blocks, pending, []);
    if hit.None? || OutOfReach(hit.value, player) then idle
    else
      var h := hit.value;
      var b := BreakCell(h);
      var t := At(blocks, terrain, b);
      if IsDoor(t) then Reaction(ToggleDoor(blocks, b, t), pending, [ChunksUpdated([ChunkOf(b)])])
      else if IsBed(t) then Reaction(blocks, pending, [Sleep])
      else if t == CRAFTING_TABLE then Reaction(blocks, pending, [OpenCraftingTable])
      else if CanPlace(held, isBlock) then
        var p := PlaceCell(h);
        if InsidePlayer(p, player) then idle
        else match Placement(blocks, terrain, pending, p, held.id, fx, fz, h)
          case None => idle
          case Some(e) => Reaction(e.blocks, e.pending, [ChunksUpdated(e.chunks), Placed])
      else if t == AIR then idle
      else
        var e := BreakOne(Edit(blocks, pending, []), terrain, b);
        Reaction(e.blocks, e.pending, [DropItem(t, b.0, b.1, b.2), ChunksUpdated(e.chunks)])
  }

  /** Doors, beds and crafting tables are handled before any placement or
      break, whatever is held: a door toggles, a bed only calls `onSleep`
      and a table only `onOpenCraftingTable`, neither touching the overlay. */
  lemma TapInteractsFirst(blocks: map<Coord, int>, terrain: Terrain, pending: seq<Coord>, h: Hit, player: Point,
                          fx: real, fz: real, held: ItemStack, isBlock: int -> bool)
    requires TargetIdsApart() && !OutOfReach(h, player)
    ensures var b := BreakCell(h);
      var t := At(blocks, terrain, b);
      var r := TapOutcome(blocks, terrain, pending, Some(h), player, fx, fz, held, isBlock);
      && (IsDoor(t) ==> r == Reaction(ToggleDoor(blocks, b, t), pending, [ChunksUpdated([ChunkOf(b)])]))
      && (IsBed(t) ==> r == Reaction(blocks, pending, [Sleep]))
      && (t == CRAFTING_TABLE ==> r == Reaction(blocks, pending, [OpenCraftingTable]))
  {
  }

  /** With nothing placeable in hand, a tap on any other non-AIR block drops
      it, leaves AIR in its place, and queues its neighbours holding water. */
  lemma TapBreaks(blocks: map<Coord, int>, terrain: Terrain, pending: seq<Coord>, h: Hit, player: Point,
                  fx: real, fz: real, held: ItemStack, isBlock: int -> bool)
    requires !OutOfReach(h, player) && !CanPlace(held, isBlock)
    requires var t := At(blocks, terrain, BreakCell(h)); !Protected(t) && t != CRAFTING_TABLE
    ensures var b := BreakCell(h);
      var r := TapOutcome(blocks, terrain, pending, Some(h), player, fx, fz, held, isBlock);
      && r.effects[0] == DropItem(At(blocks, terrain, b), b.0, b.1, b.2)
      && r.blocks == blocks[b := AIR]
      && forall k :: 0 <= k < 6 && IsWater(At(blocks[b := AIR], terrain, Shift(b, ALL_NEIGHBORS[k]))) ==> Shift(b, ALL_NEIGHBORS[k]) in r.pending
  {
    var b := BreakCell(h);
    WakeQueues(Edit(blocks[b := AIR], pending, Add([], ChunkOf(b))), terrain, b, 6);
  }

  /** `handleRadiusBreak`: a bed is removed precisely (with its partner) and
      dropped as one bed item; anything else triggers the 3×3×3 sweep. */
  function RadiusOutcome(blocks: map<Coord, int>, terrain: Terrain, pending: seq<Coord>, hit: Option<Hit>, player: Point): Reaction
  {
    if hit.None? || OutOfReach(hit.value, player) then Reaction(blocks, pending, [])
    else
      var c := BreakCell(hit.value);
      var t := At(blocks, terrain, c);
      if IsBed(t) then
        var (blocks', chunks) := BedBreak(blocks, terrain, c, t);
        Reaction(blocks', pending, [DropItem(BED_ITEM, c.0, c.1, c.2), ChunksUpdated(chunks)])
      else
        var e := Sweep(Edit(blocks, pending, []), terrain, c, 3);
        Reaction(e.blocks, e.pending, if |e.chunks| > 0 then [ChunksUpdated(e.chunks)] else [])
  }

  /** Away from a bed, the radius break sets to AIR exactly the cube cells
      that were not AIR, a door or a bed, leaves every other cell as it
      reads, and drops nothing. */
  lemma RadiusBreakClears(blocks: map<Coord, int>, terrain: Terrain, pending: seq<Coord>, h: Hit, player: Point)
    requires !OutOfReach(h, player) && !IsBed(At(blocks, terrain, BreakCell(h)))
    ensures var c := BreakCell(h);
      var r := RadiusOutcome(blocks, terrain, pending, Some(h), player);
      && (forall q :: At(r.blocks, terrain, q) == if InCube(c, q) && !Protected(At(blocks, terrain, q)) then AIR else At(blocks, terrain, q))
      && (forall f :: f in r.effects ==> f.ChunksUpdated?)
  {
    SweepReads(Edit(blocks, pending, []), terrain, BreakCell(h));
  }

  /** Away from a bed, the radius break keeps every queued cell and adds no
      repeats; each cell it queues held water and is a face neighbour of a
      cube cell it cleared; and every face neighbour of a cleared cell that
      still reads as water afterwards is queued. */
  lemma RadiusBreakQueues(blocks: map<Coord, int>, terrain: Terrain, pending: seq<Coord>, h: Hit, player: Point)
    requires WaterIsNotAir() && !OutOfReach(h, player) && !IsBed(At(blocks, terrain, BreakCell(h)))
    ensures var c := BreakCell(h);
      var r := RadiusOutcome(blocks, terrain, pending, Some(h), player);
      && (forall p :: p in pending ==> p in r.pending)
      && (NoDup(pending) ==> NoDup(r.pending))
      && (forall x :: x in r.pending && x !in pending ==>
            IsWater(At(blocks, terrain, x)) &&
            exists q :: InCube(c, q) && !Protected(At(blocks, terrain, q)) && Adjacent(q, x))
      && (forall q, x :: InCube(c, q) && !Protected(At(blocks, terrain, q)) && Adjacent(q, x) && IsWater(At(r.blocks, terrain, x))
            ==> x in r.pending)
  {
    var c := BreakCell(h);
    var e := Edit(blocks, pending, []);
    var _ := SlabsQueue(e, terrain, c, 3, c);
    forall x | x in Sweep(e, terrain, c, 3).pending && x !in pending
      ensures IsWater(At(blocks, terrain, x))
      ensures exists q :: InCube(c, q) && !Protected(At(blocks, terrain, q)) && Adjacent(q, x)
    {
      var w := SlabsQueue(e, terrain, c, 3, x);
      assert InCube(c, w);
    }
    forall q, x | InCube(c, q) && !Protected(At(blocks, terrain, q)) && Adjacent(q, x)
                  && IsWater(At(Sweep(e, terrain, c, 3).blocks, terrain, x))
      ensures x in Sweep(e, terrain, c, 3).pending
    {
      SlabsWakes(e, terrain, c, 3, q, x);
    }
  }

  // ------------------------------------------------------------- methods

  /** The loop over `ALL_NEIGHBORS` after cell `q` was cleared. */
  method WakeNeighbours(terrain: Terrain, world: Overlay, queue: WaterQueue, q: Coord, chunks0: seq<ChunkKey>) returns (chunks: seq<ChunkKey>)
    requires queue.Valid()
    modifies queue
    ensures queue.Valid()
    ensures Edit(world.blocks, queue.pending, chunks) == Wake(Edit(world.blocks, old(queue.pending), chunks0), terrain, q, |ALL_NEIGHBORS|)
  {
    chunks := chunks0;
    ghost var e0 := Edit(world.blocks, queue.pending, chunks0);
    var i := 0;
    while i < |ALL_NEIGHBORS|
      invariant 0 <= i <= |ALL_NEIGHBORS| && queue.Valid()
      invariant Edit(world.blocks, queue.pending, chunks) == Wake(e0, terrain, q, i)
    {
      var n := Shift(q, ALL_NEIGHBORS[i]);
      WakeStep(e0, terrain, q, i);
      if IsWater(Read(world.blocks, terrain, n.0, n.1, n.2)) {
        RoundOfInt(n.0);
        RoundOfInt(n.1);
        RoundOfInt(n.2);
        queue.Enqueue(n.0 as real, n.1 as real, n.2 as real);
      }
      chunks := Add(chunks, ChunkOf(n));
      i := i + 1;
    }
  }

  /** Setting cell `q` to AIR, marking its chunk, and waking its neighbours. */
  method BreakBlock(terrain: Terrain, world: Overlay, queue: WaterQueue, q: Coord, chunks0: seq<ChunkKey>) returns (chunks: seq<ChunkKey>)
    requires queue.Valid()
    modifies world, queue
    ensures queue.Valid()
    ensures Edit(world.blocks, queue.pending, chunks) == BreakOne(Edit(old(world.blocks), old(queue.pending), chunks0), terrain, q)
  {
    world.blocks := world.blocks[q := AIR];
    chunks := WakeNeighbours(terrain, world, queue, q, Add(chunks0, ChunkOf(q)));
  }

  /** The body of the triple loop: break cell `q` unless it is AIR, a door or a bed. */
  method SweepAt(terrain: Terrain, world: Overlay, queue: WaterQueue, q: Coord, chunks0: seq<ChunkKey>) returns (chunks: seq<ChunkKey>)
    requires queue.Valid()
    modifies world, queue
    ensures queue.Valid()
    ensures Edit(world.blocks, queue.pending, chunks) == SweepCell(Edit(old(world.blocks), old(queue.pending), chunks0), terrain, q)
  {
    chunks := chunks0;
    var t := Read(world.blocks, terrain, q.0, q.1, q.2);
    if t == AIR || IsDoor(t) {
      return;
    }
    if IsBed(t) {
      return;
    }
    chunks := BreakBlock(terrain, world, queue, q, chunks);
  }

  /** The innermost loop of the radius break: dz from -1 to 1. */
  method SweepRow(terrain: Terrain, world: Overlay, queue: WaterQueue, c: Coord, dx: int, dy: int, chunks0: seq<ChunkKey>)
    returns (chunks: seq<ChunkKey>)
    requires queue.Valid()
    modifies world, queue
    ensures queue.Valid()
    ensures Edit(world.blocks, queue.pending, chunks) == SweepRowOf(Edit(old(world.blocks), old(queue.pending), chunks0), terrain, c, dx, dy, 3)
  {
    ghost var e0 := Edit(world.blocks, queue.pending, chunks0);
    chunks := chunks0;
    var dz := -1;
    while dz <= 1
      invariant -1 <= dz <= 2 && queue.Valid()
      invariant Edit(world.blocks, queue.pending, chunks) == SweepRowOf(e0, terrain, c, dx, dy, dz + 1)
    {
      ghost var before := Edit(world.blocks, queue.pending, chunks);
      chunks := SweepAt(terrain, world, queue, (c.0 + dx, c.1 + dy, c.2 + dz), chunks);
      RowNext(e0, terrain, c, dx, dy, dz, before, Edit(world.blocks, queue.pending, chunks));
      dz := dz + 1;
    }
  }

  /** One more iteration of the innermost loop. */
  lemma RowNext(e0: Edit, terrain: Terrain, c: Coord, dx: int, dy: int, dz: int, before: Edit, after: Edit)
    requires -1 <= dz <= 1
    requires before == SweepRowOf(e0, terrain, c, dx, dy, dz + 1)
    requires after == SweepCell(before, terrain, (c.0 + dx, c.1 + dy, c.2 + dz))
    ensures after == SweepRowOf(e0, terrain, c, dx, dy, dz + 2)
  {
  }

  /** The middle loop of the radius break: dy from -1 to 1. */
  method SweepSlab(terrain: Terrain, world: Overlay, queue: WaterQueue, c: Coord, dx: int, chunks0: seq<ChunkKey>)
    returns (chunks: seq<ChunkKey>)
    requires queue.Valid()
    modifies world, queue
    ensures queue.Valid()
    ensures Edit(world.blocks, queue.pending, chunks) == SweepSlabOf(Edit(old(world.blocks), old(queue.pending), chunks0), terrain, c, dx, 3)
  {
    ghost var e0 := Edit(world.blocks, queue.pending, chunks0);
    chunks := chunks0;
    var dy := -1;
    while dy <= 1
      invariant -1 <= dy <= 2 && queue.Valid()
      invariant Edit(world.blocks, queue.pending, chunks) == SweepSlabOf(e0, terrain, c, dx, dy + 1)
    {
      chunks := SweepRow(terrain, world, queue, c, dx, dy, chunks);
      dy := dy + 1;
    }
  }

  /** `handleTap`. */
  method HandleTap(terrain: Terrain, world: Overlay, queue: WaterQueue, hit: Option<Hit>, player: Point,
                   fx: real, fz: real, held: ItemStack, isBlock: int -> bool) returns (effects: seq<Effect>)
    requires queue.Valid()
    modifies world, queue
    ensures queue.Valid()
    ensures Reaction(world.blocks, queue.pending, effects)
         == TapOutcome(old(world.blocks), terrain, old(queue.pending), hit, player, fx, fz, held, isBlock)
  {
    effects := [];
    if hit.None? || OutOfReach(hit.value, player) {
      return;
    }
    var h := hit.value;
    var b := BreakCell(h);
    var t := Read(world.blocks, terrain, b.0, b.1, b.2);
    if IsDoor(t) {
      world.blocks := ToggleDoor(world.blocks, b, t);
      effects := [ChunksUpdated([ChunkOf(b)])];
      return;
    }
    if IsBed(t) {
      effects := [Sleep];
      return;
    }
    if t == CRAFTING_TABLE {
      effects := [OpenCraftingTable];
      return;
    }
    if CanPlace(held, isBlock) {
      var p := PlaceCell(h);
      if InsidePlayer(p, player) {
        return;
      }
      var placed, chunks := PlaceHeld(terrain, world, queue, p, held.id, fx, fz, h);
      if placed {
        effects := [ChunksUpdated(chunks), Placed];
      }
    } else {
      if t == AIR {
        return;
      }
      effects := [DropItem(t, b.0, b.1, b.2)];
      var chunks := BreakBlock(terrain, world, queue, b, []);
      effects := effects + [ChunksUpdated(chunks)];
    }
  }

  /** The placement branch of `handleTap`, writing into the overlay. */
  method PlaceHeld(terrain: Terrain, world: Overlay, queue: WaterQueue, p: Coord, id: int, fx: real, fz: real, h: Hit)
    returns (placed: bool, chunks: seq<ChunkKey>)
    requires queue.Valid()
    modifies world, queue
    ensures queue.Valid()
    ensures var r := Placement(old(world.blocks), terrain, old(queue.pending), p, id, fx, fz, h);
      && placed == r.Some?
      && (placed ==> Edit(world.blocks, queue.pending, chunks) == r.value)
      && (!placed ==> world.blocks == old(world.blocks) && queue.pending == old(queue.pending))
  {
    placed := false;
    chunks := [ChunkOf(p)];
    if id == SEEDS {
      var blockBelow := Read(world.blocks, terrain, p.0, p.1 - 1, p.2);
      var blockAt := Read(world.blocks, terrain, p.0, p.1, p.2);
      if blockBelow == FARMLAND && (blockAt == AIR || IsWater(blockAt)) {
        world.blocks := world.blocks[p := WHEAT_STAGE_0];
        placed := true;
      }
    } else if id == STAIR || id == COBBLESTONE_STAIR {
      world.blocks := world.blocks[p := StairVariant(id, fx, fz)];
      placed := true;
    } else if id == DOOR_BOTTOM {
      var aboveType := Read(world.blocks, terrain, p.0, p.1 + 1, p.2);
      if aboveType == AIR || IsWater(aboveType) {
        world.blocks := world.blocks[p := DOOR_BOTTOM][(p.0, p.1 + 1, p.2) := DOOR_TOP];
        placed := true;
      }
    } else if id == BED_ITEM {
      var d := Facing(fx, fz);
      var (dx, dz) := DirOffset(d);
      var head := (p.0 + dx, p.1, p.2 + dz);
      var headType := Read(world.blocks, terrain, head.0, head.1, head.2);
      if headType == AIR || IsWater(headType) {
        world.blocks := world.blocks[p := BED_FOOT_NORTH + d][head := BED_HEAD_NORTH + d];
        chunks := Add(chunks, ChunkOf(head));
        placed := true;
      }
    } else if id == TORCH {
      world.blocks := world.blocks[p := TorchVariant(h.nx, h.ny, h.nz)];
      placed := true;
    } else if id != AIR {
      world.blocks := world.blocks[p := id];
      if IsWater(id) {
        RoundOfInt(p.0);
        RoundOfInt(p.1);
        RoundOfInt(p.2);
        queue.Enqueue(p.0 as real, p.1 as real, p.2 as real);
      }
      placed := true;
    }
  }

  /** The precise bed break of `handleRadiusBreak`. */
  method BreakBed(terrain: Terrain, world: Overlay, c: Coord, t: int) returns (chunks: seq<ChunkKey>)
    requires IsBed(t)
    modifies world
    ensures (world.blocks, chunks) == BedBreak(old(world.blocks), terrain, c, t)
  {
    world.blocks := world.blocks[c := AIR];
    chunks := [ChunkOf(c)];
    var (dx, dz, target) := BedPartner(t);
    var other := (c.0 + dx, c.1, c.2 + dz);
    if Read(world.blocks, terrain, other.0, other.1, other.2) == target {
      world.blocks := world.blocks[other := AIR];
      chunks := Add(chunks, ChunkOf(other));
    }
  }

  /** The outer loop of the radius break: dx from -1 to 1. */
  method SweepCube(terrain: Terrain, world: Overlay, queue: WaterQueue, c: Coord) returns (chunks: seq<ChunkKey>)
    requires queue.Valid()
    modifies world, queue
    ensures queue.Valid()
    ensures Edit(world.blocks, queue.pending, chunks) == Sweep(Edit(old(world.blocks), old(queue.pending), []), terrain, c, 3)
  {
    ghost var e0 := Edit(world.blocks, queue.pending, []);
    chunks := [];
    var dx := -1;
    while dx <= 1
      invariant -1 <= dx <= 2 && queue.Valid()
      invariant Edit(world.blocks, queue.pending, chunks) == Sweep(e0, terrain, c, dx + 1)
    {
      chunks := SweepSlab(terrain, world, queue, c, dx, chunks);
      dx := dx + 1;
    }
  }

  /** `handleRadiusBreak`. */
  method HandleRadiusBreak(terrain: Terrain, world: Overlay, queue: WaterQueue, hit: Option<Hit>, player: Point) returns (effects: seq<Effect>)
    requires queue.Valid()
    modifies world, queue
    ensures queue.Valid()
    ensures Reaction(world.blocks, queue.pending, effects) == RadiusOutcome(old(world.blocks), terrain, old(queue.pending), hit, player)
  {
    effects := [];
    if hit.None? || OutOfReach(hit.value, player) {
      return;
    }
    var c := BreakCell(hit.value);
    var centerType := Read(world.blocks, terrain, c.0, c.1, c.2);
    if IsBed(centerType) {
      effects := [DropItem(BED_ITEM, c.0, c.1, c.2)];
      var chunks := BreakBed(terrain, world, c, centerType);
      effects := effects + [ChunksUpdated(chunks)];
      return;
    }
    var chunks := SweepCube(terrain, world, queue, c);
    if |chunks| > 0 {
      effects := [ChunksUpdated(chunks)];
    }
  }
}
