/** Collision against the block grid: a per-type collider catalogue, the scan
    that gathers the colliders around a box, and a resolver that moves a body
    along X, then Z, then Y. Coordinates are exact reals. */
module PhysicsSystem {
  import opened Common
  import opened Blocks
  import opened WorldGen

  /** An axis-aligned box. */
  datatype Box = Box(minX: real, maxX: real, minY: real, maxY: real, minZ: real, maxZ: real)

  /** `intersectAABB`: overlap with strict inequalities on every axis. */
  predicate Intersect(a: Box, b: Box)
  {
    && a.minX < b.maxX && a.maxX > b.minX
    && a.minY < b.maxY && a.maxY > b.minY
    && a.minZ < b.maxZ && a.maxZ > b.minZ
  }

  /** Boxes that only share a face do not collide, in either order. */
  lemma TouchingBoxesDoNotIntersect(a: Box, b: Box)
    requires a.maxX == b.minX || a.maxY == b.minY || a.maxZ == b.minZ
    ensures !Intersect(a, b) && !Intersect(b, a)
  {
  }

  // ---- The AABB pool

  const POOL_SIZE: nat := 1000

  /** The module-level pool of boxes handed out cyclically by `getAABB`. */
  class AabbPool {
    const slots: array<Box>
    var index: int

    ghost predicate Valid()
      reads this
    {
      slots.Length == POOL_SIZE && 0 <= index <= POOL_SIZE
    }

    constructor()
      ensures Valid() && fresh(slots) && index == 0
    {
      slots := new Box[POOL_SIZE](_ => Box(0.0, 0.0, 0.0, 0.0, 0.0, 0.0));
      index := 0;
    }

    /** `getAABB`: overwrite the next slot (wrapping to 0 once all are used). */
    method Get(box: Box) returns (slot: nat)
      requires Valid()
      modifies this, slots
      ensures Valid()
      ensures slot == (if old(index) >= POOL_SIZE then 0 else old(index))
      ensures slot < POOL_SIZE && index == slot + 1
      ensures slots[..] == old(slots[..])[slot := box]
    {
      if index >= POOL_SIZE {
        index := 0;
      }
      slot := index;
      index := index + 1;
      slots[slot] := box;
    }
  }

  // ---- The collider catalogue

  /** `isConnectable`: the neighbours a fence reaches out to. */
  predicate IsConnectable(n: int)
  {
    if n == AIR then false
    else if n == FENCE then true
    else DefinedSolid(n) && n != CACTUS && n != LEAF && n != PINE_LEAF && n != TORCH
  }

  /** AIR never connects; a fence always does; otherwise only solid blocks
      that are not cactus, leaves or the upright torch. */
  lemma Connectability(n: int)
    requires AIR != FENCE
    ensures IsConnectable(AIR) == false && IsConnectable(FENCE)
    ensures n != FENCE && !DefinedSolid(n) ==> !IsConnectable(n)
    ensures n != FENCE && (n == CACTUS || n == LEAF || n == PINE_LEAF || n == TORCH) ==> !IsConnectable(n)
    ensures n != AIR && n != FENCE && DefinedSolid(n) && n != CACTUS && n != LEAF && n != PINE_LEAF && n != TORCH
            ==> IsConnectable(n)
  {
  }

  /** The blocks the scan skips before looking up their definition. */
  predicate Passable(t: int)
  {
    t == AIR || IsWater(t) || IsWheat(t) || t == TALL_GRASS || IsFlower(t) || IsTorch(t)
  }

  /** The raised half of a stair, on the side its variant faces. */
  function StairHalf(t: int, x: real, y: real, z: real): Box
  {
    if t == STAIR_NORTH || t == COBBLESTONE_STAIR_NORTH then Box(x - 0.5, x + 0.5, y, y + 0.5, z - 0.5, z)
    else if t == STAIR_SOUTH || t == COBBLESTONE_STAIR_SOUTH then Box(x - 0.5, x + 0.5, y, y + 0.5, z, z + 0.5)
    else if t == STAIR_EAST || t == COBBLESTONE_STAIR_EAST then Box(x, x + 0.5, y, y + 0.5, z - 0.5, z + 0.5)
    else Box(x - 0.5, x, y, y + 0.5, z - 0.5, z + 0.5)
  }

  /** The fence post, reaching to each face whose neighbour connects. */
  function FenceBox(x: real, y: real, z: real, n: bool, s: bool, w: bool, e: bool): Box
  {
    Box(if w then x - 0.5 else x - 0.125, if e then x + 0.5 else x + 0.125,
        y - 0.5, y + 1.0,
        if n then z - 0.5 else z - 0.125, if s then z + 0.5 else z + 0.125)
  }

  /** Every collider lies inside the cell's envelope: the unit cell, extended
      half a block upwards for the fence. */
  predicate InEnvelope(b: Box, x: int, y: int, z: int)
  {
    && x as real - 0.5 <= b.minX <= b.maxX <= x as real + 0.5
    && y as real - 0.5 <= b.minY <= b.maxY <= y as real + 1.0
    && z as real - 0.5 <= b.minZ <= b.maxZ <= z as real + 0.5
  }

  /** The colliders of a block of type `t` at (x, y, z), given whether its
      north (z-1), south (z+1), west (x-1) and east (x+1) neighbours connect. */
  function Colliders(t: int, x: int, y: int, z: int, n: bool, s: bool, w: bool, e: bool): (r: seq<Box>)
    ensures |r| <= 2
    ensures forall i :: 0 <= i < |r| ==> InEnvelope(r[i], x, y, z)
  {
    var (fx, fy, fz) := (x as real, y as real, z as real);
    if Passable(t) || !DefinedSolid(t) then []
    else if IsWoodStair(t) || IsCobbleStair(t) then
      [Box(fx - 0.5, fx + 0.5, fy - 0.5, fy, fz - 0.5, fz + 0.5), StairHalf(t, fx, fy, fz)]
    else if IsBed(t) then [Box(fx - 0.5, fx + 0.5, fy - 0.5, fy + 0.06, fz - 0.5, fz + 0.5)]
    else if t == CACTUS then [Box(fx - 0.4, fx + 0.4, fy - 0.5, fy + 0.5, fz - 0.4, fz + 0.4)]
    else if t == FENCE then [FenceBox(fx, fy, fz, n, s, w, e)]
    else if t == DOOR_BOTTOM || t == DOOR_TOP then [Box(fx - 0.5, fx + 0.5, fy - 0.5, fy + 0.5, fz - 0.1, fz + 0.1)]
    else if t == DOOR_BOTTOM_OPEN || t == DOOR_TOP_OPEN then []
    else if t == FARMLAND then [Box(fx - 0.5, fx + 0.5, fy - 0.5, fy + 0.4375, fz - 0.5, fz + 0.5)]
    else [Box(fx - 0.5, fx + 0.5, fy - 0.5, fy + 0.5, fz - 0.5, fz + 0.5)]
  }

  /** Blocks without a collider: the passable ones, anything without a solid
      definition, and open doors. */
  lemma NoColliders(t: int, x: int, y: int, z: int, n: bool, s: bool, w: bool, e: bool)
    requires DoorIdsApart()
    requires Passable(t) || !DefinedSolid(t) || t == DOOR_BOTTOM_OPEN || t == DOOR_TOP_OPEN
    ensures Colliders(t, x, y, z, n, s, w, e) == []
  {
  }

  /** A stair of either material is a full-footprint lower slab plus a raised half. */
  lemma StairColliders(t: int, x: int, y: int, z: int, n: bool, s: bool, w: bool, e: bool)
    requires StairIdsApart() && DefinedSolid(t)
    requires IsWoodStair(t) || IsCobbleStair(t)
    ensures var (fx, fy, fz) := (x as real, y as real, z as real);
            Colliders(t, x, y, z, n, s, w, e) ==
              [Box(fx - 0.5, fx + 0.5, fy - 0.5, fy, fz - 0.5, fz + 0.5), StairHalf(t, fx, fy, fz)]
  {
  }

  /** The raised half lies on the side the variant (N, E, S, W) names. */
  lemma StairHalfSide(t: int, x: real, y: real, z: real)
    requires StairIdsApart()
    requires IsWoodStair(t) || IsCobbleStair(t)
    ensures var h := StairHalf(t, x, y, z);
            var k := if IsWoodStair(t) then t - STAIR_NORTH else t - COBBLESTONE_STAIR_NORTH;
            && h.minY == y && h.maxY == y + 0.5
            && (k == 0 ==> h.minZ == z - 0.5 && h.maxZ == z && h.minX == x - 0.5 && h.maxX == x + 0.5)
            && (k == 1 ==> h.minX == x && h.maxX == x + 0.5 && h.minZ == z - 0.5 && h.maxZ == z + 0.5)
            && (k == 2 ==> h.minZ == z && h.maxZ == z + 0.5 && h.minX == x - 0.5 && h.maxX == x + 0.5)
            && (k == 3 ==> h.minX == x - 0.5 && h.maxX == x && h.minZ == z - 0.5 && h.maxZ == z + 0.5)
  {
  }

  /** The shapes of the other solid blocks: bed, cactus, closed door,
      farmland, and the unit cube for everything else. */
  lemma OtherColliders(t: int, x: int, y: int, z: int, n: bool, s: bool, w: bool, e: bool)
    requires ShapeIdsApart() && DefinedSolid(t)
    requires !Passable(t) && !IsWoodStair(t) && !IsCobbleStair(t) && t != FENCE
    ensures var r := Colliders(t, x, y, z, n, s, w, e);
            var (fx, fy, fz) := (x as real, y as real, z as real);
            && (IsBed(t) ==> r == [Box(fx - 0.5, fx + 0.5, fy - 0.5, fy + 0.06, fz - 0.5, fz + 0.5)])
            && (t == CACTUS ==> r == [Box(fx - 0.4, fx + 0.4, fy - 0.5, fy + 0.5, fz - 0.4, fz + 0.4)])
            && (t == DOOR_BOTTOM || t == DOOR_TOP ==> r == [Box(fx - 0.5, fx + 0.5, fy - 0.5, fy + 0.5, fz - 0.1, fz + 0.1)])
            && (t == FARMLAND ==> r == [Box(fx - 0.5, fx + 0.5, fy - 0.5, fy + 0.4375, fz - 0.5, fz + 0.5)])
            && (!IsBed(t) && t != CACTUS && !IsDoor(t) && t != FARMLAND ==>
                  r == [Box(fx - 0.5, fx + 0.5, fy - 0.5, fy + 0.5, fz - 0.5, fz + 0.5)])
  {
  }

  /** The fence: a post of half-width 0.125 from y-0.5 to y+1.0, reaching the
      cell face on exactly the sides whose neighbour connects. */
  lemma FenceCollider(x: int, y: int, z: int, n: bool, s: bool, w: bool, e: bool)
    requires FenceIdsApart() && DefinedSolid(FENCE)
    ensures var r := Colliders(FENCE, x, y, z, n, s, w, e);
            var (fx, fy, fz) := (x as real, y as real, z as real);
            && |r| == 1 && r[0].minY == fy - 0.5 && r[0].maxY == fy + 1.0
            && r[0].minX <= fx - 0.125 && fx + 0.125 <= r[0].maxX
            && r[0].minZ <= fz - 0.125 && fz + 0.125 <= r[0].maxZ
            && (r[0].minX == fx - 0.5 <==> w) && (r[0].maxX == fx + 0.5 <==> e)
            && (r[0].minZ == fz - 0.5 <==> n) && (r[0].maxZ == fz + 0.5 <==> s)
  {
  }

  // ---- The candidate scan

  /** The colliders of the block at an integer cell of the world. */
  function CellColliders(overlay: map<Coord, int>, terrain: Terrain, x: int, y: int, z: int): (r: seq<Box>)
    ensures forall i :: 0 <= i < |r| ==> InEnvelope(r[i], x, y, z)
  {
    Colliders(Read(overlay, terrain, x, y, z), x, y, z,
              IsConnectable(Read(overlay, terrain, x, y, z - 1)), IsConnectable(Read(overlay, terrain, x, y, z + 1)),
              IsConnectable(Read(overlay, terrain, x - 1, y, z)), IsConnectable(Read(overlay, terrain, x + 1, y, z)))
  }

  /** What the scan asks of each cell: its colliders. */
  type CellMap = (int, int, int) -> seq<Box>

  /** The world's cells, seen through `CellColliders`. */
  function CellsOf(overlay: map<Coord, int>, terrain: Terrain): CellMap
  {
    (x: int, y: int, z: int) => CellColliders(overlay, terrain, x, y, z)
  }

  /** The lists f(lo), f(lo + 1), .., f(lo + n - 1), joined in order. */
  function Joined(f: int -> seq<Box>, lo: int, n: nat): seq<Box>
  {
    if n == 0 then [] else Joined(f, lo, n - 1) + f(lo + n - 1)
  }

  /** The colliders of cells (x, y, z0) .. (x, y, z0 + nz - 1), in order. */
  function ScanZ(cells: CellMap, x: int, y: int, z0: int, nz: nat): seq<Box>
  {
    Joined(z => cells(x, y, z), z0, nz)
  }

  /** Rows y0 .. y0 + ny - 1 of the slab at x, each scanned along z. */
  function ScanY(cells: CellMap, x: int, y0: int, ny: nat, z0: int, nz: nat): seq<Box>
  {
    Joined(y => ScanZ(cells, x, y, z0, nz), y0, ny)
  }

  /** Slabs x0 .. x0 + nx - 1, each scanned along y then z. */
  function ScanX(cells: CellMap, x0: int, nx: nat, y0: int, ny: nat, z0: int, nz: nat): seq<Box>
  {
    Joined(x => ScanY(cells, x, y0, ny, z0, nz), x0, nx)
  }

  /** The number of integers in lo..hi. */
  function Span(lo: int, hi: int): nat
  {
    if hi < lo then 0 else hi - lo + 1
  }

  /** What `fillCandidateBlocks` leaves in the shared candidate list. */
  function Candidates(overlay: map<Coord, int>, terrain: Terrain, box: Box): seq<Box>
  {
    var (x0, y0, z0) := (Floor(box.minX), Floor(box.minY), Floor(box.minZ));
    ScanX(CellsOf(overlay, terrain), x0, Span(x0, Ceil(box.maxX)), y0, Span(y0, Ceil(box.maxY)), z0, Span(z0, Ceil(box.maxZ)))
  }

  /** Everything the joined list holds comes from one of its parts. */
  lemma {:induction false} JoinedSound(f: int -> seq<Box>, lo: int, n: nat, b: Box) returns (i: int)
    requires b in Joined(f, lo, n)
    ensures lo <= i < lo + n && b in f(i)
    decreases n
  {
    if b in Joined(f, lo, n - 1) {
      i := JoinedSound(f, lo, n - 1, b);
    } else {
      i := lo + n - 1;
    }
  }

  /** Every part's contents are in the joined list. */
  lemma {:induction false} JoinedComplete(f: int -> seq<Box>, lo: int, n: nat, i: int, b: Box)
    requires lo <= i < lo + n && b in f(i)
    ensures b in Joined(f, lo, n)
    decreases n
  {
    if i < lo + n - 1 {
      JoinedComplete(f, lo, n - 1, i, b);
    }
  }

  /** Everything the box scan yields comes from one of its cells. */
  lemma ScanXSound(cells: CellMap, x0: int, nx: nat, y0: int, ny: nat, z0: int, nz: nat, b: Box)
    returns (x: int, y: int, z: int)
    requires b in ScanX(cells, x0, nx, y0, ny, z0, nz)
    ensures x0 <= x < x0 + nx && y0 <= y < y0 + ny && z0 <= z < z0 + nz && b in cells(x, y, z)
  {
    x := JoinedSound(v => ScanY(cells, v, y0, ny, z0, nz), x0, nx, b);
    y := JoinedSound(v => ScanZ(cells, x, v, z0, nz), y0, ny, b);
    z := JoinedSound(v => cells(x, y, v), z0, nz, b);
  }

  /** Every collider of the box's cells is found. */
  lemma ScanXComplete(cells: CellMap, x0: int, nx: nat, y0: int, ny: nat, z0: int, nz: nat,
                      x: int, y: int, z: int, b: Box)
    requires x0 <= x < x0 + nx && y0 <= y < y0 + ny && z0 <= z < z0 + nz && b in cells(x, y, z)
    ensures b in ScanX(cells, x0, nx, y0, ny, z0, nz)
  {
    JoinedComplete(v => cells(x, y, v), z0, nz, z, b);
    JoinedComplete(v => ScanZ(cells, x, v, z0, nz), y0, ny, y, b);
    JoinedComplete(v => ScanY(cells, v, y0, ny, z0, nz), x0, nx, x, b);
  }

  /** The scan yields exactly the colliders of the cells in the given ranges. */
  lemma ScanXMembers(cells: CellMap, x0: int, nx: nat, y0: int, ny: nat, z0: int, nz: nat, b: Box)
    ensures b in ScanX(cells, x0, nx, y0, ny, z0, nz) <==>
            exists x, y, z :: x0 <= x < x0 + nx && y0 <= y < y0 + ny && z0 <= z < z0 + nz && b in cells(x, y, z)
  {
    if b in ScanX(cells, x0, nx, y0, ny, z0, nz) {
      var x, y, z := ScanXSound(cells, x0, nx, y0, ny, z0, nz, b);
    }
    forall x, y, z | x0 <= x < x0 + nx && y0 <= y < y0 + ny && z0 <= z < z0 + nz && b in cells(x, y, z)
      ensures b in ScanX(cells, x0, nx, y0, ny, z0, nz)
    {
      ScanXComplete(cells, x0, nx, y0, ny, z0, nz, x, y, z, b);
    }
  }

  /** The candidates are exactly the colliders of the cells from floor(min)
      to ceil(max) on every axis. */
  lemma CandidateCells(overlay: map<Coord, int>, terrain: Terrain, box: Box, b: Box)
    ensures b in Candidates(overlay, terrain, box) <==>
            exists x, y, z :: Floor(box.minX) <= x <= Ceil(box.maxX) && Floor(box.minY) <= y <= Ceil(box.maxY) &&
                              Floor(box.minZ) <= z <= Ceil(box.maxZ) && b in CellsOf(overlay, terrain)(x, y, z)
  {
    var (x0, y0, z0) := (Floor(box.minX), Floor(box.minY), Floor(box.minZ));
    ScanXMembers(CellsOf(overlay, terrain), x0, Span(x0, Ceil(box.maxX)), y0, Span(y0, Ceil(box.maxY)), z0, Span(z0, Ceil(box.maxZ)), b);
  }

  /** The scan misses no collision: any collider of any cell that overlaps
      the box is among the candidates. */
  lemma CandidatesComplete(overlay: map<Coord, int>, terrain: Terrain, box: Box, x: int, y: int, z: int, b: Box)
    requires b in CellColliders(overlay, terrain, x, y, z) && Intersect(box, b)
    ensures b in Candidates(overlay, terrain, box)
  {
    var cs := CellColliders(overlay, terrain, x, y, z);
    var i :| 0 <= i < |cs| && cs[i] == b;
    assert InEnvelope(b, x, y, z);
    assert Floor(box.minX) <= x <= Ceil(box.maxX);
    assert Floor(box.minY) <= y <= Ceil(box.maxY);
    assert Floor(box.minZ) <= z <= Ceil(box.maxZ);
    assert b in CellsOf(overlay, terrain)(x, y, z);
    CandidateCells(overlay, terrain, box, b);
  }

  /** The innermost loop of `fillCandidateBlocks`: one row along z. */
  method ScanRow(cells: CellMap, candidates: seq<Box>, x: int, y: int, startZ: int, endZ: int) returns (candidates': seq<Box>)
    ensures candidates' == candidates + ScanZ(cells, x, y, startZ, Span(startZ, endZ))
  {
    candidates' := candidates;
    var z := startZ;
    while z <= endZ
      invariant startZ <= z && z - startZ <= Span(startZ, endZ)
      invariant candidates' == candidates + ScanZ(cells, x, y, startZ, z - startZ)
    {
      candidates' := candidates' + cells(x, y, z);
      z := z + 1;
    }
  }

  /** The middle loop: the rows of one slab along y. */
  method ScanSlab(cells: CellMap, candidates: seq<Box>, x: int, startY: int, endY: int, startZ: int, endZ: int)
    returns (candidates': seq<Box>)
    ensures candidates' == candidates + ScanY(cells, x, startY, Span(startY, endY), startZ, Span(startZ, endZ))
  {
    candidates' := candidates;
    var y := startY;
    while y <= endY
      invariant startY <= y && y - startY <= Span(startY, endY)
      invariant candidates' == candidates + ScanY(cells, x, startY, y - startY, startZ, Span(startZ, endZ))
    {
      candidates' := ScanRow(cells, candidates', x, y, startZ, endZ);
      y := y + 1;
    }
  }

  /** `fillCandidateBlocks`: clear the candidate list, then the triple loop
      over the cells the box touches. */
  method FillCandidates(overlay: map<Coord, int>, terrain: Terrain, box: Box) returns (candidates: seq<Box>)
    ensures candidates == Candidates(overlay, terrain, box)
  {
    var (startX, endX) := (Floor(box.minX), Ceil(box.maxX));
    var (startY, endY) := (Floor(box.minY), Ceil(box.maxY));
    var (startZ, endZ) := (Floor(box.minZ), Ceil(box.maxZ));
    var cells := CellsOf(overlay, terrain);
    candidates := [];
    var x := startX;
    while x <= endX
      invariant startX <= x && x - startX <= Span(startX, endX)
      invariant candidates == ScanX(cells, startX, x - startX, startY, Span(startY, endY), startZ, Span(startZ, endZ))
    {
      candidates := ScanSlab(cells, candidates, x, startY, endY, startZ, endZ);
      x := x + 1;
    }
  }

  // ---- The resolver

  /** A vector value. */
  datatype Vec = Vec(x: real, y: real, z: real)

  /** `THREE.Vector3`, updated in place by the resolver. */
  class Vec3 {
    var x: real
    var y: real
    var z: real

    constructor(v: Vec)
      ensures Val() == v
    {
      x, y, z := v.x, v.y, v.z;
    }

    function Val(): Vec
      reads this
    {
      Vec(x, y, z)
    }
  }

  /** The body's width and height. */
  datatype Dims = Dims(width: real, height: real)

  /** A body in the middle of a step: position, velocity, the box the
      resolver tests against, and whether it has landed. */
  datatype Motion = Motion(pos: Vec, vel: Vec, box: Box, grounded: bool)

  /** The largest rise the X and Z passes climb instead of stopping. */
  const STEP_HEIGHT: real := 0.6

  /** Gravity, drag in water, and terminal fall speeds (3 in water, 30 in air). */
  function Forces(inWater: bool, v: Vec, dt: real): (r: Vec)
    ensures inWater ==> r == Vec(0.8 * v.x, MaxR(-3.0, 0.9 * (v.y - 5.0 * dt)), 0.8 * v.z)
    ensures !inWater ==> r == Vec(v.x, MaxR(-30.0, v.y - 25.0 * dt), v.z)
  {
    if inWater then
      var vy := (v.y - 5.0 * dt) * 0.9;
      Vec(v.x * 0.8, if vy < -3.0 then -3.0 else vy, v.z * 0.8)
    else
      var vy := v.y - 25.0 * dt;
      Vec(v.x, if vy < -30.0 then -30.0 else vy, v.z)
  }

  /** The box tracks the body horizontally: half-width `halfW` around x and z. */
  predicate TracksX(m: Motion, halfW: real)
  {
    m.box.minX == m.pos.x - halfW && m.box.maxX == m.pos.x + halfW
  }

  predicate TracksZ(m: Motion, halfW: real)
  {
    m.box.minZ == m.pos.z - halfW && m.box.maxZ == m.pos.z + halfW
  }

  /** One candidate in the X pass: climb a low obstacle, otherwise stop
      against its face. */
  function HitX(m: Motion, b: Box, halfW: real): Motion
  {
    if !Intersect(m.box, b) then m
    else if 0.0 < b.maxY - m.pos.y <= STEP_HEIGHT then m.(pos := m.pos.(y := b.maxY + 0.001))
    else
      var x := if m.vel.x > 0.0 then b.minX - halfW - 0.001 else if m.vel.x < 0.0 then b.maxX + halfW + 0.001 else m.pos.x;
      m.(pos := m.pos.(x := x), vel := m.vel.(x := 0.0), box := m.box.(minX := x - halfW, maxX := x + halfW))
  }

  /** One candidate in the Z pass. */
  function HitZ(m: Motion, b: Box, halfW: real): Motion
  {
    if !Intersect(m.box, b) then m
    else if 0.0 < b.maxY - m.pos.y <= STEP_HEIGHT then m.(pos := m.pos.(y := b.maxY + 0.001))
    else
      var z := if m.vel.z > 0.0 then b.minZ - halfW - 0.001 else if m.vel.z < 0.0 then b.maxZ + halfW + 0.001 else m.pos.z;
      m.(pos := m.pos.(z := z), vel := m.vel.(z := 0.0), box := m.box.(minZ := z - halfW, maxZ := z + halfW))
  }

  /** One candidate in the Y pass: land on it or bump the head against it. */
  function HitY(m: Motion, b: Box, height: real): Motion
  {
    if !Intersect(m.box, b) then m
    else
      var (y, vy, grounded) :=
        if m.vel.y > 0.0 then (b.minY - height - 0.001, 0.0, m.grounded)
        else if m.vel.y < 0.0 then (b.maxY + 0.001, 0.0, true)
        else (m.pos.y, m.vel.y, m.grounded);
      m.(pos := m.pos.(y := y), vel := m.vel.(y := vy), grounded := grounded, box := m.box.(minY := y, maxY := y + height))
  }

  /** The candidates visited in order. */
  function ResolveX(m: Motion, cands: seq<Box>, halfW: real): Motion
  {
    if cands == [] then m else HitX(ResolveX(m, cands[..|cands| - 1], halfW), cands[|cands| - 1], halfW)
  }

  function ResolveZ(m: Motion, cands: seq<Box>, halfW: real): Motion
  {
    if cands == [] then m else HitZ(ResolveZ(m, cands[..|cands| - 1], halfW), cands[|cands| - 1], halfW)
  }

  function ResolveY(m: Motion, cands: seq<Box>, height: real): Motion
  {
    if cands == [] then m else HitY(ResolveY(m, cands[..|cands| - 1], height), cands[|cands| - 1], height)
  }

  /** A hit in the X pass either climbs (only y changes, rising by at most
      STEP_HEIGHT + 0.001) or stops the body, which then no longer overlaps
      the obstacle if it was moving. It climbs exactly when the obstacle's
      top is above the feet by at most STEP_HEIGHT, landing 0.001 above the
      top with its velocity kept; otherwise x velocity drops to zero and the
      body is clamped against the face it ran into. */
  lemma HitXOutcomes(m: Motion, b: Box, halfW: real)
    requires TracksX(m, halfW) && Intersect(m.box, b)
    ensures var r := HitX(m, b, halfW);
            || (r == m.(pos := r.pos) && r.pos == m.pos.(y := r.pos.y) && m.pos.y < r.pos.y <= m.pos.y + STEP_HEIGHT + 0.001)
            || (r.vel == m.vel.(x := 0.0) && r.pos == m.pos.(x := r.pos.x) && TracksX(r, halfW) &&
                (m.vel.x != 0.0 ==> !Intersect(r.box, b)))
    ensures 0.0 < b.maxY - m.pos.y <= STEP_HEIGHT ==>
              HitX(m, b, halfW) == m.(pos := m.pos.(y := b.maxY + 0.001))
    ensures !(0.0 < b.maxY - m.pos.y <= STEP_HEIGHT) ==>
              var r := HitX(m, b, halfW);
              && r.vel == m.vel.(x := 0.0)
              && r.pos == m.pos.(x := if m.vel.x > 0.0 then b.minX - halfW - 0.001
                                   else if m.vel.x < 0.0 then b.maxX + halfW + 0.001
                                   else m.pos.x)
  {
  }

  /** The same two outcomes in the Z pass. */
  lemma HitZOutcomes(m: Motion, b: Box, halfW: real)
    requires TracksZ(m, halfW) && Intersect(m.box, b)
    ensures var r := HitZ(m, b, halfW);
            || (r == m.(pos := r.pos) && r.pos == m.pos.(y := r.pos.y) && m.pos.y < r.pos.y <= m.pos.y + STEP_HEIGHT + 0.001)
            || (r.vel == m.vel.(z := 0.0) && r.pos == m.pos.(z := r.pos.z) && TracksZ(r, halfW) &&
                (m.vel.z != 0.0 ==> !Intersect(r.box, b)))
    ensures 0.0 < b.maxY - m.pos.y <= STEP_HEIGHT ==>
              HitZ(m, b, halfW) == m.(pos := m.pos.(y := b.maxY + 0.001))
    ensures !(0.0 < b.maxY - m.pos.y <= STEP_HEIGHT) ==>
              var r := HitZ(m, b, halfW);
              && r.vel == m.vel.(z := 0.0)
              && r.pos == m.pos.(z := if m.vel.z > 0.0 then b.minZ - halfW - 0.001
                                   else if m.vel.z < 0.0 then b.maxZ + halfW + 0.001
                                   else m.pos.z)
  {
  }

  /** A hit in the Y pass that was moving leaves the body clear of the
      obstacle: on top of it when falling, below it when rising. */
  lemma HitYSeparates(m: Motion, b: Box, height: real)
    requires m.box.minY == m.pos.y && m.box.maxY == m.pos.y + height && Intersect(m.box, b) && m.vel.y != 0.0
    ensures var r := HitY(m, b, height);
            && !Intersect(r.box, b) && r.vel.y == 0.0
            && (m.vel.y < 0.0 ==> r.grounded && r.pos.y == b.maxY + 0.001)
            && (m.vel.y > 0.0 ==> r.grounded == m.grounded && r.box.maxY == b.minY - 0.001)
  {
  }

  /** The X pass never lowers the body, moves it only along x and up, keeps
      the box on the body, and either keeps the x velocity or zeroes it. */
  lemma {:induction false} ResolveXFacts(m: Motion, cands: seq<Box>, halfW: real)
    requires TracksX(m, halfW)
    ensures var r := ResolveX(m, cands, halfW);
            && TracksX(r, halfW) && r.pos.y >= m.pos.y && r.pos.z == m.pos.z
            && r.vel.y == m.vel.y && r.vel.z == m.vel.z && (r.vel.x == m.vel.x || r.vel.x == 0.0)
            && r.grounded == m.grounded
            && r.box.minY == m.box.minY && r.box.maxY == m.box.maxY && r.box.minZ == m.box.minZ && r.box.maxZ == m.box.maxZ
  {
    if cands != [] {
      ResolveXFacts(m, cands[..|cands| - 1], halfW);
    }
  }

  /** The Z pass, symmetrically. */
  lemma {:induction false} ResolveZFacts(m: Motion, cands: seq<Box>, halfW: real)
    requires TracksZ(m, halfW)
    ensures var r := ResolveZ(m, cands, halfW);
            && TracksZ(r, halfW) && r.pos.y >= m.pos.y && r.pos.x == m.pos.x
            && r.vel.x == m.vel.x && r.vel.y == m.vel.y && (r.vel.z == m.vel.z || r.vel.z == 0.0)
            && r.grounded == m.grounded
            && r.box.minY == m.box.minY && r.box.maxY == m.box.maxY && r.box.minX == m.box.minX && r.box.maxX == m.box.maxX
  {
    if cands != [] {
      ResolveZFacts(m, cands[..|cands| - 1], halfW);
    }
  }

  /** The Y pass moves the body only vertically, keeps or zeroes the vertical
      velocity, grounds it only when it was falling, and a grounded body is
      at rest vertically. */
  lemma {:induction false} ResolveYFacts(m: Motion, cands: seq<Box>, height: real)
    requires m.grounded ==> m.vel.y == 0.0
    ensures var r := ResolveY(m, cands, height);
            && r.pos.x == m.pos.x && r.pos.z == m.pos.z && r.vel.x == m.vel.x && r.vel.z == m.vel.z
            && (r.vel.y == m.vel.y || r.vel.y == 0.0)
            && (r.grounded ==> r.vel.y == 0.0)
            && (r.grounded ==> m.grounded || m.vel.y < 0.0)
  {
    if cands != [] {
      ResolveYFacts(m, cands[..|cands| - 1], height);
    }
  }

  /** What one step returns along with the new position and velocity. */
  datatype Outcome = Outcome(pos: Vec, vel: Vec, grounded: bool, inWater: bool)

  /** Whether the block at the body's centre height is water. */
  function InWater(overlay: map<Coord, int>, terrain: Terrain, pos: Vec, dims: Dims): bool
  {
    IsWater(Read(overlay, terrain, Round(pos.x), Round(pos.y + dims.height / 2.0), Round(pos.z)))
  }

  /** The body moved along x by its velocity, with a fresh box. */
  function MovedX(pos: Vec, vel: Vec, dims: Dims, dt: real): Motion
  {
    var halfW := dims.width / 2.0;
    var x := pos.x + vel.x * dt;
    Motion(pos.(x := x), vel, Box(x - halfW, x + halfW, pos.y, pos.y + dims.height, pos.z - halfW, pos.z + halfW), false)
  }

  /** The body moved along z; the box keeps its stale y extent. */
  function MovedZ(m: Motion, dims: Dims, dt: real): Motion
  {
    var halfW := dims.width / 2.0;
    var z := m.pos.z + m.vel.z * dt;
    m.(pos := m.pos.(z := z), box := m.box.(minZ := z - halfW, maxZ := z + halfW))
  }

  /** The body moved along y, the box brought to its height. */
  function MovedY(m: Motion, dims: Dims, dt: real): Motion
  {
    var y := m.pos.y + m.vel.y * dt;
    m.(pos := m.pos.(y := y), box := m.box.(minY := y, maxY := y + dims.height))
  }

  /** The X pass from a body after forces. */
  function PassX(overlay: map<Coord, int>, terrain: Terrain, pos: Vec, vel: Vec, dims: Dims, dt: real): Motion
  {
    var m := MovedX(pos, vel, dims, dt);
    ResolveX(m, Candidates(overlay, terrain, m.box), dims.width / 2.0)
  }

  /** The Z pass. */
  function PassZ(overlay: map<Coord, int>, terrain: Terrain, m: Motion, dims: Dims, dt: real): Motion
  {
    var m' := MovedZ(m, dims, dt);
    ResolveZ(m', Candidates(overlay, terrain, m'.box), dims.width / 2.0)
  }

  /** The Y pass. */
  function PassY(overlay: map<Coord, int>, terrain: Terrain, m: Motion, dims: Dims, dt: real): Motion
  {
    var m' := MovedY(m, dims, dt);
    ResolveY(m', Candidates(overlay, terrain, m'.box), dims.height)
  }

  /** `performPhysicsStep`: forces, then X, Z and Y, then the floor at -20. */
  function PhysicsStep(overlay: map<Coord, int>, terrain: Terrain, pos: Vec, vel: Vec, dims: Dims, dt: real): Outcome
  {
    var inWater := InWater(overlay, terrain, pos, dims);
    var mx := PassX(overlay, terrain, pos, Forces(inWater, vel, dt), dims, dt);
    var my := PassY(overlay, terrain, PassZ(overlay, terrain, mx, dims, dt), dims, dt);
    Outcome(my.pos.(y := if my.pos.y < -20.0 then -20.0 else my.pos.y), my.vel, my.grounded, inWater)
  }

  lemma PassXFacts(overlay: map<Coord, int>, terrain: Terrain, pos: Vec, vel: Vec, dims: Dims, dt: real)
    ensures var r := PassX(overlay, terrain, pos, vel, dims, dt);
            && r.vel.y == vel.y && r.vel.z == vel.z && (r.vel.x == vel.x || r.vel.x == 0.0) && !r.grounded
  {
    var m := MovedX(pos, vel, dims, dt);
    ResolveXFacts(m, Candidates(overlay, terrain, m.box), dims.width / 2.0);
  }

  lemma PassZFacts(overlay: map<Coord, int>, terrain: Terrain, m: Motion, dims: Dims, dt: real)
    ensures var r := PassZ(overlay, terrain, m, dims, dt);
            && r.vel.x == m.vel.x && r.vel.y == m.vel.y && (r.vel.z == m.vel.z || r.vel.z == 0.0) && r.grounded == m.grounded
  {
    var m' := MovedZ(m, dims, dt);
    assert TracksZ(m', dims.width / 2.0);
    ResolveZFacts(m', Candidates(overlay, terrain, m'.box), dims.width / 2.0);
  }

  lemma PassYFacts(overlay: map<Coord, int>, terrain: Terrain, m: Motion, dims: Dims, dt: real)
    requires m.grounded ==> m.vel.y == 0.0
    ensures var r := PassY(overlay, terrain, m, dims, dt);
            && r.vel.x == m.vel.x && r.vel.z == m.vel.z && (r.vel.y == m.vel.y || r.vel.y == 0.0)
            && (r.grounded ==> r.vel.y == 0.0)
  {
    var m' := MovedY(m, dims, dt);
    ResolveYFacts(m', Candidates(overlay, terrain, m'.box), dims.height);
  }

  /** After a step: the body is not below -20; a grounded body has no
      vertical velocity; the fall speed is capped (3 in water, 30 in air);
      and each horizontal velocity is the one after forces or zero. */
  lemma StepFacts(overlay: map<Coord, int>, terrain: Terrain, pos: Vec, vel: Vec, dims: Dims, dt: real)
    ensures var o := PhysicsStep(overlay, terrain, pos, vel, dims, dt);
            var f := Forces(o.inWater, vel, dt);
            && o.pos.y >= -20.0
            && (o.grounded ==> o.vel.y == 0.0)
            && o.vel.y >= (if o.inWater then -3.0 else -30.0)
            && (o.vel.x == f.x || o.vel.x == 0.0) && (o.vel.z == f.z || o.vel.z == 0.0)
  {
    var inWater := InWater(overlay, terrain, pos, dims);
    var f := Forces(inWater, vel, dt);
    PassXFacts(overlay, terrain, pos, f, dims, dt);
    var mx := PassX(overlay, terrain, pos, f, dims, dt);
    PassZFacts(overlay, terrain, mx, dims, dt);
    PassYFacts(overlay, terrain, PassZ(overlay, terrain, mx, dims, dt), dims, dt);
  }

  /** The X pass over the candidates, in place. */
  method MoveX(position: Vec3, velocity: Vec3, box: Box, halfW: real, cands: seq<Box>) returns (box': Box)
    requires position != velocity
    modifies position, velocity
    ensures Motion(position.Val(), velocity.Val(), box', false)
            == ResolveX(Motion(old(position.Val()), old(velocity.Val()), box, false), cands, halfW)
  {
    ghost var m0 := Motion(position.Val(), velocity.Val(), box, false);
    box' := box;
    var i := 0;
    while i < |cands|
      invariant 0 <= i <= |cands|
      invariant Motion(position.Val(), velocity.Val(), box', false) == ResolveX(m0, cands[..i], halfW)
    {
      var blockBox := cands[i];
      if Intersect(box', blockBox) {
        var overlapY := blockBox.maxY - position.y;
        if overlapY > 0.0 && overlapY <= STEP_HEIGHT {
          position.y := blockBox.maxY + 0.001;
        } else {
          if velocity.x > 0.0 {
            position.x := blockBox.minX - halfW - 0.001;
          } else if velocity.x < 0.0 {
            position.x := blockBox.maxX + halfW + 0.001;
          }
          velocity.x := 0.0;
          box' := box'.(minX := position.x - halfW, maxX := position.x + halfW);
        }
      }
      assert cands[..i + 1][..i] == cands[..i];
      i := i + 1;
    }
    assert cands[..i] == cands;
  }

  /** The Z pass over the candidates, in place. */
  method MoveZ(position: Vec3, velocity: Vec3, box: Box, halfW: real, cands: seq<Box>) returns (box': Box)
    requires position != velocity
    modifies position, velocity
    ensures Motion(position.Val(), velocity.Val(), box', false)
            == ResolveZ(Motion(old(position.Val()), old(velocity.Val()), box, false), cands, halfW)
  {
    ghost var m0 := Motion(position.Val(), velocity.Val(), box, false);
    box' := box;
    var i := 0;
    while i < |cands|
      invariant 0 <= i <= |cands|
      invariant Motion(position.Val(), velocity.Val(), box', false) == ResolveZ(m0, cands[..i], halfW)
    {
      var blockBox := cands[i];
      if Intersect(box', blockBox) {
        var overlapY := blockBox.maxY - position.y;
        if overlapY > 0.0 && overlapY <= STEP_HEIGHT {
          position.y := blockBox.maxY + 0.001;
        } else {
          if velocity.z > 0.0 {
            position.z := blockBox.minZ - halfW - 0.001;
          } else if velocity.z < 0.0 {
            position.z := blockBox.maxZ + halfW + 0.001;
          }
          velocity.z := 0.0;
          box' := box'.(minZ := position.z - halfW, maxZ := position.z + halfW);
        }
      }
      assert cands[..i + 1][..i] == cands[..i];
      i := i + 1;
    }
    assert cands[..i] == cands;
  }

  /** The Y pass over the candidates, in place. */
  method MoveY(position: Vec3, velocity: Vec3, box: Box, height: real, cands: seq<Box>) returns (box': Box, grounded: bool)
    requires position != velocity
    modifies position, velocity
    ensures Motion(position.Val(), velocity.Val(), box', grounded)
            == ResolveY(Motion(old(position.Val()), old(velocity.Val()), box, false), cands, height)
  {
    ghost var m0 := Motion(position.Val(), velocity.Val(), box, false);
    box', grounded := box, false;
    var i := 0;
    while i < |cands|
      invariant 0 <= i <= |cands|
      invariant Motion(position.Val(), velocity.Val(), box', grounded) == ResolveY(m0, cands[..i], height)
    {
      var blockBox := cands[i];
      if Intersect(box', blockBox) {
        if velocity.y > 0.0 {
          position.y := blockBox.minY - height - 0.001;
          velocity.y := 0.0;
        } else if velocity.y < 0.0 {
          position.y := blockBox.maxY + 0.001;
          velocity.y := 0.0;
          grounded := true;
        }
        box' := box'.(minY := position.y, maxY := position.y + height);
      }
      assert cands[..i + 1][..i] == cands[..i];
      i := i + 1;
    }
    assert cands[..i] == cands;
  }

  /** The forces, applied to the velocity in place. */
  method ApplyForces(velocity: Vec3, inWater: bool, stepDt: real)
    modifies velocity
    ensures velocity.Val() == Forces(inWater, old(velocity.Val()), stepDt)
  {
    if inWater {
      velocity.y := velocity.y - 5.0 * stepDt;
      velocity.x := velocity.x * 0.8;
      velocity.z := velocity.z * 0.8;
      velocity.y := velocity.y * 0.9;
      if velocity.y < -3.0 {
        velocity.y := -3.0;
      }
    } else {
      velocity.y := velocity.y - 25.0 * stepDt;
      if velocity.y < -30.0 {
        velocity.y := -30.0;
      }
    }
  }

  /** Move along x, gather the candidates, resolve. */
  method StepX(position: Vec3, velocity: Vec3, dims: Dims, stepDt: real, overlay: map<Coord, int>, terrain: Terrain)
    returns (box: Box)
    requires position != velocity
    modifies position, velocity
    ensures Motion(position.Val(), velocity.Val(), box, false)
            == PassX(overlay, terrain, old(position.Val()), old(velocity.Val()), dims, stepDt)
  {
    ghost var m0 := MovedX(position.Val(), velocity.Val(), dims, stepDt);
    var halfW := dims.width / 2.0;
    var x := position.x + velocity.x * stepDt;
    position.x := x;
    box := Box(x - halfW, x + halfW, position.y, position.y + dims.height, position.z - halfW, position.z + halfW);
    assert m0 == Motion(position.Val(), velocity.Val(), box, false);
    var cands := FillCandidates(overlay, terrain, box);
    box := MoveX(position, velocity, box, halfW, cands);
  }

  /** Move along z, gather the candidates, resolve. */
  method StepZ(position: Vec3, velocity: Vec3, box: Box, dims: Dims, stepDt: real, overlay: map<Coord, int>, terrain: Terrain)
    returns (box': Box)
    requires position != velocity
    modifies position, velocity
    ensures Motion(position.Val(), velocity.Val(), box', false)
            == PassZ(overlay, terrain, Motion(old(position.Val()), old(velocity.Val()), box, false), dims, stepDt)
  {
    ghost var m0 := MovedZ(Motion(position.Val(), velocity.Val(), box, false), dims, stepDt);
    var halfW := dims.width / 2.0;
    var z := position.z + velocity.z * stepDt;
    position.z := z;
    box' := box.(minZ := z - halfW, maxZ := z + halfW);
    assert m0 == Motion(position.Val(), velocity.Val(), box', false);
    var cands := FillCandidates(overlay, terrain, box');
    box' := MoveZ(position, velocity, box', halfW, cands);
  }

  /** Move along y, gather the candidates, resolve. */
  method StepY(position: Vec3, velocity: Vec3, box: Box, dims: Dims, stepDt: real, overlay: map<Coord, int>, terrain: Terrain)
    returns (box': Box, grounded: bool)
    requires position != velocity
    modifies position, velocity
    ensures Motion(position.Val(), velocity.Val(), box', grounded)
            == PassY(overlay, terrain, Motion(old(position.Val()), old(velocity.Val()), box, false), dims, stepDt)
  {
    ghost var m0 := MovedY(Motion(position.Val(), velocity.Val(), box, false), dims, stepDt);
    var y := position.y + velocity.y * stepDt;
    position.y := y;
    box' := box.(minY := y, maxY := y + dims.height);
    assert m0 == Motion(position.Val(), velocity.Val(), box', false);
    var cands := FillCandidates(overlay, terrain, box');
    box', grounded := MoveY(position, velocity, box', dims.height, cands);
  }

  /** `performPhysicsStep`, updating position and velocity in place. */
  method PerformPhysicsStep(position: Vec3, velocity: Vec3, dims: Dims, stepDt: real, overlay: map<Coord, int>, terrain: Terrain)
    returns (grounded: bool, inWater: bool)
    requires position != velocity
    modifies position, velocity
    ensures Outcome(position.Val(), velocity.Val(), grounded, inWater)
            == PhysicsStep(overlay, terrain, old(position.Val()), old(velocity.Val()), dims, stepDt)
  {
    ghost var pos0, vel0 := position.Val(), velocity.Val();
    var centerBlock := Read(overlay, terrain, Round(position.x), Round(position.y + dims.height / 2.0), Round(position.z));
    inWater := IsWater(centerBlock);
    assert inWater == InWater(overlay, terrain, pos0, dims);
    ApplyForces(velocity, inWater, stepDt);
    ghost var f := Forces(inWater, vel0, stepDt);
    var box := StepX(position, velocity, dims, stepDt, overlay, terrain);
    ghost var mx := PassX(overlay, terrain, pos0, f, dims, stepDt);
    assert mx == Motion(position.Val(), velocity.Val(), box, false);
    box := StepZ(position, velocity, box, dims, stepDt, overlay, terrain);
    ghost var mz := PassZ(overlay, terrain, mx, dims, stepDt);
    assert mz == Motion(position.Val(), velocity.Val(), box, false);
    box, grounded := StepY(position, velocity, box, dims, stepDt, overlay, terrain);
    ghost var my := PassY(overlay, terrain, mz, dims, stepDt);
    assert my == Motion(position.Val(), velocity.Val(), box, grounded);
    if position.y < -20.0 {
      position.y := -20.0;
    }
    assert PhysicsStep(overlay, terrain, pos0, vel0, dims, stepDt)
        == Outcome(my.pos.(y := if my.pos.y < -20.0 then -20.0 else my.pos.y), my.vel, my.grounded, inWater);
  }

  // ---- Substeps

  /** The largest speed component. */
  function MaxSpeed(v: Vec): real
  {
    MaxR(MaxR(AbsR(v.x), AbsR(v.y)), AbsR(v.z))
  }

  /** `Math.ceil(Math.max(1, maxSpeed * dt / 0.4))`. */
  function SubstepCount(v: Vec, dt: real): (steps: int)
    ensures steps >= 1
  {
    Ceil(MaxR(1.0, MaxSpeed(v) * dt / 0.4))
  }

  /** Each substep moves at most 0.4 along any axis at the starting speed. */
  lemma SubstepBound(v: Vec, dt: real)
    requires dt >= 0.0
    ensures MaxSpeed(v) * (dt / SubstepCount(v, dt) as real) <= 0.4
  {
    var n := SubstepCount(v, dt) as real;
    assert MaxSpeed(v) * dt / 0.4 <= n;
    ShareBound(MaxSpeed(v), dt, n);
  }

  /** A distance of at most 0.4·n shared over n steps is at most 0.4 each. */
  lemma ShareBound(s: real, dt: real, n: real)
    requires s >= 0.0 && dt >= 0.0 && n >= 1.0 && s * dt / 0.4 <= n
    ensures s * (dt / n) <= 0.4
  {
    var d := s * dt;
    assert d <= 0.4 * n;
    assert s * (dt / n) == d / n;
    assert d / n <= (0.4 * n) / n;
  }

  /** n substeps of `dt` each; the flags are those of the last one. */
  function Substeps(overlay: map<Coord, int>, terrain: Terrain, pos: Vec, vel: Vec, dims: Dims, dt: real, n: nat): Outcome
  {
    if n == 0 then Outcome(pos, vel, false, false)
    else
      var o := Substeps(overlay, terrain, pos, vel, dims, dt, n - 1);
      PhysicsStep(overlay, terrain, o.pos, o.vel, dims, dt)
  }

  lemma SubstepsNext(overlay: map<Coord, int>, terrain: Terrain, pos: Vec, vel: Vec, dims: Dims, dt: real, n: nat)
    ensures var o := Substeps(overlay, terrain, pos, vel, dims, dt, n);
            Substeps(overlay, terrain, pos, vel, dims, dt, n + 1) == PhysicsStep(overlay, terrain, o.pos, o.vel, dims, dt)
  {
  }

  /** After `applyPhysics` (at least one substep) the body is above -20 and a
      grounded body has no vertical velocity. */
  lemma ApplyFacts(overlay: map<Coord, int>, terrain: Terrain, pos: Vec, vel: Vec, dims: Dims, dt: real)
    ensures var o := Substeps(overlay, terrain, pos, vel, dims, dt / SubstepCount(vel, dt) as real, SubstepCount(vel, dt));
            o.pos.y >= -20.0 && (o.grounded ==> o.vel.y == 0.0)
  {
    var stepDt := dt / SubstepCount(vel, dt) as real;
    var o := Substeps(overlay, terrain, pos, vel, dims, stepDt, SubstepCount(vel, dt) - 1);
    StepFacts(overlay, terrain, o.pos, o.vel, dims, stepDt);
  }

  /** The substep loop of `applyPhysics`. */
  method RunSubsteps(position: Vec3, velocity: Vec3, dims: Dims, stepDt: real, steps: nat, overlay: map<Coord, int>, terrain: Terrain)
    returns (grounded: bool, inWater: bool)
    requires position != velocity
    modifies position, velocity
    ensures Outcome(position.Val(), velocity.Val(), grounded, inWater)
            == Substeps(overlay, terrain, old(position.Val()), old(velocity.Val()), dims, stepDt, steps)
  {
    ghost var pos0, vel0 := position.Val(), velocity.Val();
    grounded, inWater := false, false;
    var i := 0;
    while i < steps
      invariant 0 <= i <= steps
      invariant Outcome(position.Val(), velocity.Val(), grounded, inWater)
                == Substeps(overlay, terrain, pos0, vel0, dims, stepDt, i)
    {
      ghost var o := Substeps(overlay, terrain, pos0, vel0, dims, stepDt, i);
      grounded, inWater := PerformPhysicsStep(position, velocity, dims, stepDt, overlay, terrain);
      SubstepsNext(overlay, terrain, pos0, vel0, dims, stepDt, i);
      i := i + 1;
    }
  }

  /** `applyPhysics`: split the frame into substeps and run them in order. */
  method ApplyPhysics(position: Vec3, velocity: Vec3, dims: Dims, dt: real, overlay: map<Coord, int>, terrain: Terrain)
    returns (grounded: bool, inWater: bool)
    requires position != velocity
    modifies position, velocity
    ensures var steps := SubstepCount(old(velocity.Val()), dt);
            Outcome(position.Val(), velocity.Val(), grounded, inWater)
            == Substeps(overlay, terrain, old(position.Val()), old(velocity.Val()), dims, dt / steps as real, steps)
  {
    var maxSpeed := MaxR(MaxR(AbsR(velocity.x), AbsR(velocity.y)), AbsR(velocity.z));
    var steps := Ceil(MaxR(1.0, maxSpeed * dt / 0.4));
    assert steps == SubstepCount(velocity.Val(), dt);
    var stepDt := dt / steps as real;
    grounded, inWater := RunSubsteps(position, velocity, dims, stepDt, steps, overlay, terrain);
  }
}
