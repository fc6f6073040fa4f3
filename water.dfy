/** The fluid cellular automaton: a queue of cells to revisit, drained one
    tick at a time. Every read in a tick sees the overlay as it was before the
    tick; the tick's writes are collected and applied at its end. */
module WaterSystem {
  import opened Common
  import opened Config
  import opened Blocks
  import opened WorldGen

  /** The module-level `waterUpdateQueue`: a set of cells, kept in insertion order. */
  class WaterQueue {
    var pending: seq<Coord>

    ghost predicate Valid()
      reads this
    {
      NoDup(pending)
    }

    constructor()
      ensures pending == [] && Valid()
    {
      pending := [];
    }

    /** `addToWaterQueue`: enqueue the cell the point rounds into. */
    method Enqueue(x: real, y: real, z: real)
      requires Valid()
      modifies this
      ensures Valid()
      ensures pending == Add(old(pending), (Round(x), Round(y), Round(z)))
    {
      pending := Add(pending, (Round(x), Round(y), Round(z)));
    }
  }

  /** `isPassable`: cells that water may flow into. */
  predicate IsPassable(t: int)
  {
    t == AIR || t == TALL_GRASS || t == RED_FLOWER || t == YELLOW_FLOWER || t == WHEAT
  }

  /** The three flowing stages. */
  predicate IsFlow(t: int)
  {
    t == WATER_FLOW_1 || t == WATER_FLOW_2 || t == WATER_FLOW_3
  }

  /** `getNextFlowBlock`: the stage one step weaker, or AIR once flow is exhausted. */
  function NextFlow(t: int): (r: int)
    ensures r == AIR || IsFlow(r)
    ensures r != AIR ==> IsWater(t)
  {
    if t == WATER then WATER_FLOW_1
    else if t == WATER_FLOW_1 then WATER_FLOW_2
    else if t == WATER_FLOW_2 then WATER_FLOW_3
    else AIR
  }

  /** The decay chain WATER, FLOW_1, FLOW_2, FLOW_3, AIR; four steps from any
      block reach AIR. */
  lemma DecayChain(t: int)
    requires FluidIdsDistinct()
    ensures NextFlow(WATER) == WATER_FLOW_1 && NextFlow(WATER_FLOW_1) == WATER_FLOW_2
    ensures NextFlow(WATER_FLOW_2) == WATER_FLOW_3 && NextFlow(WATER_FLOW_3) == AIR
    ensures !IsWater(t) ==> NextFlow(t) == AIR
    ensures NextFlow(NextFlow(NextFlow(NextFlow(t)))) == AIR
  {
  }

  /** The four horizontal neighbours, in the order they are tried. */
  const NEIGHBORS: seq<(int, int)> := [(1, 0), (-1, 0), (0, 1), (0, -1)]

  /** What a tick has collected so far: the `changes` map and the `nextQueue` set. */
  datatype Tick = Tick(changes: map<Coord, int>, next: seq<Coord>)

  /** What the whole tick promises of its writes: only flowing stages, only
      into cells that were passable and dry when read. */
  ghost predicate WritesFlowIntoDryCells(overlay: map<Coord, int>, terrain: Terrain, changes: map<Coord, int>)
  {
    forall k :: k in changes ==>
      && IsFlow(changes[k])
      && IsPassable(Read(overlay, terrain, k.0, k.1, k.2))
      && !IsWater(Read(overlay, terrain, k.0, k.1, k.2))
  }

  /** The invariant of a tick in progress. */
  ghost predicate Sound(overlay: map<Coord, int>, terrain: Terrain, t: Tick)
  {
    && NoDup(t.next)
    && (|t.changes| == 0 ==> t.next == [])
    && WritesFlowIntoDryCells(overlay, terrain, t.changes)
  }

  /** Spreading `nextFlow` from `key` into the neighbour in direction `dir`. */
  function SpreadOne(overlay: map<Coord, int>, terrain: Terrain, acc: Tick, key: Coord, nextFlow: int, dir: (int, int)): Tick
  {
    var n := (key.0 + dir.0, key.1, key.2 + dir.1);
    var b := Read(overlay, terrain, n.0, n.1, n.2);
    if IsPassable(b) && !IsWater(b) then Tick(acc.changes[n := nextFlow], Add(Add(acc.next, n), key))
    else acc
  }

  /** Spreading into the first d neighbours. */
  function SpreadUpTo(overlay: map<Coord, int>, terrain: Terrain, acc: Tick, key: Coord, nextFlow: int, d: nat): Tick
    requires d <= |NEIGHBORS|
  {
    if d == 0 then acc
    else SpreadOne(overlay, terrain, SpreadUpTo(overlay, terrain, acc, key, nextFlow, d - 1), key, nextFlow, NEIGHBORS[d - 1])
  }

  /** Spreading into all four neighbours. */
  function Spread(overlay: map<Coord, int>, terrain: Terrain, acc: Tick, key: Coord, nextFlow: int): Tick
  {
    SpreadUpTo(overlay, terrain, acc, key, nextFlow, |NEIGHBORS|)
  }

  /** Processing one queued cell. */
  function Step(overlay: map<Coord, int>, terrain: Terrain, acc: Tick, key: Coord): Tick
  {
    var (x, y, z) := key;
    var current := Read(overlay, terrain, x, y, z);
    if !IsWater(current) then acc
    else
      var below := Read(overlay, terrain, x, y - 1, z);
      if IsPassable(below) && !IsWater(below) then
        Tick(acc.changes[(x, y - 1, z) := WATER_FLOW_1], Add(Add(acc.next, (x, y - 1, z)), key))
      else if IsWater(below) then acc
      else
        var nextFlow := NextFlow(current);
        if nextFlow == AIR then acc
        else Spread(overlay, terrain, acc, key, nextFlow)
  }

  /** Processing a snapshot of the queue in order, every read against `overlay`. */
  function Process(overlay: map<Coord, int>, terrain: Terrain, work: seq<Coord>): Tick
  {
    if work == [] then Tick(map[], [])
    else Step(overlay, terrain, Process(overlay, terrain, work[..|work| - 1]), work[|work| - 1])
  }

  /** One write of a flowing stage into a passable dry cell keeps a tick sound. */
  lemma WriteSound(overlay: map<Coord, int>, terrain: Terrain, acc: Tick, n: Coord, v: int, key: Coord)
    requires Sound(overlay, terrain, acc) && IsFlow(v)
    requires var b := Read(overlay, terrain, n.0, n.1, n.2); IsPassable(b) && !IsWater(b)
    ensures Sound(overlay, terrain, Tick(acc.changes[n := v], Add(Add(acc.next, n), key)))
  {
    AddKeepsNoDup(acc.next, n);
    AddKeepsNoDup(Add(acc.next, n), key);
  }

  lemma SpreadOneSound(overlay: map<Coord, int>, terrain: Terrain, acc: Tick, key: Coord, nextFlow: int, dir: (int, int))
    requires IsFlow(nextFlow) && Sound(overlay, terrain, acc)
    ensures Sound(overlay, terrain, SpreadOne(overlay, terrain, acc, key, nextFlow, dir))
  {
    var n := (key.0 + dir.0, key.1, key.2 + dir.1);
    var b := Read(overlay, terrain, n.0, n.1, n.2);
    if IsPassable(b) && !IsWater(b) {
      WriteSound(overlay, terrain, acc, n, nextFlow, key);
    }
  }

  lemma {:induction false} SpreadUpToSound(overlay: map<Coord, int>, terrain: Terrain, acc: Tick, key: Coord, nextFlow: int, d: nat)
    requires IsFlow(nextFlow) && d <= |NEIGHBORS|
    requires Sound(overlay, terrain, acc)
    ensures Sound(overlay, terrain, SpreadUpTo(overlay, terrain, acc, key, nextFlow, d))
  {
    if d > 0 {
      SpreadUpToSound(overlay, terrain, acc, key, nextFlow, d - 1);
      SpreadOneSound(overlay, terrain, SpreadUpTo(overlay, terrain, acc, key, nextFlow, d - 1), key, nextFlow, NEIGHBORS[d - 1]);
    }
  }

  /** The three outcomes of a step: unchanged, the fall below, or a spread. */
  lemma StepCases(overlay: map<Coord, int>, terrain: Terrain, acc: Tick, key: Coord)
    ensures var current := Read(overlay, terrain, key.0, key.1, key.2);
            var below := Read(overlay, terrain, key.0, key.1 - 1, key.2);
            var fall := (key.0, key.1 - 1, key.2);
            Step(overlay, terrain, acc, key) ==
              if IsWater(current) && IsPassable(below) && !IsWater(below) then Tick(acc.changes[fall := WATER_FLOW_1], Add(Add(acc.next, fall), key))
              else if IsWater(current) && !IsWater(below) && NextFlow(current) != AIR then Spread(overlay, terrain, acc, key, NextFlow(current))
              else acc
  {
  }

  lemma StepSound(overlay: map<Coord, int>, terrain: Terrain, acc: Tick, key: Coord)
    requires Sound(overlay, terrain, acc)
    ensures Sound(overlay, terrain, Step(overlay, terrain, acc, key))
  {
    StepCases(overlay, terrain, acc, key);
    var current := Read(overlay, terrain, key.0, key.1, key.2);
    var below := Read(overlay, terrain, key.0, key.1 - 1, key.2);
    if IsWater(current) && IsPassable(below) && !IsWater(below) {
      WriteSound(overlay, terrain, acc, (key.0, key.1 - 1, key.2), WATER_FLOW_1, key);
    } else if IsWater(current) && !IsWater(below) && NextFlow(current) != AIR {
      SpreadUpToSound(overlay, terrain, acc, key, NextFlow(current), |NEIGHBORS|);
    }
  }

  /** Every tick in progress is sound: its next queue has no repeats, is empty
      while nothing changed, and every write is a flowing stage into a cell
      that was passable and dry when read. */
  lemma {:induction false} ProcessSound(overlay: map<Coord, int>, terrain: Terrain, work: seq<Coord>)
    ensures Sound(overlay, terrain, Process(overlay, terrain, work))
  {
    if work != [] {
      ProcessSound(overlay, terrain, work[..|work| - 1]);
      StepSound(overlay, terrain, Process(overlay, terrain, work[..|work| - 1]), work[|work| - 1]);
    }
  }

  /** `Math.floor(x / CHUNK_SIZE)` for an integer coordinate, counted out
      one chunk at a time. */
  function ChunkIndex(x: int): int
    decreases if x < 0 then CHUNK_SIZE - x else x
  {
    if x < 0 then ChunkIndex(x + CHUNK_SIZE) - 1
    else if x < CHUNK_SIZE then 0
    else ChunkIndex(x - CHUNK_SIZE) + 1
  }

  function ChunkOf(k: Coord): ChunkKey
  {
    (ChunkIndex(k.0), ChunkIndex(k.2))
  }

  /** The chunk index of x is the floor of x / CHUNK_SIZE: its chunk spans x. */
  lemma {:induction false} ChunkIndexSpans(x: int)
    ensures ChunkIndex(x) * CHUNK_SIZE <= x < ChunkIndex(x) * CHUNK_SIZE + CHUNK_SIZE
    decreases if x < 0 then CHUNK_SIZE - x else x
  {
    if x < 0 {
      ChunkIndexSpans(x + CHUNK_SIZE);
      assert (ChunkIndex(x + CHUNK_SIZE) - 1) * CHUNK_SIZE == ChunkIndex(x + CHUNK_SIZE) * CHUNK_SIZE - CHUNK_SIZE;
    } else if x >= CHUNK_SIZE {
      ChunkIndexSpans(x - CHUNK_SIZE);
      assert (ChunkIndex(x - CHUNK_SIZE) + 1) * CHUNK_SIZE == ChunkIndex(x - CHUNK_SIZE) * CHUNK_SIZE + CHUNK_SIZE;
    }
  }

  /** The chunk holding a cell spans it: cx·S <= x < cx·S + S, and the same
      for z. */
  lemma ChunkOfSpans(k: Coord)
    ensures var (cx, cz) := ChunkOf(k);
      && cx * CHUNK_SIZE <= k.0 < cx * CHUNK_SIZE + CHUNK_SIZE
      && cz * CHUNK_SIZE <= k.2 < cz * CHUNK_SIZE + CHUNK_SIZE
  {
    ChunkIndexSpans(k.0);
    ChunkIndexSpans(k.2);
  }

  /** The inner loop over the four neighbours of a spreading cell. */
  method SpreadFrom(overlay: map<Coord, int>, terrain: Terrain, changes: map<Coord, int>, nextQueue: seq<Coord>, key: Coord, nextFlow: int)
    returns (changes': map<Coord, int>, nextQueue': seq<Coord>)
    ensures Tick(changes', nextQueue') == SpreadUpTo(overlay, terrain, Tick(changes, nextQueue), key, nextFlow, |NEIGHBORS|)
  {
    changes', nextQueue' := changes, nextQueue;
    var (x, y, z) := key;
    var d := 0;
    while d < |NEIGHBORS|
      invariant 0 <= d <= |NEIGHBORS|
      invariant Tick(changes', nextQueue') == SpreadUpTo(overlay, terrain, Tick(changes, nextQueue), key, nextFlow, d)
    {
      SpreadStep(overlay, terrain, Tick(changes, nextQueue), key, nextFlow, d);
      var (dx, dz) := NEIGHBORS[d];
      var neighborBlock := Read(overlay, terrain, x + dx, y, z + dz);
      if IsPassable(neighborBlock) && !IsWater(neighborBlock) {
        changes' := changes'[(x + dx, y, z + dz) := nextFlow];
        nextQueue' := Add(Add(nextQueue', (x + dx, y, z + dz)), key);
      }
      d := d + 1;
    }
  }

  /** One more neighbour: the spread so far, extended by direction `d`. */
  lemma SpreadStep(overlay: map<Coord, int>, terrain: Terrain, acc: Tick, key: Coord, nextFlow: int, d: nat)
    requires d < |NEIGHBORS|
    ensures var t := SpreadUpTo(overlay, terrain, acc, key, nextFlow, d);
      var n := (key.0 + NEIGHBORS[d].0, key.1, key.2 + NEIGHBORS[d].1);
      var b := Read(overlay, terrain, n.0, n.1, n.2);
      SpreadUpTo(overlay, terrain, acc, key, nextFlow, d + 1)
        == if IsPassable(b) && !IsWater(b) then Tick(t.changes[n := nextFlow], Add(Add(t.next, n), key)) else t
  {
  }

  /** The body of the tick loop for one queued cell. */
  method ProcessCell(overlay: map<Coord, int>, terrain: Terrain, changes: map<Coord, int>, nextQueue: seq<Coord>, key: Coord)
    returns (changes': map<Coord, int>, nextQueue': seq<Coord>)
    ensures Tick(changes', nextQueue') == Step(overlay, terrain, Tick(changes, nextQueue), key)
  {
    changes', nextQueue' := changes, nextQueue;
    var (x, y, z) := key;
    var currentBlock := Read(overlay, terrain, x, y, z);
    if IsWater(currentBlock) {
      var belowBlock := Read(overlay, terrain, x, y - 1, z);
      if IsPassable(belowBlock) && !IsWater(belowBlock) {
        changes' := changes'[(x, y - 1, z) := WATER_FLOW_1];
        nextQueue' := Add(Add(nextQueue', (x, y - 1, z)), key);
      } else if !IsWater(belowBlock) {
        var nextFlow := NextFlow(currentBlock);
        if nextFlow != AIR {
          changes', nextQueue' := SpreadFrom(overlay, terrain, changes, nextQueue, key, nextFlow);
        }
      }
    }
  }

  /** Moving the next queue into the (cleared) queue, collecting chunk keys. */
  method Requeue(queue: WaterQueue, nextQueue: seq<Coord>, chunks0: set<ChunkKey>) returns (chunks: set<ChunkKey>)
    requires queue.pending == [] && NoDup(nextQueue)
    modifies queue
    ensures queue.pending == nextQueue && queue.Valid()
    ensures chunks == chunks0 + (set k | k in nextQueue :: ChunkOf(k))
  {
    chunks := chunks0;
    var j := 0;
    while j < |nextQueue|
      invariant 0 <= j <= |nextQueue|
      invariant queue.pending == nextQueue[..j]
      invariant chunks == chunks0 + (set k | k in nextQueue[..j] :: ChunkOf(k))
    {
      assert nextQueue[j] !in nextQueue[..j];
      queue.pending := Add(queue.pending, nextQueue[j]);
      chunks := chunks + {ChunkOf(nextQueue[j])};
      assert nextQueue[..j + 1] == nextQueue[..j] + [nextQueue[j]];
      j := j + 1;
    }
    assert nextQueue[..j] == nextQueue;
  }

  /** `updateFluids`: one tick over the overlay `world` on top of `terrain`
      (the generated world of the noise seed, `TerrainOf(noise)`). Returns
      whether `updateChunkVersions` was called, and with which chunks. */
  method UpdateFluids(terrain: Terrain, world: Overlay, queue: WaterQueue) returns (notified: bool, chunks: set<ChunkKey>)
    requires queue.Valid()
    modifies world, queue
    ensures queue.Valid()
    ensures var t := Process(old(world.blocks), terrain, old(queue.pending));
      && world.blocks == old(world.blocks) + t.changes
      && queue.pending == t.next
      && (notified <==> |t.changes| > 0)
      && chunks == (set k | k in t.changes :: ChunkOf(k)) + (set k | k in t.next :: ChunkOf(k))
    ensures old(queue.pending) == [] ==> world.blocks == old(world.blocks) && queue.pending == [] && !notified
  {
    if |queue.pending| == 0 {
      notified, chunks := false, {};
      return;
    }
    var changes: map<Coord, int> := map[];
    var nextQueue: seq<Coord> := [];
    var currentWork := queue.pending;
    queue.pending := [];
    var i := 0;
    while i < |currentWork|
      invariant 0 <= i <= |currentWork|
      invariant world.blocks == old(world.blocks) && queue.pending == []
      invariant Tick(changes, nextQueue) == Process(world.blocks, terrain, currentWork[..i])
    {
      changes, nextQueue := ProcessCell(world.blocks, terrain, changes, nextQueue, currentWork[i]);
      assert currentWork[..i + 1][..i] == currentWork[..i];
      i := i + 1;
    }
    assert currentWork[..i] == currentWork;
    ProcessSound(old(world.blocks), terrain, currentWork);
    notified, chunks := false, {};
    if |changes| > 0 {
      world.blocks := world.blocks + changes;
      chunks := Requeue(queue, nextQueue, set k | k in changes :: ChunkOf(k));
      notified := true;
    }
  }

  // ------------------------------------------------------------ properties

  /** Falling has priority: a water cell above a passable dry cell turns it
      into FLOW_1, re-queues both cells, and spreads nowhere else. */
  lemma FallingHasPriority(overlay: map<Coord, int>, terrain: Terrain, acc: Tick, x: int, y: int, z: int)
    requires IsWater(Read(overlay, terrain, x, y, z))
    requires IsPassable(Read(overlay, terrain, x, y - 1, z)) && !IsWater(Read(overlay, terrain, x, y - 1, z))
    ensures Step(overlay, terrain, acc, (x, y, z)).changes == acc.changes[(x, y - 1, z) := WATER_FLOW_1]
    ensures Step(overlay, terrain, acc, (x, y, z)).next == Add(Add(acc.next, (x, y - 1, z)), (x, y, z))
  {
  }

  /** A cell that is not water, or sits on water, or is FLOW_3 on solid ground, does nothing. */
  lemma IdleCells(overlay: map<Coord, int>, terrain: Terrain, acc: Tick, x: int, y: int, z: int)
    requires FluidIdsDistinct()
    requires var c := Read(overlay, terrain, x, y, z);
      var b := Read(overlay, terrain, x, y - 1, z);
      || !IsWater(c)
      || IsWater(b)
      || (c == WATER_FLOW_3 && !IsPassable(b))
    ensures Step(overlay, terrain, acc, (x, y, z)) == acc
  {
  }

  /** Spreading sideways, on non-passable dry ground, writes the next stage
      into every passable dry cardinal neighbour at the same height. */
  lemma SpreadsSideways(overlay: map<Coord, int>, terrain: Terrain, acc: Tick, x: int, y: int, z: int, i: nat)
    requires FluidIdsDistinct()
    requires i < |NEIGHBORS|
    requires var c := Read(overlay, terrain, x, y, z);
      var b := Read(overlay, terrain, x, y - 1, z);
      IsWater(c) && c != WATER_FLOW_3 && !IsPassable(b) && !IsWater(b)
    requires var n := Read(overlay, terrain, x + NEIGHBORS[i].0, y, z + NEIGHBORS[i].1);
      IsPassable(n) && !IsWater(n)
    ensures var n := (x + NEIGHBORS[i].0, y, z + NEIGHBORS[i].1);
      var r := Step(overlay, terrain, acc, (x, y, z));
      n in r.changes && r.changes[n] == NextFlow(Read(overlay, terrain, x, y, z))
  {
    var c := Read(overlay, terrain, x, y, z);
    var nf := NextFlow(c);
    var n := (x + NEIGHBORS[i].0, y, z + NEIGHBORS[i].1);
    SpreadKeeps(overlay, terrain, acc, (x, y, z), nf, i + 1, |NEIGHBORS|, n);
  }

  /** Later neighbours never overwrite an earlier neighbour's entry. */
  lemma {:induction false} SpreadKeeps(overlay: map<Coord, int>, terrain: Terrain, acc: Tick, key: Coord, nextFlow: int, d0: nat, d: nat, n: Coord)
    requires IsFlow(nextFlow) && 1 <= d0 <= d <= |NEIGHBORS|
    requires n == (key.0 + NEIGHBORS[d0 - 1].0, key.1, key.2 + NEIGHBORS[d0 - 1].1)
    requires var b := Read(overlay, terrain, n.0, n.1, n.2); IsPassable(b) && !IsWater(b)
    ensures var r := SpreadUpTo(overlay, terrain, acc, key, nextFlow, d);
      n in r.changes && r.changes[n] == nextFlow
  {
    if d > d0 {
      assert NEIGHBORS[d - 1] != NEIGHBORS[d0 - 1];
      SpreadKeeps(overlay, terrain, acc, key, nextFlow, d0, d - 1, n);
    }
  }

  /** A tick that changes nothing leaves nothing queued: a fixed point. */
  lemma QuietTickIsFixedPoint(overlay: map<Coord, int>, terrain: Terrain, work: seq<Coord>)
    requires |Process(overlay, terrain, work).changes| == 0
    ensures Process(overlay, terrain, work).next == []
  {
    ProcessSound(overlay, terrain, work);
  }

  /** Every write of a tick is a flowing stage, into a cell that was passable
      and dry before the tick. */
  lemma OnlyFlowIntoDryCells(overlay: map<Coord, int>, terrain: Terrain, work: seq<Coord>, k: Coord)
    requires FluidIdsDistinct()
    requires k in Process(overlay, terrain, work).changes
    ensures var v := Process(overlay, terrain, work).changes[k];
      v != AIR && v != WATER && (v == WATER_FLOW_1 || v == WATER_FLOW_2 || v == WATER_FLOW_3)
    ensures var b := Read(overlay, terrain, k.0, k.1, k.2);
      IsPassable(b) && !IsWater(b)
  {
    ProcessSound(overlay, terrain, work);
  }
}
