/** Dropped items: thrown into the world by `dropItem`, then each frame they
    fall, bounce on solid cells, are picked up by a player standing close
    enough, or despawn when too old or too far away. */
module ItemDropManager {
  import opened Common
  import opened Blocks
  import opened WorldGen

  const GRAVITY := 20.0
  const DRAG := 0.98
  const MAX_DT := 0.05
  const PICKUP_AGE_MS := 1000
  const PICKUP_DIST_SQ := 2.25
  const DESPAWN_AGE_MS := 300000
  const DESPAWN_DIST_SQ := 6400.0

  /** How an item looks in the item registry: whether it is drawn as a
      block, and its colour. */
  datatype ItemLook = ItemLook(isBlock: bool, color: string)

  /** The item registry's entry for an item id, where it has one. */
  const ITEM_LOOK: int -> Option<ItemLook>

  /** A dropped item. */
  datatype Item = Item(uid: string, kind: int, position: Point, velocity: Point,
                       creationTime: int, isBlock: bool, color: string)

  /** The item `dropItem` creates: tossed along `direction` at six blocks a
      second plus three upward, looking as the registry says (a block in
      white when it says nothing). */
  function NewItem(kind: int, position: Point, direction: Point, uid: string, now: int): (it: Item)
    ensures it.uid == uid && it.kind == kind && it.position == position && it.creationTime == now
    ensures it.velocity == Point(direction.x * 6.0, direction.y * 6.0 + 3.0, direction.z * 6.0)
    ensures ITEM_LOOK(kind).Some? ==>
              it.isBlock == ITEM_LOOK(kind).value.isBlock && it.color == ITEM_LOOK(kind).value.color
    ensures ITEM_LOOK(kind).None? ==> it.isBlock && it.color == "#ffffff"
  {
    var look := ITEM_LOOK(kind);
    Item(uid, kind, position, Sum(Scale(direction, 6.0), Point(0.0, 3.0, 0.0)), now,
         if look.Some? then look.value.isBlock else true,
         if look.Some? then look.value.color else "#ffffff")
  }

  /** The cells a falling item passes through: AIR, water, mature wheat,
      tall grass and flowers. */
  predicate PassThrough(b: int)
  {
    b == AIR || IsWater(b) || b == WHEAT || b == TALL_GRASS || IsFlower(b)
  }

  /** What a frame reads: the time step, the clock in milliseconds, the
      player's position and the world. */
  datatype Env = Env(dt: real, now: int, player: Point, overlay: map<Coord, int>, terrain: Terrain)

  /** The velocity after gravity and drag. */
  function Dragged(v: Point, dt: real): Point
  {
    Scale(Point(v.x, v.y - GRAVITY * dt, v.z), DRAG)
  }

  /** The cell below the item's next position that it may land on. */
  function LandingCell(it: Item, dt: real): Coord
  {
    var next := Sum(it.position, Scale(Dragged(it.velocity, dt), dt));
    (Round(next.x), Round(next.y - 0.2), Round(next.z))
  }

  /** The item is falling into a solid cell low enough to land on it. */
  predicate Lands(it: Item, env: Env)
  {
    var v := Dragged(it.velocity, env.dt);
    var next := Sum(it.position, Scale(v, env.dt));
    var c := LandingCell(it, env.dt);
    !PassThrough(Read(env.overlay, env.terrain, c.0, c.1, c.2)) && v.y < 0.0 && next.y < c.1 as real + 0.5 + 0.3
  }

  /** One frame of physics for one item. */
  function Fall(it: Item, env: Env): Item
  {
    var v := Dragged(it.velocity, env.dt);
    if Lands(it, env) then
      it.(position := it.position.(y := LandingCell(it, env.dt).1 as real + 0.5 + 0.25),
          velocity := Point(v.x * 0.6, v.y * -0.5, v.z * 0.6))
    else
      it.(position := Sum(it.position, Scale(v, env.dt)), velocity := v)
  }

  /** A landing item rests a quarter block above the top face of the cell it
      landed on, keeps its x and z, bounces back up at half the speed it
      fell with, and keeps 60% of its horizontal speed; any other item moves
      by its dragged velocity. */
  lemma FallMeaning(it: Item, env: Env)
    requires env.dt >= 0.0
    ensures var f := Fall(it, env); var v := Dragged(it.velocity, env.dt);
            if Lands(it, env) then
              && f.position.y - (LandingCell(it, env.dt).1 as real + 0.5) == 0.25
              && f.position.x == it.position.x && f.position.z == it.position.z
              && f.velocity == Point(v.x * 0.6, -0.5 * v.y, v.z * 0.6)
              && 0.0 < f.velocity.y <= AbsR(v.y)
              && AbsR(f.velocity.x) <= AbsR(v.x) && AbsR(f.velocity.z) <= AbsR(v.z)
            else
              f.position == Sum(it.position, Scale(f.velocity, env.dt)) && f.velocity == v
  {
  }

  /** Every item keeps its identity through a frame of physics. */
  lemma FallKeepsIdentity(it: Item, env: Env)
    ensures var f := Fall(it, env);
            f.uid == it.uid && f.kind == it.kind && f.creationTime == it.creationTime
  {
  }

  function Age(it: Item, now: int): int
  {
    now - it.creationTime
  }

  /** `onPickup` is asked about an item older than a second within 1.5
      blocks of the player. */
  predicate Asks(it: Item, env: Env)
  {
    Age(it, env.now) > PICKUP_AGE_MS && DistSq(it.position, env.player) < PICKUP_DIST_SQ
  }

  /** Older than five minutes or farther than 80 blocks. */
  predicate Expired(it: Item, env: Env)
  {
    Age(it, env.now) > DESPAWN_AGE_MS || DistSq(it.position, env.player) > DESPAWN_DIST_SQ
  }

  datatype Fate = Kept | PickedUp | Despawned

  /** What one frame does to a list: the items kept (after physics), the
      kinds picked up, each item's fate, and how often `onPickup` was
      asked. `accept(n)` is its answer to the n-th question. */
  datatype Pass = Pass(kept: seq<Item>, picked: seq<int>, fates: seq<Fate>, calls: nat)

  function Sweep(items: seq<Item>, env: Env, accept: nat -> bool): (p: Pass)
    ensures |p.fates| == |items| && p.calls <= |items|
  {
    if |items| == 0 then Pass([], [], [], 0)
    else
      var p := Sweep(items[..|items| - 1], env, accept);
      var it := Fall(items[|items| - 1], env);
      var asks := Asks(it, env);
      var fate := if asks && accept(p.calls) then PickedUp else if Expired(it, env) then Despawned else Kept;
      Pass(if fate == Kept then p.kept + [it] else p.kept,
           if fate == PickedUp then p.picked + [it.kind] else p.picked,
           p.fates + [fate],
           p.calls + if asks then 1 else 0)
  }

  /** The items of `xs` whose fate in `fs` is `f`, in order. */
  function Select(xs: seq<Item>, fs: seq<Fate>, f: Fate): seq<Item>
    requires |xs| == |fs|
  {
    if |xs| == 0 then []
    else Select(xs[..|xs| - 1], fs[..|fs| - 1], f) + if fs[|fs| - 1] == f then [xs[|xs| - 1]] else []
  }

  function Kinds(xs: seq<Item>): (r: seq<int>)
    ensures |r| == |xs| && forall i :: 0 <= i < |xs| ==> r[i] == xs[i].kind
  {
    if |xs| == 0 then [] else Kinds(xs[..|xs| - 1]) + [xs[|xs| - 1].kind]
  }

  /** Every item after one frame of physics. */
  function Falls(items: seq<Item>, env: Env): (r: seq<Item>)
    ensures |r| == |items| && forall i :: 0 <= i < |items| ==> r[i] == Fall(items[i], env)
  {
    if |items| == 0 then [] else Falls(items[..|items| - 1], env) + [Fall(items[|items| - 1], env)]
  }

  /** The kept items are exactly the fallen items whose fate is `Kept`, in
      their order; the kinds picked up are those of the items picked up, in
      order; one fate per item. */
  lemma {:induction false} SweepSelects(items: seq<Item>, env: Env, accept: nat -> bool)
    ensures var p := Sweep(items, env, accept);
            && |p.fates| == |items|
            && p.kept == Select(Falls(items, env), p.fates, Kept)
            && p.picked == Kinds(Select(Falls(items, env), p.fates, PickedUp))
    decreases |items|
  {
    if |items| > 0 {
      var init := items[..|items| - 1];
      SweepSelects(init, env, accept);
      assert Falls(items, env)[..|items| - 1] == Falls(init, env);
      var p := Sweep(items, env, accept);
      assert p.fates[..|items| - 1] == Sweep(init, env, accept).fates;
    }
  }

  /** The first `i` fates are those of the first `i` items. */
  lemma {:induction false} SweepPrefix(items: seq<Item>, env: Env, accept: nat -> bool, i: nat)
    requires i <= |items|
    ensures Sweep(items, env, accept).fates[..i] == Sweep(items[..i], env, accept).fates
    ensures |Sweep(items, env, accept).fates| == |items|
    decreases |items|
  {
    if i < |items| {
      var init := items[..|items| - 1];
      SweepPrefix(init, env, accept, i);
      assert init[..i] == items[..i];
    } else {
      assert items[..i] == items;
    }
  }

  /** Item `i` is picked up exactly when `onPickup` is asked about it and
      accepts, despawns exactly when it is not picked up and has expired,
      and is kept otherwise; `onPickup` is asked only about items that are
      old and near enough. */
  lemma ItemFate(items: seq<Item>, env: Env, accept: nat -> bool, i: nat)
    requires i < |items|
    ensures var p := Sweep(items, env, accept);
            var it := Fall(items[i], env);
            var n := Sweep(items[..i], env, accept).calls;
            && |p.fates| == |items|
            && (p.fates[i] == PickedUp <==> Asks(it, env) && accept(n))
            && (p.fates[i] == Despawned <==> !(Asks(it, env) && accept(n)) && Expired(it, env))
            && (Sweep(items[..i + 1], env, accept).calls == n + if Asks(it, env) then 1 else 0)
  {
    SweepPrefix(items, env, accept, i + 1);
    assert items[..i + 1][..i] == items[..i];
    assert Sweep(items, env, accept).fates[i] == Sweep(items[..i + 1], env, accept).fates[i];
  }

  /** An item younger than a second is never picked up, and `onPickup` is
      not asked about it. */
  lemma YoungNeverPicked(items: seq<Item>, env: Env, accept: nat -> bool, i: nat)
    requires i < |items| && Age(items[i], env.now) <= PICKUP_AGE_MS
    ensures Sweep(items, env, accept).fates[i] != PickedUp
    ensures Sweep(items[..i + 1], env, accept).calls == Sweep(items[..i], env, accept).calls
  {
    ItemFate(items, env, accept, i);
    FallKeepsIdentity(items[i], env);
  }

  function Count(fs: seq<Fate>, f: Fate): nat
  {
    if |fs| == 0 then 0 else Count(fs[..|fs| - 1], f) + if fs[|fs| - 1] == f then 1 else 0
  }

  /** Selecting by each fate splits the list: nothing is lost or made up. */
  lemma {:induction false} SelectPartition(xs: seq<Item>, fs: seq<Fate>)
    requires |xs| == |fs|
    ensures |Select(xs, fs, Kept)| == Count(fs, Kept)
    ensures |Select(xs, fs, PickedUp)| == Count(fs, PickedUp)
    ensures Count(fs, Kept) + Count(fs, PickedUp) + Count(fs, Despawned) == |fs|
    ensures Count(fs, Kept) == |fs| <==> AllKept(fs)
    decreases |xs|
  {
    if |xs| > 0 {
      var fs' := fs[..|fs| - 1];
      SelectPartition(xs[..|xs| - 1], fs');
      if Count(fs, Kept) == |fs| {
        forall i | 0 <= i < |fs|
          ensures fs[i] == Kept
        {
          if i < |fs| - 1 {
            assert fs'[i] == fs[i];
          }
        }
      }
    }
  }

  /** The physics step of the loop body for one item. */
  method Move(item: Item, env: Env) returns (moved: Item)
    ensures moved == Fall(item, env)
  {
    moved := item;
    var v := Dragged(item.velocity, env.dt);
    var nextPos := Sum(item.position, Scale(v, env.dt));
    var bx, cellY, bz := Round(nextPos.x), Round(nextPos.y - 0.2), Round(nextPos.z);
    var block := Read(env.overlay, env.terrain, bx, cellY, bz);
    if !PassThrough(block) && v.y < 0.0 && nextPos.y < cellY as real + 0.5 + 0.3 {
      moved := moved.(position := item.position.(y := cellY as real + 0.5 + 0.25),
                      velocity := Point(v.x * 0.6, v.y * -0.5, v.z * 0.6));
    } else {
      moved := moved.(position := nextPos, velocity := v);
    }
  }

  ghost predicate AllKept(fs: seq<Fate>)
  {
    forall j :: 0 <= j < |fs| ==> fs[j] == Kept
  }

  /** One frame over the list, as the component's loop does it. */
  method UpdateItems(items: seq<Item>, env: Env, accept: nat -> bool)
    returns (nextItems: seq<Item>, picked: seq<int>, needsUpdate: bool, ghost fates: seq<Fate>)
    ensures var p := Sweep(items, env, accept);
            nextItems == p.kept && picked == p.picked
    ensures needsUpdate <==> !AllKept(Sweep(items, env, accept).fates)
    ensures fates == Sweep(items, env, accept).fates
  {
    nextItems, picked, needsUpdate, fates := [], [], false, [];
    var calls := 0;
    var i := 0;
    while i < |items|
      invariant 0 <= i <= |items|
      invariant Sweep(items[..i], env, accept) == Pass(nextItems, picked, fates, calls)
      invariant needsUpdate <==> !AllKept(fates)
    {
      assert items[..i + 1][..i] == items[..i];
      var item := Move(items[i], env);
      var distSq := DistSq(item.position, env.player);
      var age := env.now - item.creationTime;
      i := i + 1;
      if age > 1000 && distSq < 2.25 {
        var accepted := accept(calls);
        calls := calls + 1;
        if accepted {
          picked := picked + [item.kind];
          needsUpdate := true;
          assert (fates + [PickedUp])[|fates|] == PickedUp;
          fates := fates + [PickedUp];
          continue;
        }
      }
      if age > 300000 || distSq > 6400.0 {
        needsUpdate := true;
        assert (fates + [Despawned])[|fates|] == Despawned;
        fates := fates + [Despawned];
        continue;
      }
      nextItems := nextItems + [item];
      assert AllKept(fates + [Kept]) <==> AllKept(fates) by {
        if AllKept(fates) {
          assert forall j :: 0 <= j < |fates| ==> (fates + [Kept])[j] == fates[j];
        }
        if AllKept(fates + [Kept]) {
          assert forall j :: 0 <= j < |fates| ==> (fates + [Kept])[j] == fates[j];
        }
      }
      fates := fates + [Kept];
    }
    assert items[..i] == items;
  }

  /** The component's state: the dropped items, in the order dropped. */
  class DroppedItems {
    var items: seq<Item>

    constructor()
      ensures items == []
    {
      items := [];
    }

    /** `dropItem`: append one new item and keep the others. */
    method DropItem(kind: int, position: Point, direction: Point, uid: string, now: int)
      modifies this
      ensures items == old(items) + [NewItem(kind, position, direction, uid, now)]
    {
      var next := items + [NewItem(kind, position, direction, uid, now)];
      items := next;
    }

    /** One frame with time step `delta` at clock `now` (milliseconds). The
        list becomes the items kept, and `changed` says whether any item
        left it, which is when the component re-renders. */
    method Frame(delta: real, now: int, player: Point, overlay: map<Coord, int>, terrain: Terrain,
                 accept: nat -> bool)
      returns (changed: bool, picked: seq<int>)
      modifies this
      ensures old(items) == [] ==> items == [] && !changed && picked == []
      ensures old(items) != [] ==>
                var p := Sweep(old(items), Env(MinR(delta, MAX_DT), now, player, overlay, terrain), accept);
                && items == p.kept && picked == p.picked
                && (changed <==> |items| < |old(items)|)
    {
      changed, picked := false, [];
      if |items| == 0 {
        return;
      }
      var env := Env(MinR(delta, MAX_DT), now, player, overlay, terrain);
      var nextItems: seq<Item>, needsUpdate: bool;
      ghost var fates: seq<Fate>;
      nextItems, picked, needsUpdate, fates := UpdateItems(items, env, accept);
      SweepSelects(items, env, accept);
      SelectPartition(Falls(items, env), fates);
      changed := needsUpdate || |items| != |nextItems|;
      items := nextItems;
    }
  }
}
