/** The game shell's bookkeeping: adding a stack to the hotbar, using up and
    dropping the active slot, what a broken block drops, sleeping through
    the night, and the per-chunk version counters that make chunks rebuild.
    `Math.random` results and clock readings are parameters. */
module App {
  import opened Common
  import opened Config
  import opened Blocks
  import opened Stacks

  // ---- handleAddItem

  /** The first pass of `handleAddItem` from slot `i` on: top up every slot of
      the item below the limit, stopping as soon as nothing remains. Gives the
      hotbar and what remains to add. */
  function TopUp(s: seq<ItemStack>, id: int, limit: int, rem: int, i: nat): (seq<ItemStack>, int)
    decreases |s| - i
  {
    if i >= |s| then (s, rem)
    else if s[i].id == id && s[i].count < limit then
      var add := Min(limit - s[i].count, rem);
      var s' := s[i := ItemStack(s[i].id, s[i].count + add)];
      if rem - add <= 0 then (s', rem - add) else TopUp(s', id, limit, rem - add, i + 1)
    else TopUp(s, id, limit, rem, i + 1)
  }

  /** The second pass from slot `i` on: put up to `limit` units into each
      empty slot, stopping as soon as nothing remains. */
  function FillEmpty(s: seq<ItemStack>, id: int, limit: int, rem: int, i: nat): (seq<ItemStack>, int)
    decreases |s| - i
  {
    if i >= |s| then (s, rem)
    else if s[i].id == AIR then
      var add := Min(limit, rem);
      var s' := s[i := ItemStack(id, add)];
      if rem - add <= 0 then (s', rem - add) else FillEmpty(s', id, limit, rem - add, i + 1)
    else FillEmpty(s, id, limit, rem, i + 1)
  }

  /** The hotbar after `handleAddItem`, and the units it could not place. */
  function AddStack(s: seq<ItemStack>, item: ItemStack): (seq<ItemStack>, int)
  {
    var (s1, rem1) := TopUp(s, item.id, MaxStack(item.id), item.count, 0);
    if rem1 > 0 then FillEmpty(s1, item.id, MaxStack(item.id), rem1, 0) else (s1, rem1)
  }

  /** `handleAddItem` on the copied hotbar: stack onto partial slots of the
      same item first, then into empty slots. The new hotbar is kept even when
      not everything fitted; the result says whether everything did. */
  method AddItem(hotbar: array<ItemStack>, item: ItemStack) returns (ok: bool)
    modifies hotbar
    ensures hotbar[..] == AddStack(old(hotbar[..]), item).0
    ensures ok <==> AddStack(old(hotbar[..]), item).1 <= 0
  {
    var remaining := item.count;
    var limit := MaxStack(item.id);
    ghost var s0 := hotbar[..];
    for i := 0 to hotbar.Length
      invariant TopUp(s0, item.id, limit, item.count, 0) == TopUp(hotbar[..], item.id, limit, remaining, i)
    {
      if hotbar[i].id == item.id && hotbar[i].count < limit {
        var add := Min(limit - hotbar[i].count, remaining);
        hotbar[i] := ItemStack(hotbar[i].id, hotbar[i].count + add);
        remaining := remaining - add;
        if remaining <= 0 {
          break;
        }
      }
    }
    ghost var s1 := hotbar[..];
    assert (s1, remaining) == TopUp(s0, item.id, limit, item.count, 0);
    if remaining > 0 {
      ghost var rem1 := remaining;
      for i := 0 to hotbar.Length
        invariant FillEmpty(s1, item.id, limit, rem1, 0) == FillEmpty(hotbar[..], item.id, limit, remaining, i)
      {
        if hotbar[i].id == AIR {
          var add := Min(limit, remaining);
          hotbar[i] := ItemStack(item.id, add);
          remaining := remaining - add;
          if remaining <= 0 {
            break;
          }
        }
      }
    }
    return remaining <= 0;
  }

  /** The first pass from slot `i` on keeps every unit it takes from the
      remainder, never takes more than remains, and keeps the slots well formed. */
  lemma {:induction false} TopUpKeepsUnits(s: seq<ItemStack>, id: int, limit: int, rem: int, i: nat)
    requires i <= |s| && id != AIR && rem > 0 && ValidSlots(s)
    ensures var (r, left) := TopUp(s, id, limit, rem, i);
      && |r| == |s| && 0 <= left <= rem && ValidSlots(r)
      && Count(id, r) + left == Count(id, s) + rem
    decreases |s| - i
  {
    if i < |s| {
      if s[i].id == id && s[i].count < limit {
        var add := Min(limit - s[i].count, rem);
        var s' := s[i := ItemStack(s[i].id, s[i].count + add)];
        CountUpdate(id, s, i, s'[i]);
        if rem - add > 0 {
          TopUpKeepsUnits(s', id, limit, rem - add, i + 1);
        }
      } else {
        TopUpKeepsUnits(s, id, limit, rem, i + 1);
      }
    }
  }

  /** The first pass from slot `i` on only raises the counts of slots holding
      the item, never past the limit, and leaves something over only once
      every such slot is full. */
  lemma {:induction false} TopUpSlots(s: seq<ItemStack>, id: int, limit: int, rem: int, i: nat)
    requires i <= |s| && rem > 0
    ensures var (r, left) := TopUp(s, id, limit, rem, i);
      && |r| == |s|
      && (forall j :: 0 <= j < |s| && (j < i || s[j].id != id) ==> r[j] == s[j])
      && (forall j :: 0 <= j < |s| && s[j].id == id ==>
            r[j].id == id && s[j].count <= r[j].count && (r[j].count <= limit || r[j] == s[j]))
      && (left > 0 ==> forall j :: i <= j < |s| && s[j].id == id ==> r[j].count >= limit)
    decreases |s| - i
  {
    if i < |s| {
      if s[i].id == id && s[i].count < limit {
        var add := Min(limit - s[i].count, rem);
        var s' := s[i := ItemStack(s[i].id, s[i].count + add)];
        if rem - add > 0 {
          TopUpSlots(s', id, limit, rem - add, i + 1);
        }
      } else {
        TopUpSlots(s, id, limit, rem, i + 1);
      }
    }
  }

  /** The second pass from slot `i` on keeps every unit it takes from the
      remainder, never takes more than remains, and keeps the slots well formed. */
  lemma {:induction false} FillEmptyKeepsUnits(s: seq<ItemStack>, id: int, limit: int, rem: int, i: nat)
    requires i <= |s| && id != AIR && rem > 0 && limit > 0 && ValidSlots(s)
    ensures var (r, left) := FillEmpty(s, id, limit, rem, i);
      && |r| == |s| && 0 <= left <= rem && ValidSlots(r)
      && Count(id, r) + left == Count(id, s) + rem
    decreases |s| - i
  {
    if i < |s| {
      if s[i].id == AIR {
        var add := Min(limit, rem);
        var s' := s[i := ItemStack(id, add)];
        CountUpdate(id, s, i, s'[i]);
        if rem - add > 0 {
          FillEmptyKeepsUnits(s', id, limit, rem - add, i + 1);
        }
      } else {
        FillEmptyKeepsUnits(s, id, limit, rem, i + 1);
      }
    }
  }

  /** The second pass from slot `i` on only fills empty slots with the item,
      at most `limit` each, and leaves something over only once no empty slot
      is left. */
  lemma {:induction false} FillEmptySlots(s: seq<ItemStack>, id: int, limit: int, rem: int, i: nat)
    requires i <= |s| && rem > 0 && limit > 0
    ensures var (r, left) := FillEmpty(s, id, limit, rem, i);
      && |r| == |s|
      && (forall j :: 0 <= j < |s| && (j < i || s[j].id != AIR) ==> r[j] == s[j])
      && (forall j :: 0 <= j < |s| && s[j].id == AIR ==> r[j] == s[j] || (r[j].id == id && 0 < r[j].count <= limit))
      && (left > 0 ==> forall j :: i <= j < |s| && s[j].id == AIR ==> r[j] == ItemStack(id, limit))
    decreases |s| - i
  {
    if i < |s| {
      if s[i].id == AIR {
        var add := Min(limit, rem);
        var s' := s[i := ItemStack(id, add)];
        if rem - add > 0 {
          FillEmptySlots(s', id, limit, rem - add, i + 1);
        }
      } else {
        FillEmptySlots(s, id, limit, rem, i + 1);
      }
    }
  }

  /** `handleAddItem` keeps every unit it is given, either in the hotbar or
      in the remainder, and keeps the slots well formed. */
  lemma AddStackKeepsUnits(s: seq<ItemStack>, item: ItemStack)
    requires ValidSlots(s) && item.id != AIR && item.count > 0
    ensures var (r, left) := AddStack(s, item);
      && |r| == |s| && 0 <= left <= item.count && ValidSlots(r)
      && Count(item.id, r) + left == Count(item.id, s) + item.count
  {
    var limit := MaxStack(item.id);
    TopUpKeepsUnits(s, item.id, limit, item.count, 0);
    var (s1, rem1) := TopUp(s, item.id, limit, item.count, 0);
    if rem1 > 0 {
      FillEmptyKeepsUnits(s1, item.id, limit, rem1, 0);
    }
  }

  /** `handleAddItem` touches only slots of the item and empty slots, puts
      only the item into empty slots, and leaves no stack of the item above
      its limit. */
  lemma AddStackSlots(s: seq<ItemStack>, item: ItemStack)
    requires item.id != AIR && item.count > 0
    requires forall j :: 0 <= j < |s| && s[j].id == item.id ==> s[j].count <= MaxStack(item.id)
    ensures var (r, left) := AddStack(s, item);
      && |r| == |s|
      && (forall j :: 0 <= j < |r| && r[j].id == item.id ==> r[j].count <= MaxStack(item.id))
      && (forall j :: 0 <= j < |s| && s[j].id != item.id && s[j].id != AIR ==> r[j] == s[j])
      && (forall j :: 0 <= j < |s| && s[j].id == AIR ==> r[j] == s[j] || r[j].id == item.id)
  {
    var limit := MaxStack(item.id);
    TopUpSlots(s, item.id, limit, item.count, 0);
    var (s1, rem1) := TopUp(s, item.id, limit, item.count, 0);
    if rem1 > 0 {
      FillEmptySlots(s1, item.id, limit, rem1, 0);
    }
  }

  /** Partial stacks of the item are full before any empty slot is used, and
      something remains only when every slot holds another item or a full
      stack of this one. */
  lemma AddStackOrder(s: seq<ItemStack>, item: ItemStack)
    requires item.id != AIR && item.count > 0
    requires forall j :: 0 <= j < |s| && s[j].id == item.id ==> s[j].count <= MaxStack(item.id)
    ensures var (r, left) := AddStack(s, item);
      && |r| == |s|
      && ((exists j :: 0 <= j < |s| && s[j].id == AIR && r[j] != s[j]) ==>
            forall j :: 0 <= j < |s| && s[j].id == item.id ==> r[j].count == MaxStack(item.id))
      && (left > 0 ==> forall j :: 0 <= j < |r| ==>
            r[j].id != AIR && (r[j].id == item.id ==> r[j].count == MaxStack(item.id)))
  {
    var limit := MaxStack(item.id);
    TopUpSlots(s, item.id, limit, item.count, 0);
    var (s1, rem1) := TopUp(s, item.id, limit, item.count, 0);
    if rem1 > 0 {
      FillEmptySlots(s1, item.id, limit, rem1, 0);
    }
  }

  /** A slot that cannot take any of `item`: it holds another item, or the
      same item at its limit. */
  predicate Closed(slot: ItemStack, item: ItemStack)
  {
    slot.id != AIR && (slot.id != item.id || slot.count >= MaxStack(item.id))
  }

  lemma {:induction false} TopUpPassesClosed(s: seq<ItemStack>, item: ItemStack, rem: int, i: nat)
    requires forall j :: 0 <= j < |s| ==> Closed(s[j], item)
    ensures TopUp(s, item.id, MaxStack(item.id), rem, i) == (s, rem)
    decreases |s| - i
  {
    if i < |s| {
      TopUpPassesClosed(s, item, rem, i + 1);
    }
  }

  lemma {:induction false} FillEmptyPassesClosed(s: seq<ItemStack>, item: ItemStack, rem: int, i: nat)
    requires forall j :: 0 <= j < |s| ==> Closed(s[j], item)
    ensures FillEmpty(s, item.id, MaxStack(item.id), rem, i) == (s, rem)
    decreases |s| - i
  {
    if i < |s| {
      FillEmptyPassesClosed(s, item, rem, i + 1);
    }
  }

  /** A hotbar with no room for the item takes none of it: the hotbar is
      unchanged and every unit remains, so `handleAddItem` answers false and
      the units are gone unless the caller keeps them. */
  lemma FullHotbarTakesNothing(s: seq<ItemStack>, item: ItemStack)
    requires forall j :: 0 <= j < |s| ==> Closed(s[j], item)
    ensures AddStack(s, item) == (s, item.count)
  {
    TopUpPassesClosed(s, item, item.count, 0);
    FillEmptyPassesClosed(s, item, item.count, 0);
  }

  // ---- handleConsumeItem and handleDropItem

  /** `handleConsumeItem`: the active slot gives up one unit, emptying at zero. */
  function ConsumeActive(hotbar: seq<ItemStack>, active: int): (r: seq<ItemStack>)
    requires 0 <= active < |hotbar|
    ensures |r| == |hotbar| && forall j :: 0 <= j < |r| && j != active ==> r[j] == hotbar[j]
  {
    hotbar[active := UseOne(hotbar[active])]
  }

  /** `handleDropItem`: the hotbar afterwards and the item thrown, if any. An
      empty slot, or one without units, throws nothing. */
  function DropActive(hotbar: seq<ItemStack>, active: int): (r: (seq<ItemStack>, Option<int>))
    requires 0 <= active < |hotbar|
    ensures |r.0| == |hotbar| && forall j :: 0 <= j < |hotbar| && j != active ==> r.0[j] == hotbar[j]
    ensures r.1.Some? ==> r.1 == Some(hotbar[active].id) && hotbar[active].id != AIR
    ensures r.1.None? ==> r.0 == hotbar
  {
    var s := hotbar[active];
    if s.id == AIR || s.count <= 0 then (hotbar, None)
    else (hotbar[active := UseOne(s)], Some(s.id))
  }

  /** Using an item takes exactly one unit of the active slot's item, empties
      the slot at zero, and leaves every other slot as it was. */
  lemma ConsumeTakesOne(hotbar: seq<ItemStack>, active: int)
    requires 0 <= active < |hotbar| && ValidSlots(hotbar)
    ensures var r := ConsumeActive(hotbar, active);
      && |r| == |hotbar| && ValidSlots(r)
      && (forall j :: 0 <= j < |r| && j != active ==> r[j] == hotbar[j])
      && (hotbar[active].count == 1 ==> r[active] == EMPTY)
      && forall id :: Count(id, r) == Count(id, hotbar) - (if id == hotbar[active].id && id != AIR then 1 else 0)
  {
    var r := ConsumeActive(hotbar, active);
    forall id
      ensures Count(id, r) == Count(id, hotbar) - (if id == hotbar[active].id && id != AIR then 1 else 0)
    {
      CountUpdate(id, hotbar, active, r[active]);
    }
  }

  /** Dropping moves exactly one unit of the active slot's item out of the
      hotbar, and is a no-op on an empty slot. */
  lemma DropMovesOne(hotbar: seq<ItemStack>, active: int)
    requires 0 <= active < |hotbar| && ValidSlots(hotbar)
    ensures var (r, dropped) := DropActive(hotbar, active);
      && |r| == |hotbar| && ValidSlots(r)
      && (dropped.None? <==> hotbar[active].id == AIR)
      && (dropped.None? ==> r == hotbar)
      && (forall j :: 0 <= j < |r| && j != active ==> r[j] == hotbar[j])
      && forall id :: Count(id, r) + (if dropped == Some(id) then 1 else 0) == Count(id, hotbar)
  {
    var (r, dropped) := DropActive(hotbar, active);
    forall id
      ensures Count(id, r) + (if dropped == Some(id) then 1 else 0) == Count(id, hotbar)
    {
      if dropped.Some? {
        CountUpdate(id, hotbar, active, r[active]);
      }
    }
  }

  // ---- handleBlockBreakDrop

  /** Tall grass and the two flowers, which drop seeds by chance. */
  predicate IsPlantCover(t: int)
  {
    t == TALL_GRASS || t == RED_FLOWER || t == YELLOW_FLOWER
  }

  /** `handleBlockBreakDrop`: the items a broken block drops, in spawn order.
      `roll(n)` is the n-th `Math.random()` result the handler draws; leaves
      draw one or two, plant cover one more. The overrides apply one after
      another, as the handler's chain of tests does. */
  function Loot(blockId: int, roll: nat -> real): seq<int>
  {
    var drop := if blockId == GRASS then DIRT else blockId;
    var drop := if blockId == STONE then COBBLESTONE else drop;
    var leaf := blockId == LEAF || blockId == PINE_LEAF;
    var drawn: nat := if !leaf then 0 else if roll(0) < 0.1 then 1 else 2;
    if leaf && !(roll(0) < 0.1) && !(roll(1) < 0.05) then []
    else
      var drop := if !leaf then drop else if roll(0) < 0.1 then SEEDS else STICK;
      if blockId == GLASS then []
      else if IsPlantCover(blockId) && !(roll(drawn) < 0.2) then []
      else
        var drop := if IsPlantCover(blockId) then SEEDS else drop;
        if blockId != WHEAT_STAGE_3 && !(WHEAT_STAGE_0 <= blockId <= WHEAT_STAGE_2)
           && (blockId == DOOR_TOP || blockId == DOOR_TOP_OPEN) then []
        else
          var drop := if blockId == WHEAT_STAGE_3 then WHEAT_ITEM
                      else if WHEAT_STAGE_0 <= blockId <= WHEAT_STAGE_2 then SEEDS
                      else drop;
          var drop := if IsBed(blockId) then BED_ITEM else drop;
          var drop := if blockId == FENCE then FENCE else drop;
          [drop] + (if blockId == WHEAT_STAGE_3 then [SEEDS] else [])
  }

  /** Grass and stone drop dirt and cobblestone. */
  lemma LootRenamed(blockId: int, roll: nat -> real)
    requires LootIdsApart()
    ensures blockId == GRASS ==> Loot(blockId, roll) == [DIRT]
    ensures blockId == STONE ==> Loot(blockId, roll) == [COBBLESTONE]
  {
  }

  /** Glass and the top half of a door drop nothing. */
  lemma LootNothing(blockId: int, roll: nat -> real)
    requires LootIdsApart()
    ensures blockId == GLASS || blockId == DOOR_TOP || blockId == DOOR_TOP_OPEN ==> Loot(blockId, roll) == []
  {
  }

  /** Ripe wheat drops wheat and seeds, young wheat seeds. */
  lemma LootCrops(blockId: int, roll: nat -> real)
    requires LootIdsApart()
    ensures blockId == WHEAT_STAGE_3 ==> Loot(blockId, roll) == [WHEAT_ITEM, SEEDS]
    ensures WHEAT_STAGE_0 <= blockId <= WHEAT_STAGE_2 ==> Loot(blockId, roll) == [SEEDS]
  {
  }

  /** Either part of a bed drops a bed. */
  lemma LootBed(blockId: int, roll: nat -> real)
    requires LootIdsApart()
    ensures IsBed(blockId) ==> Loot(blockId, roll) == [BED_ITEM]
  {
  }

  /** Leaves drop seeds one roll in ten, or else a stick one in twenty. */
  lemma LootLeaves(blockId: int, roll: nat -> real)
    requires LootIdsApart()
    ensures blockId == LEAF || blockId == PINE_LEAF ==>
      Loot(blockId, roll) == if roll(0) < 0.1 then [SEEDS] else if roll(1) < 0.05 then [STICK] else []
  {
  }

  /** Tall grass and flowers drop seeds one roll in five. */
  lemma LootPlantCover(blockId: int, roll: nat -> real)
    requires LootIdsApart()
    ensures IsPlantCover(blockId) ==> Loot(blockId, roll) == if roll(0) < 0.2 then [SEEDS] else []
  {
  }

  /** Every other block drops itself. */
  lemma LootItself(blockId: int, roll: nat -> real)
    requires LootIdsApart()
    ensures (&& blockId !in {GRASS, STONE, GLASS, DOOR_TOP, DOOR_TOP_OPEN, LEAF, PINE_LEAF}
             && !IsPlantCover(blockId) && !IsWheat(blockId) && !IsBed(blockId)) ==> Loot(blockId, roll) == [blockId]
  {
  }

  /** The loot table: grass gives dirt, stone gives cobblestone, glass and the
      top half of a door give nothing, ripe wheat gives wheat and seeds, young
      wheat gives seeds, any bed part gives a bed, leaves give seeds (one roll
      in ten) or else a stick (one in twenty) or nothing, plant cover gives
      seeds one roll in five, and every other block drops itself. */
  lemma LootTable(blockId: int, roll: nat -> real)
    requires LootIdsApart()
    ensures var drops := Loot(blockId, roll);
      && (blockId == GRASS ==> drops == [DIRT])
      && (blockId == STONE ==> drops == [COBBLESTONE])
      && (blockId == GLASS || blockId == DOOR_TOP || blockId == DOOR_TOP_OPEN ==> drops == [])
      && (blockId == WHEAT_STAGE_3 ==> drops == [WHEAT_ITEM, SEEDS])
      && (WHEAT_STAGE_0 <= blockId <= WHEAT_STAGE_2 ==> drops == [SEEDS])
      && (IsBed(blockId) ==> drops == [BED_ITEM])
      && (blockId == LEAF || blockId == PINE_LEAF ==>
            drops == if roll(0) < 0.1 then [SEEDS] else if roll(1) < 0.05 then [STICK] else [])
      && (IsPlantCover(blockId) ==> drops == if roll(0) < 0.2 then [SEEDS] else [])
      && ((&& blockId !in {GRASS, STONE, GLASS, DOOR_TOP, DOOR_TOP_OPEN, LEAF, PINE_LEAF}
           && !IsPlantCover(blockId) && !IsWheat(blockId) && !IsBed(blockId)) ==> drops == [blockId])
  {
    LootRenamed(blockId, roll);
    LootNothing(blockId, roll);
    LootCrops(blockId, roll);
    LootBed(blockId, roll);
    LootLeaves(blockId, roll);
    LootPlantCover(blockId, roll);
    LootItself(blockId, roll);
  }

  // ---- trySleep

  /** Truncation toward zero. */
  function Trunc(r: real): int
  {
    if r >= 0.0 then r.Floor else -((-r).Floor)
  }

  /** JavaScript's `%` on numbers: the remainder keeps the dividend's sign. */
  function FMod(x: real, d: real): real
    requires d > 0.0
  {
    x - d * Trunc(x / d) as real
  }

  /** `cyclePos`: how far into the day-night cycle a total game time is. */
  function CyclePos(total: real): real
  {
    FMod(total, CYCLE_DURATION) / CYCLE_DURATION
  }

  /** How a sleep attempt ends: refused to a multiplayer guest, refused by
      day, or falling asleep. */
  datatype SleepAttempt = HostOnly | NotNight | FallAsleep

  /** `trySleep` at total game time `total` (elapsed time plus offset). */
  function TrySleep(isMultiplayer: bool, isHost: bool, total: real): SleepAttempt
  {
    if isMultiplayer && !isHost then HostOnly
    else if 0.45 < CyclePos(total) < 0.95 then FallAsleep
    else NotNight
  }

  /** The time offset after waking, when the total game time is then `total`. */
  function WakeOffset(offset: real, total: real): real
  {
    offset + (1.0 - CyclePos(total)) * CYCLE_DURATION
  }

  lemma TruncOfInt(n: int)
    ensures Trunc(n as real) == n
  {
  }

  /** Scaling by a positive factor keeps the order. */
  lemma ScaleOrder(a: real, b: real, d: real)
    requires d > 0.0
    ensures a <= b ==> a * d <= b * d
    ensures a < b ==> a * d < b * d
  {
  }

  /** Division by `d` undone. */
  lemma DivTimes(x: real, d: real)
    requires d > 0.0
    ensures (x / d) * d == x
  {
  }

  /** Waking sets the total to the whole multiple of the cycle after the
      current one. */
  lemma WakeTime(elapsed: real, offset: real)
    ensures var total := elapsed + offset;
            elapsed + WakeOffset(offset, total) == Trunc(total / CYCLE_DURATION) as real * CYCLE_DURATION + CYCLE_DURATION
  {
    var d: real := CYCLE_DURATION;
    var total := elapsed + offset;
    var f := FMod(total, d);
    DivTimes(f, d);
    assert (1.0 - CyclePos(total)) * d == d - f;
  }

  /** The whole multiple of the cycle after the `n`-th is at a cycle's start. */
  lemma NextCycleAtStart(n: int)
    ensures CyclePos(n as real * CYCLE_DURATION + CYCLE_DURATION) == 0.0
  {
    var d: real := CYCLE_DURATION;
    var k: real := (n + 1) as real;
    var after := n as real * d + d;
    assert after == k * d;
    TimesDiv(k, d);
    TruncOfInt(n + 1);
    assert Trunc(after / d) == n + 1;
    assert d * Trunc(after / d) as real == k * d;
    assert FMod(after, d) == 0.0;
    TimesDiv(0.0, d);
    assert CyclePos(after) == 0.0 / d;
    assert CyclePos(after) == 0.0;
    assert after == n as real * CYCLE_DURATION + CYCLE_DURATION;
  }

  /** Multiplication by `d` undone. */
  lemma TimesDiv(x: real, d: real)
    requires d > 0.0
    ensures (x * d) / d == x
  {
  }

  /** For a non-negative total the cycle position is a fraction in [0, 1). */
  lemma CycleFraction(total: real)
    requires total >= 0.0
    ensures 0.0 <= CyclePos(total) < 1.0
  {
    var d: real := CYCLE_DURATION;
    var q := total / d;
    var t := Trunc(q);
    DivNonNegative(total, d);
    TruncBounds(q);
    ShiftDiv(total, d, t as real);
    assert CyclePos(total) == (total - d * t as real) / d;
    assert CyclePos(total) == q - t as real;
    assert 0.0 <= q - t as real < 1.0;
  }

  /** A non-negative amount divided by a positive one is non-negative. */
  lemma DivNonNegative(x: real, d: real)
    requires x >= 0.0 && d > 0.0
    ensures x / d >= 0.0
  {
  }

  /** Truncating a non-negative amount takes at most less than one off it. */
  lemma TruncBounds(q: real)
    requires q >= 0.0
    ensures Trunc(q) as real <= q < Trunc(q) as real + 1.0
  {
  }

  /** Taking `t` whole divisors off before dividing takes `t` off the quotient. */
  lemma ShiftDiv(x: real, d: real, t: real)
    requires d > 0.0
    ensures (x - d * t) / d == x / d - t
  {
  }

  /** A fraction in (0, 1] of a positive amount is positive and at most the amount. */
  lemma ScaleFraction(a: real, d: real)
    requires 0.0 < a <= 1.0 && d > 0.0
    ensures 0.0 < a * d <= d
  {
    ScaleOrder(0.0, a, d);
    ScaleOrder(a, 1.0, d);
  }

  /** Waking lands exactly on the start of a cycle. */
  lemma WakeLandsOnStart(elapsed: real, offset: real)
    ensures CyclePos(elapsed + WakeOffset(offset, elapsed + offset)) == 0.0
  {
    var n := Trunc((elapsed + offset) / CYCLE_DURATION);
    WakeTime(elapsed, offset);
    NextCycleAtStart(n);
    SamePos(elapsed + WakeOffset(offset, elapsed + offset), n as real * CYCLE_DURATION + CYCLE_DURATION);
  }

  /** Equal totals have equal cycle positions. */
  lemma SamePos(a: real, b: real)
    requires a == b
    ensures CyclePos(a) == CyclePos(b)
  {
  }

  /** For a non-negative game time, waking moves the offset forward by more
      than nothing and at most one whole cycle. */
  lemma WakeMovesAtMostACycle(elapsed: real, offset: real)
    requires elapsed + offset >= 0.0
    ensures offset < WakeOffset(offset, elapsed + offset) <= offset + CYCLE_DURATION
  {
    var total := elapsed + offset;
    var rest := 1.0 - CyclePos(total);
    CycleFraction(total);
    ScaleFraction(rest, CYCLE_DURATION);
    assert WakeOffset(offset, total) == offset + rest * CYCLE_DURATION;
  }

  /** Waking moves the clock to the start of the next cycle: the cycle
      position is then exactly 0, and for a non-negative game time the offset
      grows by more than nothing and at most one whole cycle. */
  lemma WakeAtSunrise(elapsed: real, offset: real)
    ensures CyclePos(elapsed + WakeOffset(offset, elapsed + offset)) == 0.0
    ensures elapsed + offset >= 0.0 ==>
              offset < WakeOffset(offset, elapsed + offset) <= offset + CYCLE_DURATION
  {
    WakeLandsOnStart(elapsed, offset);
    if elapsed + offset >= 0.0 {
      WakeMovesAtMostACycle(elapsed, offset);
    }
  }

  /** Right after waking, a second attempt is refused: sunrise is not night. */
  lemma NoSleepAtSunrise(isMultiplayer: bool, isHost: bool, elapsed: real, offset: real)
    ensures TrySleep(isMultiplayer, isHost, elapsed + WakeOffset(offset, elapsed + offset)) != FallAsleep
  {
    WakeAtSunrise(elapsed, offset);
  }

  // ---- updateChunkVersions

  /** `map.get(key) || 0`: a chunk's version, 0 when it has none. */
  function Version(m: map<ChunkKey, int>, key: ChunkKey): int
  {
    if key in m then m[key] else 0
  }

  /** The versions after bumping each listed key in turn. */
  function Bumped(m: map<ChunkKey, int>, keys: seq<ChunkKey>): map<ChunkKey, int>
  {
    if |keys| == 0 then m
    else
      var before := Bumped(m, keys[..|keys| - 1]);
      before[keys[|keys| - 1] := Version(before, keys[|keys| - 1]) + 1]
  }

  /** How often a key is listed. */
  function Occurrences(key: ChunkKey, keys: seq<ChunkKey>): nat
  {
    if |keys| == 0 then 0
    else Occurrences(key, keys[..|keys| - 1]) + (if keys[|keys| - 1] == key then 1 else 0)
  }

  /** `updateChunkVersions`: a copy of the versions with each listed key
      bumped by one; the old map itself is kept when the list is empty. */
  method UpdateChunkVersions(prev: map<ChunkKey, int>, keys: seq<ChunkKey>)
    returns (versions: map<ChunkKey, int>, replaced: bool)
    ensures versions == Bumped(prev, keys)
    ensures replaced <==> |keys| > 0
  {
    versions := prev;
    replaced := false;
    for i := 0 to |keys|
      invariant versions == Bumped(prev, keys[..i])
      invariant replaced <==> i > 0
    {
      assert keys[..i + 1][..i] == keys[..i];
      versions := versions[keys[i] := Version(versions, keys[i]) + 1];
      replaced := true;
    }
    assert keys[..|keys|] == keys;
  }

  /** Every listed chunk's version grows by the number of times it is listed
      (a missing version counting as 0), and no other chunk is touched. */
  lemma {:induction false} BumpedCounts(m: map<ChunkKey, int>, keys: seq<ChunkKey>)
    ensures forall key :: key in Bumped(m, keys) <==> key in m || key in keys
    ensures forall key :: Version(Bumped(m, keys), key) == Version(m, key) + Occurrences(key, keys)
    ensures forall key :: key !in keys ==> (key in m ==> Bumped(m, keys)[key] == m[key])
  {
    if |keys| > 0 {
      var init := keys[..|keys| - 1];
      BumpedCounts(m, init);
      assert forall key :: key in keys <==> key in init || key == keys[|keys| - 1];
    }
  }
}
