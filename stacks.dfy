/** Item stacks as the hotbar, the crafting grid and the hand hold them, and
    how many items of one kind a row of slots holds. */
module Stacks {
  import opened Common
  import opened Blocks

  /** `{ id: AIR, count: 0 }`, the empty slot. */
  const EMPTY := ItemStack(AIR, 0)

  /** A slot as the inventory keeps it: empty exactly when it holds nothing. */
  predicate ValidSlot(s: ItemStack)
  {
    s.count >= 0 && (s.id == AIR <==> s.count == 0)
  }

  predicate ValidSlots(s: seq<ItemStack>)
  {
    forall i :: 0 <= i < |s| ==> ValidSlot(s[i])
  }

  /** A held stack, when there is one, is a real item with at least one unit. */
  predicate ValidHeld(h: Option<ItemStack>)
  {
    h.Some? ==> h.value.id != AIR && h.value.count > 0
  }

  /** One unit of an occupied slot used up; the slot empties at zero. */
  function UseOne(s: ItemStack): ItemStack
  {
    if s.id == AIR then s
    else if s.count - 1 <= 0 then EMPTY
    else ItemStack(s.id, s.count - 1)
  }

  /** How many items of kind `id` a stack holds; air is never an item. */
  function Amount(id: int, s: ItemStack): int
  {
    if s.id == id && id != AIR then s.count else 0
  }

  /** How many items of kind `id` a possibly absent stack holds. */
  function HeldAmount(id: int, h: Option<ItemStack>): int
  {
    if h.Some? then Amount(id, h.value) else 0
  }

  /** How many items of kind `id` a row of slots holds. */
  function Count(id: int, s: seq<ItemStack>): int
  {
    if |s| == 0 then 0 else Count(id, s[..|s| - 1]) + Amount(id, s[|s| - 1])
  }

  lemma {:induction false} CountAppend(id: int, s: seq<ItemStack>, t: seq<ItemStack>)
    ensures Count(id, s + t) == Count(id, s) + Count(id, t)
    decreases |t|
  {
    if |t| == 0 {
      assert s + t == s;
    } else {
      assert (s + t)[..|s + t| - 1] == s + t[..|t| - 1];
      CountAppend(id, s, t[..|t| - 1]);
    }
  }

  /** Overwriting one slot changes the row's count by that slot's difference. */
  lemma CountUpdate(id: int, s: seq<ItemStack>, i: int, x: ItemStack)
    requires 0 <= i < |s|
    ensures Count(id, s[i := x]) == Count(id, s) - Amount(id, s[i]) + Amount(id, x)
  {
    assert s == s[..i] + [s[i]] + s[i + 1..];
    assert s[i := x] == s[..i] + [x] + s[i + 1..];
    CountAppend(id, s[..i] + [s[i]], s[i + 1..]);
    CountAppend(id, s[..i], [s[i]]);
    CountAppend(id, s[..i] + [x], s[i + 1..]);
    CountAppend(id, s[..i], [x]);
    assert [x][..0] == [] && [s[i]][..0] == [];
  }
}
