/** Crop growth: once a second the overlay is scanned, every wheat block
    below the last stage may grow one stage, and the growth is written back
    after the scan. `Math.random` is the oracle `roll`, read once per
    growable crop in scan order. */
module CropSystem {
  import opened Common
  import opened Blocks
  import opened WorldGen
  import opened WaterSystem

  /** The chance per tick that a growable crop grows. */
  const GROWTH_CHANCE: real := 0.10

  /** The crop stages that can still grow. */
  predicate Growable(t: int)
  {
    WHEAT_STAGE_0 <= t <= WHEAT_STAGE_2
  }

  /** What one scan collects: the `updates` map, the `affectedChunks` set in
      insertion order, and how many random numbers it drew. */
  datatype Scan = Scan(updates: map<Coord, int>, chunks: seq<ChunkKey>, drawn: nat)

  /** The scan over the overlay's entries in iteration order `order`. */
  function Survey(blocks: map<Coord, int>, order: seq<Coord>, roll: nat -> real): Scan
    requires forall k :: k in order ==> k in blocks
    decreases |order|
  {
    if |order| == 0 then Scan(map[], [], 0)
    else
      var s := Survey(blocks, order[..|order| - 1], roll);
      var key := order[|order| - 1];
      var t := blocks[key];
      if !Growable(t) then s
      else if roll(s.drawn) < GROWTH_CHANCE then Scan(s.updates[key := t + 1], Add(s.chunks, ChunkOf(key)), s.drawn + 1)
      else Scan(s.updates, s.chunks, s.drawn + 1)
  }

  /** How many growable crops `order` lists. */
  function Draws(blocks: map<Coord, int>, order: seq<Coord>): nat
    requires forall k :: k in order ==> k in blocks
  {
    if |order| == 0 then 0
    else Draws(blocks, order[..|order| - 1]) + (if Growable(blocks[order[|order| - 1]]) then 1 else 0)
  }

  /** Every update advances a growable crop of the scanned entries by one
      stage, and one number is drawn per growable crop. */
  lemma {:induction false} SurveyGrows(blocks: map<Coord, int>, order: seq<Coord>, roll: nat -> real)
    requires forall k :: k in order ==> k in blocks
    ensures var s := Survey(blocks, order, roll);
            && s.drawn == Draws(blocks, order)
            && (forall k :: k in s.updates ==> k in order && Growable(blocks[k]) && s.updates[k] == blocks[k] + 1)
    decreases |order|
  {
    if |order| > 0 {
      var prefix := order[..|order| - 1];
      assert forall k :: k in prefix ==> k in order;
      SurveyGrows(blocks, prefix, roll);
    }
  }

  /** Every updated cell's chunk is reported, once. */
  lemma {:induction false} SurveyChunksListed(blocks: map<Coord, int>, order: seq<Coord>, roll: nat -> real)
    requires forall k :: k in order ==> k in blocks
    ensures var s := Survey(blocks, order, roll);
            && NoDup(s.chunks)
            && (|s.updates| == 0 ==> s.chunks == [])
            && (forall k :: k in s.updates ==> ChunkOf(k) in s.chunks)
    decreases |order|
  {
    if |order| > 0 {
      var prefix := order[..|order| - 1];
      assert forall k :: k in prefix ==> k in order;
      SurveyChunksListed(blocks, prefix, roll);
      var s := Survey(blocks, prefix, roll);
      var key := order[|order| - 1];
      if Growable(blocks[key]) && roll(s.drawn) < GROWTH_CHANCE {
        AddKeepsNoDup(s.chunks, ChunkOf(key));
      }
    }
  }

  /** Every reported chunk holds an updated cell. */
  lemma {:induction false} SurveyChunkSource(blocks: map<Coord, int>, order: seq<Coord>, roll: nat -> real, c: ChunkKey)
    requires forall k :: k in order ==> k in blocks
    requires c in Survey(blocks, order, roll).chunks
    ensures exists k :: k in Survey(blocks, order, roll).updates && ChunkOf(k) == c
    decreases |order|
  {
    var prefix := order[..|order| - 1];
    assert forall k :: k in prefix ==> k in order;
    var s := Survey(blocks, prefix, roll);
    var key := order[|order| - 1];
    var u := Survey(blocks, order, roll).updates;
    if c in s.chunks {
      SurveyChunkSource(blocks, prefix, roll, c);
      var k :| k in s.updates && ChunkOf(k) == c;
      assert k in u;
    } else {
      assert key in u && ChunkOf(key) == c;
    }
  }

  /** The chunks reported are those of the updated cells, each listed once. */
  lemma SurveyChunks(blocks: map<Coord, int>, order: seq<Coord>, roll: nat -> real)
    requires forall k :: k in order ==> k in blocks
    ensures var s := Survey(blocks, order, roll);
            && NoDup(s.chunks)
            && (|s.updates| == 0 ==> s.chunks == [])
            && (forall k :: k in s.updates ==> ChunkOf(k) in s.chunks)
            && (forall c :: c in s.chunks ==> exists k :: k in s.updates && ChunkOf(k) == c)
  {
    SurveyChunksListed(blocks, order, roll);
    forall c | c in Survey(blocks, order, roll).chunks
      ensures exists k :: k in Survey(blocks, order, roll).updates && ChunkOf(k) == c
    {
      SurveyChunkSource(blocks, order, roll, c);
    }
  }

  /** A growable crop grows exactly when the number drawn for it is below
      the growth chance. */
  lemma {:induction false} SurveyChooses(blocks: map<Coord, int>, order: seq<Coord>, roll: nat -> real, i: nat)
    requires forall k :: k in order ==> k in blocks
    requires NoDup(order) && i < |order| && Growable(blocks[order[i]])
    ensures order[i] in Survey(blocks, order, roll).updates <==> roll(Draws(blocks, order[..i])) < GROWTH_CHANCE
    decreases |order|
  {
    var prefix := order[..|order| - 1];
    assert forall k :: k in prefix ==> k in order;
    SurveyGrows(blocks, prefix, roll);
    if i < |order| - 1 {
      SurveyChooses(blocks, prefix, roll, i);
      assert prefix[..i] == order[..i];
      assert order[i] != order[|order| - 1];
    } else {
      assert prefix == order[..i];
      assert order[i] !in prefix;
    }
  }

  /** The growth written back changes no key of the overlay, leaves every
      entry but growable crops alone, and moves those by at most one stage. */
  lemma GrowthKeepsEntries(blocks: map<Coord, int>, order: seq<Coord>, roll: nat -> real)
    requires forall k :: k in order ==> k in blocks
    ensures var after := blocks + Survey(blocks, order, roll).updates;
            && after.Keys == blocks.Keys
            && forall k :: k in blocks ==>
                 after[k] == blocks[k] || (Growable(blocks[k]) && after[k] == blocks[k] + 1)
  {
    SurveyGrows(blocks, order, roll);
  }

  /** The scan loop over the overlay's entries. */
  method CollectGrowth(blocks: map<Coord, int>, order: seq<Coord>, roll: nat -> real)
    returns (updates: map<Coord, int>, affectedChunks: seq<ChunkKey>)
    requires forall k :: k in order ==> k in blocks
    ensures var s := Survey(blocks, order, roll); updates == s.updates && affectedChunks == s.chunks
  {
    updates, affectedChunks := map[], [];
    var drawn := 0;
    var i := 0;
    while i < |order|
      invariant 0 <= i <= |order|
      invariant Survey(blocks, order[..i], roll) == Scan(updates, affectedChunks, drawn)
    {
      var key := order[i];
      var t := blocks[key];
      assert order[..i + 1][..i] == order[..i];
      if WHEAT_STAGE_0 <= t <= WHEAT_STAGE_2 {
        var r := roll(drawn);
        drawn := drawn + 1;
        if r < GROWTH_CHANCE {
          var nextStage := t + 1;
          updates := updates[key := nextStage];
          affectedChunks := Add(affectedChunks, ChunkOf(key));
        }
      }
      i := i + 1;
    }
    assert order[..i] == order;
  }

  /** The component's state: when growth last ran. */
  class Crops {
    var lastUpdate: real

    constructor()
      ensures lastUpdate == 0.0
    {
      lastUpdate := 0.0;
    }

    /** One frame at clock `time`: more than a second after the last tick,
        scan the overlay (whose iteration order is `order`), apply the
        growth, and report the chunks to redraw if anything grew. */
    method Frame(time: real, world: Overlay, order: seq<Coord>, roll: nat -> real)
      returns (ticked: bool, notified: bool, chunks: seq<ChunkKey>)
      requires NoDup(order) && forall k :: k in order <==> k in world.blocks
      modifies this, world
      ensures ticked <==> time - old(lastUpdate) > 1.0
      ensures lastUpdate == (if ticked then time else old(lastUpdate))
      ensures !ticked ==> world.blocks == old(world.blocks) && !notified
      ensures ticked ==>
                var s := Survey(old(world.blocks), order, roll);
                && world.blocks == old(world.blocks) + s.updates
                && (notified <==> |s.updates| > 0)
                && chunks == s.chunks
    {
      ticked, notified, chunks := false, false, [];
      if time - lastUpdate > 1.0 {
        ticked := true;
        lastUpdate := time;
        var updates, affectedChunks := CollectGrowth(world.blocks, order, roll);
        if |updates| > 0 {
          world.blocks := world.blocks + updates;
          notified, chunks := true, affectedChunks;
        } else {
          assert updates == map[];
          assert world.blocks + updates == world.blocks;
          SurveyChunks(world.blocks, order, roll);
        }
      }
    }
  }
}
