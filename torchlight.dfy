/** Torch lighting: five times a second the overlay is scanned for torches
    near the player, the nearest ten become point lights, and the light list
    is replaced when it changed. */
module TorchLightSystem {
  import opened Common
  import opened Blocks

  const MAX_LIGHTS := 10
  const RENDER_RADIUS := 20.0

  /** A torch near enough to light: where its light sits, and its squared
      distance from the player. */
  datatype Candidate = Candidate(pos: Point, dist: real)

  /** Where a torch in cell `k` puts its light. */
  function LightPos(k: Coord): Point
  {
    Point(k.0 as real + 0.5, k.1 as real + 0.7, k.2 as real + 0.5)
  }

  /** The candidate a torch in cell `k` makes. */
  function CandidateOf(k: Coord, player: Point): Candidate
  {
    Candidate(LightPos(k), DistSq(LightPos(k), player))
  }

  /** The quick test on the cell's own x and z before the exact distance. */
  predicate InBox(k: Coord, player: Point)
  {
    !(AbsR(k.0 as real - player.x) > RENDER_RADIUS || AbsR(k.2 as real - player.z) > RENDER_RADIUS)
  }

  /** A torch entry of the overlay that becomes a candidate. */
  predicate Qualifies(blocks: map<Coord, int>, k: Coord, player: Point)
    requires k in blocks
  {
    IsTorch(blocks[k]) && InBox(k, player) && DistSq(LightPos(k), player) < RENDER_RADIUS * RENDER_RADIUS
  }

  /** The candidates of the overlay entries listed in iteration order `order`. */
  function Candidates(blocks: map<Coord, int>, order: seq<Coord>, player: Point): seq<Candidate>
    requires forall k :: k in order ==> k in blocks
  {
    if |order| == 0 then []
    else
      var rest := Candidates(blocks, order[..|order| - 1], player);
      var k := order[|order| - 1];
      if Qualifies(blocks, k, player) then rest + [CandidateOf(k, player)] else rest
  }

  /** Every candidate is the candidate of a qualifying entry. */
  lemma {:induction false} CandidatesSound(blocks: map<Coord, int>, order: seq<Coord>, player: Point, c: Candidate)
    requires forall k :: k in order ==> k in blocks
    requires c in Candidates(blocks, order, player)
    ensures exists k :: k in order && Qualifies(blocks, k, player) && c == CandidateOf(k, player)
    decreases |order|
  {
    var prefix := order[..|order| - 1];
    var last := order[|order| - 1];
    assert forall k :: k in prefix ==> k in order;
    if c in Candidates(blocks, prefix, player) {
      CandidatesSound(blocks, prefix, player, c);
      var k :| k in prefix && Qualifies(blocks, k, player) && c == CandidateOf(k, player);
      assert k in order;
    } else {
      assert Qualifies(blocks, last, player) && c == CandidateOf(last, player);
      assert last in order;
    }
  }

  /** Every qualifying entry makes a candidate. */
  lemma {:induction false} CandidatesComplete(blocks: map<Coord, int>, order: seq<Coord>, player: Point, k: Coord)
    requires forall k :: k in order ==> k in blocks
    requires k in order && Qualifies(blocks, k, player)
    ensures CandidateOf(k, player) in Candidates(blocks, order, player)
    decreases |order|
  {
    var prefix := order[..|order| - 1];
    if k != order[|order| - 1] {
      var i :| 0 <= i < |order| && order[i] == k;
      assert prefix[i] == k;
      assert forall k :: k in prefix ==> k in order;
      CandidatesComplete(blocks, prefix, player, k);
    }
  }

  /** Exactly the qualifying entries become candidates, each carrying its
      own light position and squared distance. */
  lemma CandidatesExact(blocks: map<Coord, int>, order: seq<Coord>, player: Point)
    requires forall k :: k in order ==> k in blocks
    ensures var cs := Candidates(blocks, order, player);
            && (forall c :: c in cs ==>
                  exists k :: k in order && Qualifies(blocks, k, player) && c == CandidateOf(k, player))
            && (forall k :: k in order && Qualifies(blocks, k, player) ==>
                  CandidateOf(k, player) in cs)
  {
    forall c | c in Candidates(blocks, order, player)
      ensures exists k :: k in order && Qualifies(blocks, k, player) && c == CandidateOf(k, player)
    {
      CandidatesSound(blocks, order, player, c);
    }
    forall k | k in order && Qualifies(blocks, k, player)
      ensures CandidateOf(k, player) in Candidates(blocks, order, player)
    {
      CandidatesComplete(blocks, order, player, k);
    }
  }

  // ------------------------------------------------------------- sorting

  predicate Sorted(s: seq<Candidate>)
  {
    forall i, j :: 0 <= i < j < |s| ==> s[i].dist <= s[j].dist
  }

  /** Inserting `c` into a sorted list after every candidate no farther than it. */
  function Insert(c: Candidate, s: seq<Candidate>): (r: seq<Candidate>)
  {
    if |s| == 0 then [c]
    else if s[|s| - 1].dist <= c.dist then s + [c]
    else Insert(c, s[..|s| - 1]) + [s[|s| - 1]]
  }

  /** Inserting keeps every candidate and adds `c`. */
  lemma {:induction false} InsertKeeps(c: Candidate, s: seq<Candidate>)
    ensures multiset(Insert(c, s)) == multiset(s) + multiset{c}
    decreases |s|
  {
    if |s| > 0 && s[|s| - 1].dist > c.dist {
      InsertKeeps(c, s[..|s| - 1]);
      assert s == s[..|s| - 1] + [s[|s| - 1]];
    }
  }

  /** No candidate of `s` is farther than `bound`. */
  predicate NoFarther(s: seq<Candidate>, bound: real)
  {
    forall i :: 0 <= i < |s| ==> s[i].dist <= bound
  }

  lemma InsertNoFarther(c: Candidate, s: seq<Candidate>, bound: real)
    requires NoFarther(s, bound) && c.dist <= bound
    ensures NoFarther(Insert(c, s), bound)
  {
    var r := Insert(c, s);
    InsertKeeps(c, s);
    forall i | 0 <= i < |r|
      ensures r[i].dist <= bound
    {
      assert r[i] in multiset(r);
      if r[i] != c {
        assert r[i] in multiset(s);
        var j :| 0 <= j < |s| && s[j] == r[i];
      }
    }
  }

  /** Inserting into a sorted list keeps it sorted. */
  lemma {:induction false} InsertSorted(c: Candidate, s: seq<Candidate>)
    requires Sorted(s)
    ensures Sorted(Insert(c, s))
    decreases |s|
  {
    if |s| > 0 {
      var init := s[..|s| - 1];
      var last := s[|s| - 1];
      if last.dist > c.dist {
        InsertSorted(c, init);
        var r := Insert(c, init);
        assert NoFarther(init, last.dist);
        InsertNoFarther(c, init, last.dist);
        assert Insert(c, s) == r + [last];
        forall i, j | 0 <= i < j < |r| + 1
          ensures (r + [last])[i].dist <= (r + [last])[j].dist
        {
          if j < |r| {
            assert (r + [last])[i] == r[i] && (r + [last])[j] == r[j];
          }
        }
      } else {
        forall i, j | 0 <= i < j < |s| + 1
          ensures (s + [c])[i].dist <= (s + [c])[j].dist
        {
          if j == |s| {
            assert s[i].dist <= last.dist;
          }
        }
      }
    }
  }

  /** `candidates.sort((a, b) => a.dist - b.dist)`, a stable insertion sort. */
  function SortByDist(s: seq<Candidate>): seq<Candidate>
  {
    if |s| == 0 then [] else Insert(s[|s| - 1], SortByDist(s[..|s| - 1]))
  }

  /** Sorting orders the candidates nearest first and keeps every one of them. */
  lemma {:induction false} SortFacts(s: seq<Candidate>)
    ensures Sorted(SortByDist(s)) && multiset(SortByDist(s)) == multiset(s)
    decreases |s|
  {
    if |s| > 0 {
      SortFacts(s[..|s| - 1]);
      InsertSorted(s[|s| - 1], SortByDist(s[..|s| - 1]));
      InsertKeeps(s[|s| - 1], SortByDist(s[..|s| - 1]));
      assert s == s[..|s| - 1] + [s[|s| - 1]];
    }
  }

  // ----------------------------------------------------------- selection

  function Positions(s: seq<Candidate>): (r: seq<Point>)
    ensures |r| == |s| && forall i :: 0 <= i < |s| ==> r[i] == s[i].pos
  {
    if |s| == 0 then [] else Positions(s[..|s| - 1]) + [s[|s| - 1].pos]
  }

  /** `candidates.slice(0, MAX_LIGHTS).map(c => c.pos)` after the sort. */
  function Selected(blocks: map<Coord, int>, order: seq<Coord>, player: Point): seq<Point>
    requires forall k :: k in order ==> k in blocks
  {
    var sorted := SortByDist(Candidates(blocks, order, player));
    Positions(sorted[..if |sorted| < MAX_LIGHTS then |sorted| else MAX_LIGHTS])
  }

  /** `p` is the light of a torch entry of `order` within the render radius. */
  predicate FromTorch(blocks: map<Coord, int>, order: seq<Coord>, player: Point, p: Point)
    requires forall k :: k in order ==> k in blocks
  {
    exists k :: k in order && IsTorch(blocks[k]) && p == LightPos(k) && DistSq(p, player) < RENDER_RADIUS * RENDER_RADIUS
  }

  /** The sorted candidates, nearest first: each is a torch's light with its
      own squared distance, and every qualifying torch is among them. */
  lemma SortedCandidates(blocks: map<Coord, int>, order: seq<Coord>, player: Point)
    requires forall k :: k in order ==> k in blocks
    ensures var sorted := SortByDist(Candidates(blocks, order, player));
            && Sorted(sorted)
            && (forall i :: 0 <= i < |sorted| ==>
                  sorted[i].dist == DistSq(sorted[i].pos, player) && FromTorch(blocks, order, player, sorted[i].pos))
            && (forall k :: k in order && Qualifies(blocks, k, player) ==>
                  CandidateOf(k, player) in sorted)
  {
    var cs := Candidates(blocks, order, player);
    var sorted := SortByDist(cs);
    CandidatesExact(blocks, order, player);
    SortFacts(cs);
    forall i | 0 <= i < |sorted|
      ensures sorted[i].dist == DistSq(sorted[i].pos, player) && FromTorch(blocks, order, player, sorted[i].pos)
    {
      assert sorted[i] in multiset(sorted);
      assert sorted[i] in cs;
      var k :| k in order && Qualifies(blocks, k, player) && sorted[i] == CandidateOf(k, player);
    }
    forall k | k in order && Qualifies(blocks, k, player)
      ensures CandidateOf(k, player) in sorted
    {
      assert CandidateOf(k, player) in multiset(sorted);
    }
  }

  /** At most ten lights, each the light of a torch entry within the render
      radius, nearest first. */
  lemma SelectionNearest(blocks: map<Coord, int>, order: seq<Coord>, player: Point)
    requires forall k :: k in order ==> k in blocks
    ensures var sel := Selected(blocks, order, player);
            && |sel| <= MAX_LIGHTS
            && (forall i :: 0 <= i < |sel| ==> FromTorch(blocks, order, player, sel[i]))
            && (forall i, j :: 0 <= i < j < |sel| ==> DistSq(sel[i], player) <= DistSq(sel[j], player))
  {
    var sorted := SortByDist(Candidates(blocks, order, player));
    var sel := Selected(blocks, order, player);
    SortedCandidates(blocks, order, player);
    assert forall i :: 0 <= i < |sel| ==> sel[i] == sorted[i].pos;
  }

  /** A qualifying torch whose light is left out means the list is full of
      lights no farther than it. */
  lemma SelectionLeavesOutFarther(blocks: map<Coord, int>, order: seq<Coord>, player: Point, k: Coord)
    requires forall k :: k in order ==> k in blocks
    requires k in order && Qualifies(blocks, k, player) && LightPos(k) !in Selected(blocks, order, player)
    ensures var sel := Selected(blocks, order, player);
            && |sel| == MAX_LIGHTS
            && forall i :: 0 <= i < |sel| ==> DistSq(sel[i], player) <= DistSq(LightPos(k), player)
  {
    var sorted := SortByDist(Candidates(blocks, order, player));
    var sel := Selected(blocks, order, player);
    SortedCandidates(blocks, order, player);
    var j :| 0 <= j < |sorted| && sorted[j] == CandidateOf(k, player);
    assert forall i :: 0 <= i < |sel| ==> sel[i] == sorted[i].pos;
    assert j >= |sel|;
  }

  /** The quick test looks at the torch's cell corner, not at its light: a
      torch whose light is within the render radius can still be skipped
      when it lies just over 20 blocks toward negative x. */
  lemma CornerTestSkipsNearTorch()
    ensures var k: Coord := (-21, 0, 0);
            var player := Point(-0.75, 0.7, 0.5);
            && DistSq(LightPos(k), player) < RENDER_RADIUS * RENDER_RADIUS
            && !InBox(k, player)
  {
  }

  // --------------------------------------------------------------- state

  /** The candidate scan over the overlay's entries. */
  method CollectCandidates(blocks: map<Coord, int>, order: seq<Coord>, player: Point) returns (candidates: seq<Candidate>)
    requires forall k :: k in order ==> k in blocks
    ensures candidates == Candidates(blocks, order, player)
  {
    candidates := [];
    var i := 0;
    while i < |order|
      invariant 0 <= i <= |order|
      invariant candidates == Candidates(blocks, order[..i], player)
    {
      var key := order[i];
      var t := blocks[key];
      assert order[..i + 1][..i] == order[..i];
      if TORCH <= t <= TORCH_WEST {
        if AbsR(key.0 as real - player.x) > RENDER_RADIUS || AbsR(key.2 as real - player.z) > RENDER_RADIUS {
          i := i + 1;
          continue;
        }
        var pos := LightPos(key);
        var dist := DistSq(pos, player);
        if dist < RENDER_RADIUS * RENDER_RADIUS {
          candidates := candidates + [Candidate(pos, dist)];
        }
      }
      i := i + 1;
    }
    assert order[..i] == order;
  }

  /** The component's state: the light list and when it was last refreshed. */
  class TorchLights {
    var lights: seq<Point>
    var lastUpdate: real

    constructor()
      ensures lights == [] && lastUpdate == 0.0
    {
      lights, lastUpdate := [], 0.0;
    }

    /** One frame at clock `time`: more than 0.2 s after the last refresh,
        select the lights for the player's position and replace the list
        when it differs. */
    method Frame(time: real, player: Point, blocks: map<Coord, int>, order: seq<Coord>)
      returns (refreshed: bool, replaced: bool)
      requires NoDup(order) && forall k :: k in order <==> k in blocks
      modifies this
      ensures refreshed <==> time - old(lastUpdate) > 0.2
      ensures lastUpdate == (if refreshed then time else old(lastUpdate))
      ensures !refreshed ==> lights == old(lights) && !replaced
      ensures refreshed ==> lights == Selected(blocks, order, player)
      ensures replaced <==> refreshed && Selected(blocks, order, player) != old(lights)
    {
      refreshed, replaced := false, false;
      if time - lastUpdate > 0.2 {
        refreshed := true;
        lastUpdate := time;
        var candidates := CollectCandidates(blocks, order, player);
        var sorted := SortByDist(candidates);
        var activeLights := Positions(sorted[..if |sorted| < MAX_LIGHTS then |sorted| else MAX_LIGHTS]);
        if activeLights != lights {
          lights := activeLights;
          replaced := true;
        }
      }
    }
  }
}
