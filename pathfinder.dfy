/** The mobs' bounded A* search over block cells (`findPath`): an open list
    of search nodes, a closed set of cells, nodes that record their cost and
    their parent, and the path read back from the node that reaches the goal.
    Node records, which the search updates in place, live in an array-like
    sequence in creation order; a parent is an index into it. */
module Pathfinder {
  import opened Common
  import opened Blocks
  import opened WorldGen

  function ToPoint(c: Coord): Point
  {
    Point(c.0 as real, c.1 as real, c.2 as real)
  }

  /** `v.clone().round()`: the cell a point rounds into. */
  function Rounded(p: Point): Coord
  {
    (Round(p.x), Round(p.y), Round(p.z))
  }

  /** `manhattanDistance`. */
  function Manhattan(a: Point, b: Point): (d: real)
    ensures d >= 0.0
    ensures d == 0.0 <==> a == b
  {
    AbsR(a.x - b.x) + AbsR(a.y - b.y) + AbsR(a.z - b.z)
  }

  // ---------------------------------------------------------------- moves

  function Plus(a: Coord, d: Coord): Coord
  {
    (a.0 + d.0, a.1 + d.1, a.2 + d.2)
  }

  const UP: Coord := (0, 1, 0)
  const DOWN: Coord := (0, -1, 0)

  /** The six cardinal directions, in the order the search tries them. */
  const NEIGHBOURS: seq<Coord> := [(1, 0, 0), (-1, 0, 0), (0, 0, 1), (0, 0, -1), (0, 1, 0), (0, -1, 0)]

  /** Two cells one cardinal direction apart. */
  predicate UnitStep(a: Coord, b: Coord)
  {
    Abs(b.0 - a.0) + Abs(b.1 - a.1) + Abs(b.2 - a.2) == 1
  }

  /** A unit vector along one axis. */
  predicate IsDirection(d: Coord)
  {
    Abs(d.0) + Abs(d.1) + Abs(d.2) == 1
  }

  /** The six directions are exactly the unit steps: each of them is one, and
      every unit step out of a cell is one of them. */
  lemma NeighboursAreUnitSteps(a: Coord, b: Coord)
    ensures forall k :: 0 <= k < |NEIGHBOURS| ==> IsDirection(NEIGHBOURS[k]) && UnitStep(a, Plus(a, NEIGHBOURS[k]))
    ensures UnitStep(a, b) <==> exists k :: 0 <= k < |NEIGHBOURS| && b == Plus(a, NEIGHBOURS[k])
  {
    if UnitStep(a, b) {
      var k := DirOf(a, b);
    }
  }

  /** Every unit step is one of the six directions: the index of the one it is. */
  function DirOf(a: Coord, b: Coord): (k: nat)
    requires UnitStep(a, b)
    ensures k < |NEIGHBOURS| && b == Plus(a, NEIGHBOURS[k])
  {
    if b.0 == a.0 + 1 then 0
    else if b.0 == a.0 - 1 then 1
    else if b.2 == a.2 + 1 then 2
    else if b.2 == a.2 - 1 then 3
    else if b.1 == a.1 + 1 then 4
    else 5
  }

  /** `isSolidForPathfinding`: the registry's solidity of the block at a
      cell, where a block type without a definition counts as solid. */
  predicate SolidForPath(overlay: map<Coord, int>, terrain: Terrain, c: Coord)
  {
    var t := Read(overlay, terrain, c.0, c.1, c.2);
    BLOCK_DEFS(t).None? || BLOCK_DEFS(t).value.solid
  }

  /** A mob may enter cell `n` moving with vertical component `dy`: its body
      and head cells are clear, and unless it climbs it lands on solid ground. */
  predicate Walkable(overlay: map<Coord, int>, terrain: Terrain, n: Coord, dy: int)
  {
    && !SolidForPath(overlay, terrain, n)
    && !SolidForPath(overlay, terrain, Plus(n, UP))
    && (dy == 1 || SolidForPath(overlay, terrain, Plus(n, DOWN)))
  }

  /** One legal move of the search, from cell `a` to cell `b`. */
  predicate Moved(overlay: map<Coord, int>, terrain: Terrain, a: Coord, b: Coord)
  {
    UnitStep(a, b) && Walkable(overlay, terrain, b, b.1 - a.1)
  }

  /** A route of legal moves. */
  predicate IsWalk(overlay: map<Coord, int>, terrain: Terrain, w: seq<Coord>)
  {
    forall k :: 0 <= k < |w| - 1 ==> Moved(overlay, terrain, w[k], w[k + 1])
  }

  function SqDist(a: Coord, b: Coord): int
  {
    (a.0 - b.0) * (a.0 - b.0) + (a.1 - b.1) * (a.1 - b.1) + (a.2 - b.2) * (a.2 - b.2)
  }

  /** `pos.distanceTo(end) < 1.5`, compared as squares. */
  predicate InReach(a: Coord, b: Coord)
  {
    SqDist(a, b) as real < 2.25
  }

  lemma Square(n: int)
    ensures n * n >= 0
    ensures n == 0 ==> n * n == 0
    ensures Abs(n) == 1 ==> n * n == 1
    ensures Abs(n) >= 2 ==> n * n >= 4
  {
    if Abs(n) >= 2 {
      if n >= 2 {
        assert n * n >= 2 * n;
      } else {
        assert n * n == (-n) * (-n) >= 2 * (-n);
      }
    }
  }

  /** The goal test accepts the goal cell and the cells sharing a face or an
      edge with it, and no other cell. */
  lemma ReachMeans(a: Coord, b: Coord)
    ensures InReach(a, b) <==>
              && Abs(a.0 - b.0) <= 1 && Abs(a.1 - b.1) <= 1 && Abs(a.2 - b.2) <= 1
              && (a.0 == b.0 || a.1 == b.1 || a.2 == b.2)
  {
    Square(a.0 - b.0);
    Square(a.1 - b.1);
    Square(a.2 - b.2);
  }

  // ---------------------------------------------------------------- nodes

  /** A search node (`Node`); `parent` indexes the node sequence, -1 for none. */
  datatype Node = Node(pos: Coord, g: int, h: real, f: real, parent: int)

  /** Node `i` hangs from an existing parent one step cheaper than itself. */
  predicate Linked(nodes: seq<Node>, i: nat)
    requires i < |nodes|
  {
    0 <= nodes[i].parent < |nodes| && nodes[i].g == nodes[nodes[i].parent].g + 1
  }

  /** The node records form a tree rooted at the start node: each other node
      is one step costlier than its parent. */
  predicate Shaped(nodes: seq<Node>, start: Coord)
  {
    && |nodes| > 0
    && nodes[0].pos == start && nodes[0].g == 0 && nodes[0].parent == -1
    && (forall i :: 0 <= i < |nodes| ==> nodes[i].g >= 0)
    && (forall i: nat :: 0 < i < |nodes| ==> Linked(nodes, i))
  }

  /** Node `i` was reached from its parent by a legal move. */
  predicate Stepped(overlay: map<Coord, int>, terrain: Terrain, nodes: seq<Node>, i: nat)
    requires i < |nodes|
  {
    0 <= nodes[i].parent < |nodes| ==> Moved(overlay, terrain, nodes[nodes[i].parent].pos, nodes[i].pos)
  }

  /** Each node was reached from its parent by a legal move. */
  predicate Legal(overlay: map<Coord, int>, terrain: Terrain, nodes: seq<Node>)
  {
    forall i: nat :: 0 < i < |nodes| ==> Stepped(overlay, terrain, nodes, i)
  }

  /** `f = g + h` for node `i`, which, unless it is the start, estimates by its own cell. */
  predicate ScoreOk(nodes: seq<Node>, end: Coord, i: nat)
    requires i < |nodes|
  {
    && nodes[i].f == nodes[i].g as real + nodes[i].h
    && (i > 0 ==> nodes[i].h == Manhattan(ToPoint(nodes[i].pos), ToPoint(end)))
  }

  predicate Scored(nodes: seq<Node>, end: Coord)
  {
    forall i: nat :: i < |nodes| ==> ScoreOk(nodes, end, i)
  }

  /** The open list: node indices at distinct cells outside the closed set,
      none of which is yet any node's parent. */
  predicate OpenOk(nodes: seq<Node>, open: seq<nat>, closed: set<Coord>)
  {
    && (forall k :: 0 <= k < |open| ==> open[k] < |nodes| && nodes[open[k]].pos !in closed)
    && (forall k, l :: 0 <= k < l < |open| && open[k] < |nodes| && open[l] < |nodes| ==>
          nodes[open[k]].pos != nodes[open[l]].pos)
    && (forall i, k :: 0 <= i < |nodes| && 0 <= k < |open| ==> nodes[i].parent != open[k])
  }

  /** Some open node stands at cell `m`. */
  predicate InOpen(nodes: seq<Node>, open: seq<nat>, m: Coord)
  {
    exists k :: 0 <= k < |open| && open[k] < |nodes| && nodes[open[k]].pos == m
  }

  /** The first `upTo` directions out of cell `c` lead, where a move is
      legal, into the closed set or to an open node. */
  predicate Expanded(overlay: map<Coord, int>, terrain: Terrain, nodes: seq<Node>, open: seq<nat>,
                     closed: set<Coord>, c: Coord, upTo: nat)
  {
    forall k :: 0 <= k < upTo && k < |NEIGHBOURS| &&
                Walkable(overlay, terrain, Plus(c, NEIGHBOURS[k]), NEIGHBOURS[k].1) ==>
      Plus(c, NEIGHBOURS[k]) in closed || InOpen(nodes, open, Plus(c, NEIGHBOURS[k]))
  }

  /** Every closed cell has been expanded. */
  predicate Frontier(overlay: map<Coord, int>, terrain: Terrain, nodes: seq<Node>, open: seq<nat>,
                     closed: set<Coord>)
  {
    forall c :: c in closed ==> Expanded(overlay, terrain, nodes, open, closed, c, |NEIGHBOURS|)
  }

  /** A set of cells no legal move leaves. */
  predicate Enclosed(overlay: map<Coord, int>, terrain: Terrain, cells: set<Coord>)
  {
    forall c, k :: c in cells && 0 <= k < |NEIGHBOURS| &&
                   Walkable(overlay, terrain, Plus(c, NEIGHBOURS[k]), NEIGHBOURS[k].1) ==>
      Plus(c, NEIGHBOURS[k]) in cells
  }

  /** A walk that starts inside a set no legal move leaves stays inside it. */
  lemma {:induction false} WalkStaysInside(overlay: map<Coord, int>, terrain: Terrain, cells: set<Coord>, w: seq<Coord>)
    requires Enclosed(overlay, terrain, cells)
    requires IsWalk(overlay, terrain, w) && |w| > 0 && w[0] in cells
    ensures forall k :: 0 <= k < |w| ==> w[k] in cells
    decreases |w|
  {
    if |w| > 1 {
      var w' := w[..|w| - 1];
      assert IsWalk(overlay, terrain, w') by {
        forall k | 0 <= k < |w'| - 1
          ensures Moved(overlay, terrain, w'[k], w'[k + 1])
        {
          assert w'[k] == w[k] && w'[k + 1] == w[k + 1];
        }
      }
      WalkStaysInside(overlay, terrain, cells, w');
      var a, b := w[|w| - 2], w[|w| - 1];
      assert Moved(overlay, terrain, a, b);
      var k := DirOf(a, b);
      assert a in cells by { assert a == w'[|w'| - 1]; }
      assert NEIGHBOURS[k].1 == b.1 - a.1;
    }
  }

  // ---------------------------------------------------------------- paths

  /** The cells from the start down to node `i`, following parent links. */
  function Lineage(nodes: seq<Node>, start: Coord, i: nat): seq<Coord>
    requires Shaped(nodes, start) && i < |nodes|
    decreases nodes[i].g
  {
    if i == 0 then [start]
    else assert Linked(nodes, i); Lineage(nodes, start, nodes[i].parent) + [nodes[i].pos]
  }

  /** One link of a lineage: the start node ends it, any other node extends
      its parent's. */
  lemma LineageLast(nodes: seq<Node>, start: Coord, i: nat)
    requires Shaped(nodes, start) && i < |nodes|
    ensures i == 0 ==> nodes[i].parent == -1 && Lineage(nodes, start, i) == [nodes[i].pos]
    ensures i > 0 ==> && 0 <= nodes[i].parent < |nodes| && 0 <= nodes[nodes[i].parent].g == nodes[i].g - 1
                      && Lineage(nodes, start, i) == Lineage(nodes, start, nodes[i].parent) + [nodes[i].pos]
  {
    if i > 0 {
      assert Linked(nodes, i);
    }
  }

  /** A node's lineage is a walk of legal moves from the start to its cell,
      one cell longer than the node's cost. */
  lemma {:induction false} LineageIsWalk(overlay: map<Coord, int>, terrain: Terrain, nodes: seq<Node>, start: Coord, i: nat)
    requires Shaped(nodes, start) && Legal(overlay, terrain, nodes) && i < |nodes|
    ensures var w := Lineage(nodes, start, i);
            && |w| == nodes[i].g + 1 && w[0] == start && w[|w| - 1] == nodes[i].pos
            && IsWalk(overlay, terrain, w)
    decreases nodes[i].g
  {
    LineageLast(nodes, start, i);
    if i > 0 {
      var p := nodes[i].parent;
      assert Stepped(overlay, terrain, nodes, i);
      LineageIsWalk(overlay, terrain, nodes, start, p);
      var u := Lineage(nodes, start, p);
      var w := u + [nodes[i].pos];
      assert Lineage(nodes, start, i) == w;
      forall k | 0 <= k < |w| - 1
        ensures Moved(overlay, terrain, w[k], w[k + 1])
      {
        if k < |u| - 1 {
          assert w[k] == u[k] && w[k + 1] == u[k + 1];
        } else {
          assert w[k] == nodes[p].pos;
        }
      }
    }
  }

  function Reversed<T>(s: seq<T>): (r: seq<T>)
    ensures |r| == |s| && forall k :: 0 <= k < |s| ==> r[k] == s[|s| - 1 - k]
  {
    if |s| == 0 then [] else [s[|s| - 1]] + Reversed(s[..|s| - 1])
  }

  lemma ReversedSnoc<T>(s: seq<T>, x: T)
    ensures Reversed(s + [x]) == [x] + Reversed(s)
  {
    assert (s + [x])[..|s|] == s;
  }

  /** Reading the path back: push every node's cell from `goal` up to the
      start, then reverse (`path.reverse()`). */
  method Trace(nodes: seq<Node>, ghost start: Coord, goal: nat) returns (path: seq<Coord>)
    requires Shaped(nodes, start) && goal < |nodes|
    ensures path == Lineage(nodes, start, goal)
  {
    var pushed: seq<Coord> := [];
    var current: int := goal;
    while current != -1
      invariant -1 <= current < |nodes|
      invariant current != -1 ==> Lineage(nodes, start, goal) == Lineage(nodes, start, current) + Reversed(pushed)
      invariant current == -1 ==> Lineage(nodes, start, goal) == Reversed(pushed)
      decreases if current == -1 then 0 else nodes[current].g + 1
    {
      LineageLast(nodes, start, current);
      ReversedSnoc(pushed, nodes[current].pos);
      pushed := pushed + [nodes[current].pos];
      current := nodes[current].parent;
    }
    path := Reversed(pushed);
  }

  // ---------------------------------------------------------------- search

  /** `openList.find(n => n.pos.equals(pos))` from list index `from`: the
      list index of the first open node at `pos`, or -1. */
  function FindOpen(nodes: seq<Node>, open: seq<nat>, pos: Coord, from: nat): (j: int)
    requires forall k :: 0 <= k < |open| ==> open[k] < |nodes|
    requires from <= |open|
    ensures -1 <= j < |open|
    ensures j == -1 <==> forall k :: from <= k < |open| ==> nodes[open[k]].pos != pos
    ensures j >= 0 ==> from <= j && nodes[open[j]].pos == pos &&
                       forall k :: from <= k < j ==> nodes[open[k]].pos != pos
    decreases |open| - from
  {
    if from == |open| then -1
    else if nodes[open[from]].pos == pos then from
    else FindOpen(nodes, open, pos, from + 1)
  }

  /** The scan for the lowest `f`: the first open node of least `f`. */
  method Lowest(nodes: seq<Node>, open: seq<nat>) returns (lowest: nat)
    requires |open| > 0 && forall k :: 0 <= k < |open| ==> open[k] < |nodes|
    ensures lowest < |open|
    ensures forall k :: 0 <= k < |open| ==> nodes[open[lowest]].f <= nodes[open[k]].f
    ensures forall k :: 0 <= k < lowest ==> nodes[open[k]].f > nodes[open[lowest]].f
  {
    lowest := 0;
    var i := 1;
    while i < |open|
      invariant 1 <= i <= |open| && lowest < i
      invariant forall k :: 0 <= k < i ==> nodes[open[lowest]].f <= nodes[open[k]].f
      invariant forall k :: 0 <= k < lowest ==> nodes[open[k]].f > nodes[open[lowest]].f
    {
      if nodes[open[i]].f < nodes[open[lowest]].f {
        lowest := i;
      }
      i := i + 1;
    }
  }

  /** Taking the lowest node off the open list (`splice`) and closing its cell. */
  method Pop(nodes: seq<Node>, open: seq<nat>, closed: set<Coord>)
    returns (current: nat, open': seq<nat>, closed': set<Coord>, lowest: nat)
    requires |open| > 0 && OpenOk(nodes, open, closed)
    ensures lowest < |open| && current == open[lowest] && current < |nodes|
    ensures open' == open[..lowest] + open[lowest + 1..]
    ensures forall k :: 0 <= k < |open| ==> nodes[current].f <= nodes[open[k]].f
    ensures forall k :: 0 <= k < lowest ==> nodes[open[k]].f > nodes[current].f
    ensures closed' == closed + {nodes[current].pos}
    ensures OpenOk(nodes, open', closed') && current !in open'
    ensures forall m :: InOpen(nodes, open, m) && m != nodes[current].pos ==> InOpen(nodes, open', m)
  {
    lowest := Lowest(nodes, open);
    current := open[lowest];
    open' := open[..lowest] + open[lowest + 1..];
    closed' := closed + {nodes[current].pos};
    SpliceKeepsOpen(nodes, open, closed, lowest);
  }

  /** Splicing entry `l` out of the open list and closing its cell keeps the
      rest of the list well formed and open. */
  lemma SpliceKeepsOpen(nodes: seq<Node>, open: seq<nat>, closed: set<Coord>, l: nat)
    requires OpenOk(nodes, open, closed) && l < |open|
    ensures var open' := open[..l] + open[l + 1..];
            var pos := nodes[open[l]].pos;
            && OpenOk(nodes, open', closed + {pos}) && open[l] !in open'
            && forall m :: InOpen(nodes, open, m) && m != pos ==> InOpen(nodes, open', m)
  {
    var open' := open[..l] + open[l + 1..];
    var pos := nodes[open[l]].pos;
    assert forall k :: 0 <= k < |open'| ==> open'[k] == open[if k < l then k else k + 1];
    forall m | InOpen(nodes, open, m) && m != pos
      ensures InOpen(nodes, open', m)
    {
      var k :| 0 <= k < |open| && open[k] < |nodes| && nodes[open[k]].pos == m;
      if k < l {
        assert open'[k] == open[k];
      } else {
        assert open'[k - 1] == open[k];
      }
    }
  }

  /** Closing the popped cell keeps every other closed cell expanded. */
  lemma PopKeepsFrontier(overlay: map<Coord, int>, terrain: Terrain, nodes: seq<Node>, open: seq<nat>,
                         closed: set<Coord>, open': seq<nat>, pos: Coord)
    requires Frontier(overlay, terrain, nodes, open, closed)
    requires forall m :: InOpen(nodes, open, m) && m != pos ==> InOpen(nodes, open', m)
    ensures forall c :: c in closed + {pos} && c != pos ==>
              Expanded(overlay, terrain, nodes, open', closed + {pos}, c, |NEIGHBOURS|)
  {
    forall c | c in closed + {pos} && c != pos
      ensures Expanded(overlay, terrain, nodes, open', closed + {pos}, c, |NEIGHBOURS|)
    {
      assert Expanded(overlay, terrain, nodes, open, closed, c, |NEIGHBOURS|);
    }
  }

  /** The search invariant over nodes and the open list. */
  predicate Searching(overlay: map<Coord, int>, terrain: Terrain, nodes: seq<Node>, open: seq<nat>,
                      closed: set<Coord>, start: Coord, end: Coord)
  {
    && Shaped(nodes, start) && Legal(overlay, terrain, nodes) && Scored(nodes, end)
    && OpenOk(nodes, open, closed)
  }

  /** What relaxing may do to the search state: keep the current node and
      every cell, lower costs, append nodes one step beyond the current node,
      and keep every open cell open. */
  ghost predicate Grew(nodes: seq<Node>, open: seq<nat>, nodes': seq<Node>, open': seq<nat>, current: nat)
    requires current < |nodes|
  {
    && |nodes'| >= |nodes| && nodes'[current] == nodes[current] && current !in open'
    && (forall i :: 0 <= i < |nodes| ==> nodes'[i].pos == nodes[i].pos && nodes'[i].g <= nodes[i].g)
    && (forall i :: |nodes| <= i < |nodes'| ==> nodes'[i].g == nodes[current].g + 1)
    && (forall m :: InOpen(nodes, open, m) ==> InOpen(nodes', open', m))
  }

  /** Some open node stands at cell `n` at cost at most `g`. */
  predicate OpenAtMost(nodes: seq<Node>, open: seq<nat>, n: Coord, g: int)
  {
    exists k :: 0 <= k < |open| && open[k] < |nodes| && nodes[open[k]].pos == n && nodes[open[k]].g <= g
  }

  /** One direction `d` out of the current node: skip a closed or blocked
      cell; otherwise relax the cell beyond. */
  method Relax(overlay: map<Coord, int>, terrain: Terrain, nodes: seq<Node>, open: seq<nat>,
               closed: set<Coord>, current: nat, d: Coord, end: Coord, ghost start: Coord)
    returns (nodes': seq<Node>, open': seq<nat>)
    requires Searching(overlay, terrain, nodes, open, closed, start, end)
    requires current < |nodes| && current !in open && IsDirection(d)
    ensures Searching(overlay, terrain, nodes', open', closed, start, end)
    ensures Grew(nodes, open, nodes', open', current)
    ensures var n := Plus(nodes[current].pos, d);
            n !in closed && Walkable(overlay, terrain, n, d.1) ==> OpenAtMost(nodes', open', n, nodes[current].g + 1)
  {
    nodes', open' := nodes, open;
    var n := Plus(nodes[current].pos, d);
    if n in closed {
      return;
    }
    var walkable := CanEnter(overlay, terrain, n, d.1);
    if !walkable {
      return;
    }
    nodes', open' := Improve(overlay, terrain, nodes, open, closed, current, n, end, start);
  }

  /** Open a node at `n`, or give the open node there the cheaper route
      through the current node. */
  method Improve(overlay: map<Coord, int>, terrain: Terrain, nodes: seq<Node>, open: seq<nat>,
                 closed: set<Coord>, current: nat, n: Coord, end: Coord, ghost start: Coord)
    returns (nodes': seq<Node>, open': seq<nat>)
    requires Searching(overlay, terrain, nodes, open, closed, start, end)
    requires current < |nodes| && current !in open && n !in closed
    requires Moved(overlay, terrain, nodes[current].pos, n)
    ensures Searching(overlay, terrain, nodes', open', closed, start, end)
    ensures Grew(nodes, open, nodes', open', current)
    ensures OpenAtMost(nodes', open', n, nodes[current].g + 1)
  {
    nodes', open' := nodes, open;
    var gCost := nodes[current].g + 1;
    var j := FindOpen(nodes, open, n, 0);
    if j == -1 || gCost < nodes[open[j]].g {
      var hCost := Manhattan(ToPoint(n), ToPoint(end));
      var fCost := gCost as real + hCost;
      if j != -1 {
        var e := nodes[open[j]];
        nodes' := nodes[open[j] := Node(e.pos, gCost, e.h, fCost, current)];
        UpdateKeepsSearching(overlay, terrain, nodes, open, closed, current, j, start, end, nodes');
      } else {
        nodes' := nodes + [Node(n, gCost, hCost, fCost, current)];
        open' := open + [|nodes|];
        PushKeepsSearching(overlay, terrain, nodes, open, closed, current, n, start, end, nodes', open');
      }
    } else {
      assert nodes'[open'[j]].pos == n;
    }
  }

  /** The walkability test for a neighbour cell `n` entered with vertical
      component `dy`, one of -1, 0 and 1. */
  method CanEnter(overlay: map<Coord, int>, terrain: Terrain, n: Coord, dy: int) returns (ok: bool)
    requires -1 <= dy <= 1
    ensures ok <==> Walkable(overlay, terrain, n, dy)
  {
    var isGroundSolid := SolidForPath(overlay, terrain, Plus(n, DOWN));
    var isBodyClear := !SolidForPath(overlay, terrain, n);
    var isHeadClear := !SolidForPath(overlay, terrain, Plus(n, UP));
    if !isBodyClear || !isHeadClear {
      return false;
    }
    if dy == -1 && !isGroundSolid {
      return false;
    }
    if dy == 0 && !isGroundSolid {
      return false;
    }
    return true;
  }

  /** Giving an open node the route through the current node keeps the search invariant. */
  lemma UpdateKeepsSearching(overlay: map<Coord, int>, terrain: Terrain, nodes: seq<Node>, open: seq<nat>,
                             closed: set<Coord>, current: nat, j: nat, start: Coord, end: Coord, nodes': seq<Node>)
    requires Searching(overlay, terrain, nodes, open, closed, start, end)
    requires current < |nodes| && current !in open && j < |open|
    requires Moved(overlay, terrain, nodes[current].pos, nodes[open[j]].pos)
    requires nodes[current].g + 1 < nodes[open[j]].g
    requires var e := nodes[open[j]];
             var g := nodes[current].g + 1;
             nodes' == nodes[open[j] := Node(e.pos, g, e.h, g as real + Manhattan(ToPoint(e.pos), ToPoint(end)), current)]
    ensures Searching(overlay, terrain, nodes', open, closed, start, end)
    ensures Grew(nodes, open, nodes', open, current)
    ensures OpenAtMost(nodes', open, nodes[open[j]].pos, nodes[current].g + 1)
  {
    var e := open[j];
    var g := nodes[current].g + 1;
    assert e != 0 && e != current;
    forall i: nat | 0 < i < |nodes'|
      ensures Linked(nodes', i) && Stepped(overlay, terrain, nodes', i)
    {
      assert Linked(nodes, i) && Stepped(overlay, terrain, nodes, i);
      if i != e {
        assert nodes[i].parent != open[j];
      }
    }
    forall i: nat | i < |nodes'|
      ensures ScoreOk(nodes', end, i)
    {
      assert ScoreOk(nodes, end, i);
    }
    assert forall i :: 0 <= i < |nodes| ==> nodes'[i].pos == nodes[i].pos && (i != e ==> nodes'[i].parent == nodes[i].parent);
    forall m | InOpen(nodes, open, m)
      ensures InOpen(nodes', open, m)
    {
      var k :| 0 <= k < |open| && open[k] < |nodes| && nodes[open[k]].pos == m;
      assert nodes'[open[k]].pos == m;
    }
    assert nodes'[open[j]].g == g;
  }

  /** Opening a new node at a cell no open node holds keeps the search invariant. */
  lemma PushKeepsSearching(overlay: map<Coord, int>, terrain: Terrain, nodes: seq<Node>, open: seq<nat>,
                           closed: set<Coord>, current: nat, n: Coord, start: Coord, end: Coord,
                           nodes': seq<Node>, open': seq<nat>)
    requires Searching(overlay, terrain, nodes, open, closed, start, end)
    requires current < |nodes| && current !in open && n !in closed
    requires Moved(overlay, terrain, nodes[current].pos, n)
    requires forall k :: 0 <= k < |open| ==> nodes[open[k]].pos != n
    requires var g := nodes[current].g + 1;
             var h := Manhattan(ToPoint(n), ToPoint(end));
             nodes' == nodes + [Node(n, g, h, g as real + h, current)] && open' == open + [|nodes|]
    ensures Searching(overlay, terrain, nodes', open', closed, start, end)
    ensures Grew(nodes, open, nodes', open', current)
    ensures OpenAtMost(nodes', open', n, nodes[current].g + 1)
  {
    var g := nodes[current].g + 1;
    var h := Manhattan(ToPoint(n), ToPoint(end));
    forall i: nat | 0 < i < |nodes|
      ensures Linked(nodes', i) && Stepped(overlay, terrain, nodes', i)
    {
      assert Linked(nodes, i) && Stepped(overlay, terrain, nodes, i);
    }
    assert Linked(nodes', |nodes|) && Stepped(overlay, terrain, nodes', |nodes|);
    forall i: nat | i < |nodes'|
      ensures ScoreOk(nodes', end, i)
    {
      if i < |nodes| {
        assert ScoreOk(nodes, end, i);
      }
    }
    forall i, k | 0 <= i < |nodes'| && 0 <= k < |open'|
      ensures nodes'[i].parent != open'[k]
    {
      if i < |nodes| {
        if i > 0 {
          assert Linked(nodes, i);
        }
        if k < |open| {
          assert open'[k] == open[k];
        }
      }
    }
    forall m | InOpen(nodes, open, m)
      ensures InOpen(nodes', open', m)
    {
      var k :| 0 <= k < |open| && open[k] < |nodes| && nodes[open[k]].pos == m;
      assert open'[k] == open[k] && nodes'[open[k]] == nodes[open[k]];
    }
    assert open'[|open|] == |nodes| && nodes'[|nodes|].pos == n;
  }

  /** `findPath`: at most `maxSteps` rounds; each takes the open node of
      least `f`, closes its cell, answers with its lineage if it is within
      reach of the rounded end, and otherwise relaxes its six neighbours. */
  method FindPath(overlay: map<Coord, int>, terrain: Terrain, start: Point, end: Point, maxSteps: int)
    returns (path: Option<seq<Coord>>, ghost steps: nat)
    ensures steps == 0 || steps <= maxSteps
    ensures maxSteps <= 0 ==> path.None?
    ensures 1 <= maxSteps && InReach(Rounded(start), Rounded(end)) ==> path == Some([Rounded(start)])
    ensures path.Some? ==>
              var p := path.value;
              && 1 <= |p|
              && p[0] == Rounded(start)
              && InReach(p[|p| - 1], Rounded(end))
              && IsWalk(overlay, terrain, p)
    ensures path.Some? ==> |path.value| <= steps
    ensures path.None? && steps < maxSteps ==>
              forall w :: IsWalk(overlay, terrain, w) && |w| > 0 && w[0] == Rounded(start) ==>
                !InReach(w[|w| - 1], Rounded(end))
  {
    var startPos := Rounded(start);
    var endPos := Rounded(end);
    var h0 := Manhattan(start, end);
    var nodes := [Node(startPos, 0, h0, h0, -1)];
    var open: seq<nat> := [0];
    var closed: set<Coord> := {};
    var count := 0;
    while |open| > 0 && count < maxSteps
      invariant Searching(overlay, terrain, nodes, open, closed, startPos, endPos)
      invariant Frontier(overlay, terrain, nodes, open, closed)
      invariant forall i :: 0 <= i < |nodes| ==> nodes[i].g <= count
      invariant forall c :: c in closed ==> !InReach(c, endPos)
      invariant count == 0 ==> open == [0]
      invariant count > 0 ==> startPos in closed
      invariant count == 0 || count <= maxSteps
      decreases maxSteps - count
    {
      count := count + 1;
      var current, open', closed', lowest := Pop(nodes, open, closed);
      PopKeepsFrontier(overlay, terrain, nodes, open, closed, open', nodes[current].pos);
      open, closed := open', closed';
      if InReach(nodes[current].pos, endPos) {
        var p := Trace(nodes, startPos, current);
        LineageIsWalk(overlay, terrain, nodes, startPos, current);
        return Some(p), count;
      }
      nodes, open := Expand(overlay, terrain, nodes, open, closed, current, endPos, startPos, count);
    }
    path, steps := None, count;
    if steps < maxSteps {
      assert Enclosed(overlay, terrain, closed) by {
        forall c, k | c in closed && 0 <= k < |NEIGHBOURS| &&
                      Walkable(overlay, terrain, Plus(c, NEIGHBOURS[k]), NEIGHBOURS[k].1)
          ensures Plus(c, NEIGHBOURS[k]) in closed
        {
          assert Expanded(overlay, terrain, nodes, open, closed, c, |NEIGHBOURS|);
        }
      }
      forall w | IsWalk(overlay, terrain, w) && |w| > 0 && w[0] == startPos
        ensures !InReach(w[|w| - 1], endPos)
      {
        WalkStaysInside(overlay, terrain, closed, w);
      }
    }
  }

  /** Relaxing all six directions out of the current node, in order. */
  method Expand(overlay: map<Coord, int>, terrain: Terrain, nodes: seq<Node>, open: seq<nat>,
                closed: set<Coord>, current: nat, end: Coord, ghost start: Coord, ghost steps: nat)
    returns (nodes': seq<Node>, open': seq<nat>)
    requires Searching(overlay, terrain, nodes, open, closed, start, end)
    requires current < |nodes| && current !in open && nodes[current].pos in closed
    requires forall i :: 0 <= i < |nodes| ==> nodes[i].g < steps
    requires forall c :: c in closed && c != nodes[current].pos ==>
               Expanded(overlay, terrain, nodes, open, closed, c, |NEIGHBOURS|)
    ensures Searching(overlay, terrain, nodes', open', closed, start, end)
    ensures Frontier(overlay, terrain, nodes', open', closed)
    ensures forall i :: 0 <= i < |nodes'| ==> nodes'[i].g <= steps
  {
    nodes', open' := nodes, open;
    var dir := 0;
    while dir < |NEIGHBOURS|
      invariant dir <= |NEIGHBOURS|
      invariant Searching(overlay, terrain, nodes', open', closed, start, end)
      invariant current < |nodes'| && current !in open' && nodes'[current] == nodes[current]
      invariant forall i :: 0 <= i < |nodes'| ==> nodes'[i].g <= steps
      invariant forall c :: c in closed && c != nodes[current].pos ==>
                  Expanded(overlay, terrain, nodes', open', closed, c, |NEIGHBOURS|)
      invariant Expanded(overlay, terrain, nodes', open', closed, nodes[current].pos, dir)
    {
      NeighboursAreUnitSteps(nodes[current].pos, nodes[current].pos);
      var nodes'', open'' := Relax(overlay, terrain, nodes', open', closed, current, NEIGHBOURS[dir], end, start);
      ExpandedGrows(overlay, terrain, nodes', open', nodes'', open'', closed, nodes[current].pos, dir);
      ExpandedNext(overlay, terrain, nodes'', open'', closed, nodes[current].pos, dir, nodes[current].g + 1);
      forall c | c in closed && c != nodes[current].pos
        ensures Expanded(overlay, terrain, nodes'', open'', closed, c, |NEIGHBOURS|)
      {
        ExpandedGrows(overlay, terrain, nodes', open', nodes'', open'', closed, c, |NEIGHBOURS|);
      }
      nodes', open' := nodes'', open'';
      dir := dir + 1;
    }
  }

  /** Once direction `dir` out of `c` leads to the closed set or an open
      node, one more direction is expanded. */
  lemma ExpandedNext(overlay: map<Coord, int>, terrain: Terrain, nodes: seq<Node>, open: seq<nat>,
                     closed: set<Coord>, c: Coord, dir: nat, g: int)
    requires dir < |NEIGHBOURS| && Expanded(overlay, terrain, nodes, open, closed, c, dir)
    requires var n := Plus(c, NEIGHBOURS[dir]);
             n !in closed && Walkable(overlay, terrain, n, NEIGHBOURS[dir].1) ==> OpenAtMost(nodes, open, n, g)
    ensures Expanded(overlay, terrain, nodes, open, closed, c, dir + 1)
  {
  }

  /** Open cells only accumulate, so an expansion once recorded stays recorded. */
  lemma ExpandedGrows(overlay: map<Coord, int>, terrain: Terrain, nodes: seq<Node>, open: seq<nat>,
                      nodes': seq<Node>, open': seq<nat>, closed: set<Coord>, c: Coord, upTo: nat)
    requires Expanded(overlay, terrain, nodes, open, closed, c, upTo)
    requires forall m :: InOpen(nodes, open, m) ==> InOpen(nodes', open', m)
    ensures Expanded(overlay, terrain, nodes', open', closed, c, upTo)
  {
  }
}
