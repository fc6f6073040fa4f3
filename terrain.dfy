/** The visible chunks: when the player enters another chunk or the render
    distance changes, the chunks within that many chunks of the player's
    are listed again; each listed chunk is then drawn unless its centre is
    too far from the camera. */
module TerrainView {
  import opened Common
  import opened Config

  const CULLING_DISTANCE_FACTOR := 1.2

  /** Offset (x, z) lies in the disc of radius `r` that the nested loop
      enumerates. */
  predicate InDisc(r: int, x: int, z: int)
  {
    -r <= x <= r && -r <= z <= r && x * x + z * z <= r * r
  }

  /** `a` comes before `b` in the loop's order: by x, then by z. */
  predicate Before(a: ChunkKey, b: ChunkKey)
  {
    a.0 < b.0 || (a.0 == b.0 && a.1 < b.1)
  }

  predicate Increasing(s: seq<ChunkKey>)
  {
    forall i, j :: 0 <= i < j < |s| ==> Before(s[i], s[j])
  }

  /** `chunks` lists the disc of radius `r` around chunk (cx, cz), each
      chunk once, in the loop's order. */
  ghost predicate IsDisc(chunks: seq<ChunkKey>, cx: int, cz: int, r: int)
  {
    Increasing(chunks) && forall c :: c in chunks <==> InDisc(r, c.0 - cx, c.1 - cz)
  }

  /** The nested loop that lists the visible chunks. */
  method VisibleChunks(cx: int, cz: int, r: int) returns (chunks: seq<ChunkKey>)
    ensures IsDisc(chunks, cx, cz, r) && NoDup(chunks)
  {
    chunks := [];
    var x := -r;
    while x <= r
      invariant -r <= x && (x <= r + 1 || x == -r)
      invariant Increasing(chunks)
      invariant forall c :: c in chunks ==> c.0 - cx < x
      invariant forall c :: c in chunks <==> InDisc(r, c.0 - cx, c.1 - cz) && c.0 - cx < x
    {
      var z := -r;
      while z <= r
        invariant -r <= z <= r + 1
        invariant Increasing(chunks)
        invariant forall c :: c in chunks ==> Before(c, (cx + x, cz + z))
        invariant forall c :: c in chunks <==>
                    InDisc(r, c.0 - cx, c.1 - cz) && (c.0 - cx < x || (c.0 - cx == x && c.1 - cz < z))
      {
        if x * x + z * z <= r * r {
          chunks := chunks + [(cx + x, cz + z)];
        }
        z := z + 1;
      }
      x := x + 1;
    }
    IncreasingNoDup(chunks);
  }

  lemma IncreasingNoDup(s: seq<ChunkKey>)
    requires Increasing(s)
    ensures NoDup(s)
  {
  }

  /** The disc's order and contents determine the list: two lists of the
      same chunks, both in the loop's order, are the same list. */
  lemma {:induction false} IncreasingUnique(a: seq<ChunkKey>, b: seq<ChunkKey>)
    requires Increasing(a) && Increasing(b)
    requires forall c :: c in a <==> c in b
    ensures a == b
    decreases |a|
  {
    if |a| > 0 || |b| > 0 {
      var x := if |a| > 0 then a[|a| - 1] else b[|b| - 1];
      assert x in a && x in b;
      var la, lb := a[|a| - 1], b[|b| - 1];
      assert la == lb by {
        assert la in a && lb in b;
        var i :| 0 <= i < |b| && b[i] == la;
        var j :| 0 <= j < |a| && a[j] == lb;
        if i < |b| - 1 { assert Before(la, lb); }
        if j < |a| - 1 { assert Before(lb, la); }
      }
      var a', b' := a[..|a| - 1], b[..|b| - 1];
      forall c
        ensures c in a' <==> c in b'
      {
        if c in a' {
          var i :| 0 <= i < |a'| && a'[i] == c;
          assert Before(c, la);
          assert c in b;
        }
        if c in b' {
          var i :| 0 <= i < |b'| && b'[i] == c;
          assert Before(c, lb);
          assert c in a;
        }
      }
      IncreasingUnique(a', b');
      assert a == a' + [la] && b == b' + [lb];
    }
  }

  /** The player's own chunk is always listed for a non-negative distance. */
  lemma OwnChunkListed(chunks: seq<ChunkKey>, cx: int, cz: int, r: int)
    requires IsDisc(chunks, cx, cz, r) && r >= 0
    ensures (cx, cz) in chunks
  {
    assert InDisc(r, 0, 0);
  }

  /** The disc is symmetric under negating either offset. */
  lemma DiscSymmetric(r: int, x: int, z: int)
    ensures InDisc(r, x, z) <==> InDisc(r, -x, z)
    ensures InDisc(r, x, z) <==> InDisc(r, x, -z)
  {
  }

  /** For a non-negative distance the square bound on the loop is implied
      by the circle test: a chunk is listed exactly when x² + z² ≤ r². */
  lemma CircleImpliesSquare(r: int, x: int, z: int)
    requires r >= 0
    ensures InDisc(r, x, z) <==> x * x + z * z <= r * r
  {
    assert x * x >= 0 && z * z >= 0;
    if x > r || x < -r {
      SquareGrows(r, x);
    }
    if z > r || z < -r {
      SquareGrows(r, z);
    }
  }

  lemma SquareGrows(r: int, x: int)
    requires r >= 0 && (x > r || x < -r)
    ensures x * x > r * r
  {
    var a := Abs(x);
    assert x * x == a * a;
    assert a * a - r * r == (a - r) * (a + r);
    assert (a - r) * (a + r) > 0;
  }

  // ------------------------------------------------------------- culling

  /** The centre of chunk `key` at the camera's height. */
  function ChunkCentre(key: ChunkKey, camera: Point): Point
  {
    Point((key.0 * CHUNK_SIZE) as real + CHUNK_SIZE as real / 2.0, camera.y,
          (key.1 * CHUNK_SIZE) as real + CHUNK_SIZE as real / 2.0)
  }

  /** The squared culling distance, (r · CHUNK_SIZE · 1.2)². */
  function MaxDistSq(r: int): (d: real)
    ensures d >= 0.0
  {
    var maxDist := (r * CHUNK_SIZE) as real * CULLING_DISTANCE_FACTOR;
    maxDist * maxDist
  }

  predicate Culled(key: ChunkKey, camera: Point, r: int)
  {
    DistSq(camera, ChunkCentre(key, camera)) > MaxDistSq(r)
  }

  /** The chunks that are drawn, in list order. */
  function Drawn(visible: seq<ChunkKey>, camera: Point, r: int): seq<ChunkKey>
  {
    if |visible| == 0 then []
    else
      var rest := Drawn(visible[..|visible| - 1], camera, r);
      var key := visible[|visible| - 1];
      if Culled(key, camera, r) then rest else rest + [key]
  }

  /** Exactly the listed chunks whose centre is near enough are drawn, in
      the list's order. */
  lemma {:induction false} DrawnMeaning(visible: seq<ChunkKey>, camera: Point, r: int)
    ensures var d := Drawn(visible, camera, r);
            && (forall c :: c in d <==> c in visible && !Culled(c, camera, r))
            && (Increasing(visible) ==> Increasing(d))
    decreases |visible|
  {
    if |visible| > 0 {
      var init := visible[..|visible| - 1];
      var key := visible[|visible| - 1];
      DrawnMeaning(init, camera, r);
      assert visible == init + [key];
      var rest := Drawn(init, camera, r);
      if Increasing(visible) && !Culled(key, camera, r) {
        forall i, j | 0 <= i < j < |rest| + 1
          ensures Before((rest + [key])[i], (rest + [key])[j])
        {
          if j == |rest| {
            assert rest[i] in init;
            var k :| 0 <= k < |init| && init[k] == rest[i];
            assert visible[k] == rest[i];
          }
        }
      }
    }
  }

  /** A camera inside chunk (cx, cz) always draws that chunk when the render
      distance is at least one: its centre is at most half a chunk away on
      each axis. */
  lemma OwnChunkDrawn(camera: Point, r: int)
    requires r >= 1
    ensures !Culled((Floor(camera.x / CHUNK_SIZE as real), Floor(camera.z / CHUNK_SIZE as real)), camera, r)
  {
    var s := CHUNK_SIZE as real;
    var key := (Floor(camera.x / s), Floor(camera.z / s));
    var centre := ChunkCentre(key, camera);
    HalfChunk(camera.x, CHUNK_SIZE);
    HalfChunk(camera.z, CHUNK_SIZE);
    CullingReachesHalfChunks(r);
    var dx, dz := camera.x - centre.x, camera.z - centre.z;
    InsideBound(dx, dz, s / 2.0, MaxDistSq(r));
    assert DistSq(camera, centre) == dx * dx + dz * dz;
  }

  /** Offsets of at most h on two axes stay under any bound above 2h². */
  lemma InsideBound(dx: real, dz: real, h: real, m: real)
    requires h >= 0.0 && -h <= dx <= h && -h <= dz <= h && m > h * h + h * h
    ensures dx * dx + dz * dz < m
  {
    SquareOfBounded(dx, h);
    SquareOfBounded(dz, h);
  }

  /** The culling distance covers two half chunks squared. */
  lemma CullingReachesHalfChunks(r: int)
    requires r >= 1
    ensures var h := CHUNK_SIZE as real / 2.0; MaxDistSq(r) > h * h + h * h
  {
    var s := CHUNK_SIZE as real;
    var m := (r * CHUNK_SIZE) as real;
    assert m >= s by {
      assert r * CHUNK_SIZE >= CHUNK_SIZE;
    }
    var maxDist := m * CULLING_DISTANCE_FACTOR;
    assert MaxDistSq(r) == maxDist * maxDist;
    SquareOfBounded(s * 1.2, maxDist);
    var h := s / 2.0;
    var ss := s * s;
    assert (s * 1.2) * (s * 1.2) == 1.44 * ss;
    assert h * h + h * h == 0.5 * ss;
    assert ss > 0.0;
  }

  /** A coordinate is within half a chunk of the centre of its own chunk. */
  lemma HalfChunk(p: real, n: int)
    requires n >= 1
    ensures var c := (Floor(p / n as real) * n) as real + n as real / 2.0;
            -(n as real / 2.0) <= p - c <= n as real / 2.0
  {
    var s := n as real;
    var q := Floor(p / s);
    var c := (q * n) as real + s / 2.0;
    assert (q * n) as real == q as real * s;
    var below := p - q as real * s;
    WithinOneStep(p, s, q);
    assert p - c == below - s / 2.0;
  }

  /** `p` lies in the step of length `s` that `Math.floor(p / s)` names. */
  lemma WithinOneStep(p: real, s: real, q: int)
    requires s > 0.0 && q == Floor(p / s)
    ensures 0.0 <= p - q as real * s < s
  {
    var f := p / s - q as real;
    assert 0.0 <= f < 1.0;
    assert p == (p / s) * s;
    assert p - q as real * s == f * s;
    assert f * s < 1.0 * s;
  }

  lemma SquareOfBounded(d: real, h: real)
    requires h >= 0.0 && -h <= d <= h
    ensures d * d <= h * h
  {
    if d >= 0.0 {
      assert d * d <= d * h <= h * h;
    } else {
      assert d * d == (-d) * (-d) <= (-d) * h <= h * h;
    }
  }

  // --------------------------------------------------------------- state

  /** The component's state: the chunk and distance the list was built for,
      and the list. */
  class ChunkList {
    var current: Option<(int, int, int)>
    var visible: seq<ChunkKey>

    constructor()
      ensures current == None && visible == []
    {
      current, visible := None, [];
    }

    /** One frame: without a player position nothing happens; otherwise the
        list is rebuilt exactly when the player's chunk or the render
        distance differs from the ones it was built for. */
    method Frame(player: Option<Point>, renderDistance: int) returns (recomputed: bool)
      modifies this
      ensures player.None? ==> !recomputed
      ensures !recomputed ==> current == old(current) && visible == old(visible)
      ensures player.Some? ==>
                var at := (Floor(player.value.x / CHUNK_SIZE as real), Floor(player.value.z / CHUNK_SIZE as real), renderDistance);
                && (recomputed <==> old(current) != Some(at))
                && current == Some(at)
                && (recomputed ==> IsDisc(visible, at.0, at.1, renderDistance))
    {
      recomputed := false;
      if player.None? {
        return;
      }
      var chunkX := Floor(player.value.x / CHUNK_SIZE as real);
      var chunkZ := Floor(player.value.z / CHUNK_SIZE as real);
      if current.None? || current.value.0 != chunkX || current.value.1 != chunkZ || current.value.2 != renderDistance {
        current := Some((chunkX, chunkZ, renderDistance));
        var newChunks := VisibleChunks(chunkX, chunkZ, renderDistance);
        visible := newChunks;
        recomputed := true;
      }
    }
  }
}
