/** Shared vocabulary: the optional value, integer block coordinates, and the
    JavaScript number operations the game relies on, stated over exact reals. */
module Common {

  datatype Option<T> = None | Some(value: T)

  /** An integer block coordinate (x, y, z); the game's string keys "x,y,z". */
  type Coord = (int, int, int)

  /** A point in the world (`THREE.Vector3`). */
  datatype Point = Point(x: real, y: real, z: real)

  /** `multiplyScalar`. */
  function Scale(p: Point, k: real): Point
  {
    Point(p.x * k, p.y * k, p.z * k)
  }

  /** `add`. */
  function Sum(a: Point, b: Point): Point
  {
    Point(a.x + b.x, a.y + b.y, a.z + b.z)
  }

  /** `distanceToSquared`. */
  function DistSq(a: Point, b: Point): (d: real)
    ensures d >= 0.0
  {
    (a.x - b.x) * (a.x - b.x) + (a.y - b.y) * (a.y - b.y) + (a.z - b.z) * (a.z - b.z)
  }

  /** A chunk key "cx,cz". */
  type ChunkKey = (int, int)

  /** `Math.sin`, which the game uses as a hash; left uninterpreted. */
  const Sin: real -> real

  function Abs(x: int): (r: nat)
    ensures r == x || r == -x
  {
    if x < 0 then -x else x
  }

  function AbsR(x: real): (r: real)
    ensures r >= 0.0 && (r == x || r == -x)
  {
    if x < 0.0 then -x else x
  }

  function MaxR(a: real, b: real): (r: real)
    ensures r >= a && r >= b && (r == a || r == b)
  {
    if a >= b then a else b
  }

  function MinR(a: real, b: real): (r: real)
    ensures r <= a && r <= b && (r == a || r == b)
  {
    if a <= b then a else b
  }

  function Min(a: int, b: int): (m: int)
    ensures m <= a && m <= b && (m == a || m == b)
  {
    if a <= b then a else b
  }

  /** `Math.floor`. */
  function Floor(r: real): (n: int)
    ensures n as real <= r < n as real + 1.0
  {
    r.Floor
  }

  /** `Math.ceil`. */
  function Ceil(r: real): (n: int)
    ensures n as real - 1.0 < r <= n as real
  {
    -((-r).Floor)
  }

  /** `Math.round`: the nearest integer, halves rounded up. */
  function Round(r: real): (n: int)
    ensures n as real - 0.5 <= r < n as real + 0.5
  {
    (r + 0.5).Floor
  }

  /** `r % 1` for a non-negative `r`, and `r - Math.floor(r)` for any `r`. */
  function Frac(r: real): (f: real)
    ensures 0.0 <= f < 1.0
    ensures (r - f).Floor as real == r - f
  {
    r - r.Floor as real
  }

  /** `Math.floor(x / CHUNK_SIZE)` on an integer coordinate. */
  function FloorDiv(x: int, d: int): (q: int)
    requires d > 0
    ensures q * d <= x < q * d + d
  {
    x / d
  }

  /** A rounded integer rounds to itself. */
  lemma RoundOfInt(n: int)
    ensures Round(n as real) == n
  {
  }

  /** A JavaScript `Set` iterated in insertion order: a sequence without repeats. */
  ghost predicate NoDup<T>(s: seq<T>)
  {
    forall i, j :: 0 <= i < j < |s| ==> s[i] != s[j]
  }

  /** `Set.add`: appends only what is not there yet. */
  function Add<T(==)>(s: seq<T>, x: T): (r: seq<T>)
    ensures x in r && (r == s || r == s + [x])
    ensures x in s ==> r == s
  {
    if x in s then s else s + [x]
  }

  lemma AddKeepsNoDup<T>(s: seq<T>, x: T)
    requires NoDup(s)
    ensures NoDup(Add(s, x))
  {
  }
}
