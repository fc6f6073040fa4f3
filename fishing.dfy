/** Fishing: the rod is cast, the bobber flies until it drops below the
    water level, a bite comes three to eight seconds later and lasts a
    second and a half, and reeling in during a bite catches a fish.
    Every check in a frame reads the state the frame began with. */
module FishingSystem {
  import opened Common
  import opened Config

  datatype FishState = Idle | Cast | Waiting | Biting

  const GRAVITY := 25.0
  const DRAG := 0.98
  const MAX_DT := 0.1
  const BUOYANCY := 15.0
  const WATER_DRAG := 0.9
  const SPLASH_DAMPING := 0.2
  const BITE_LENGTH := 1.5

  /** When the next bite is due, for a `Math.random` draw `roll`. */
  function NextBite(time: real, roll: real): (t: real)
    ensures 0.0 <= roll < 1.0 ==> time + 3.0 <= t < time + 8.0
  {
    time + 3.0 + roll * 5.0
  }

  /** Where the state goes in a frame that began in state `s`, given
      whether the bobber is under the water level after its flight and
      when the pending bite is due. */
  function NextState(s: FishState, submerged: bool, time: real, biteStart: real): FishState
  {
    match s
    case Idle => Idle
    case Cast => if submerged then Waiting else Cast
    case Waiting => if time > biteStart then Biting else Waiting
    case Biting => if time > biteStart then Waiting else Biting
  }

  /** A frame never puts the rod away, never casts again, and only these
      moves happen: a cast lands in the water, a bite starts when it is due,
      and a bite ends when its time is up. */
  lemma FrameMoves(s: FishState, submerged: bool, time: real, biteStart: real)
    ensures var n := NextState(s, submerged, time, biteStart);
            && (n == Idle <==> s == Idle)
            && (n == Cast ==> s == Cast)
            && (s == Cast && n == Waiting <==> s == Cast && submerged)
            && (n == Biting && s != Biting <==> s == Waiting && time > biteStart)
            && (s == Biting && n == Waiting <==> s == Biting && time > biteStart)
  {
  }

  /** The reel button: from idle it casts, from any other state it reels
      in; a fish is caught exactly when reeling in during a bite. */
  function AfterTrigger(s: FishState): (r: (FishState, bool))
    ensures (r.0 == Cast <==> s == Idle) && (r.0 == Idle <==> s != Idle)
    ensures r.1 <==> s == Biting
  {
    if s == Idle then (Cast, false) else (Idle, s == Biting)
  }

  /** The bobber after gravity, drag and one step of flight. */
  function Flight(pos: Point, vel: Point, dt: real): (Point, Point)
  {
    var v := Scale(Point(vel.x, vel.y - GRAVITY * dt, vel.z), DRAG);
    (Sum(pos, Scale(v, dt)), v)
  }

  /** The flight step of a frame. */
  method Fly(pos: Point, vel: Point, dt: real) returns (p: Point, v: Point)
    ensures (p, v) == Flight(pos, vel, dt)
  {
    v := vel.(y := vel.y - GRAVITY * dt);
    v := Scale(v, DRAG);
    p := Sum(pos, Scale(v, dt));
  }

  /** Under water the bobber is pushed up in proportion to its depth and
      slowed. */
  function Buoyed(pos: Point, vel: Point, dt: real): (v: Point)
    ensures pos.y < WATER_LEVEL as real && dt > 0.0 ==> v.y > vel.y * WATER_DRAG
  {
    var depth := WATER_LEVEL as real - pos.y;
    Scale(vel.(y := vel.y + depth * BUOYANCY * dt), WATER_DRAG)
  }

  /** During a bite the bobber bobs around 0.3 below the water level and
      twitches sideways by up to 0.025. */
  function Jittered(time: real, pos: Point, jitterX: real, jitterZ: real): (p: Point)
    ensures p.y == WATER_LEVEL as real - 0.3 + Sin(time * 20.0) * 0.1
    ensures 0.0 <= jitterX < 1.0 ==> AbsR(p.x - pos.x) <= 0.025
    ensures 0.0 <= jitterZ < 1.0 ==> AbsR(p.z - pos.z) <= 0.025
  {
    Point(pos.x + (jitterX - 0.5) * 0.05, WATER_LEVEL as real - 0.3 + Sin(time * 20.0) * 0.1,
          pos.z + (jitterZ - 0.5) * 0.05)
  }

  /** The fisher's state. `scheduledAt` and `lastTime` are the clock when
      the pending bite time was set and at the last frame. */
  class Fishing {
    var state: FishState
    var bobberPos: Point
    var bobberVel: Point
    var rodTipPos: Point
    var biteStartTime: real
    ghost var scheduledAt: real
    ghost var lastTime: real

    /** While waiting, the bite is due three to eight seconds after it was
        scheduled; while biting, the bite ends a second and a half after it
        began; in both, that time has not yet passed at the last frame. */
    ghost predicate Valid()
      reads this
    {
      && (state == Waiting ==> scheduledAt + 3.0 <= biteStartTime < scheduledAt + 8.0)
      && (state == Biting ==> biteStartTime == scheduledAt + BITE_LENGTH)
      && (state == Waiting || state == Biting ==> lastTime <= biteStartTime)
    }

    constructor()
      ensures state == Idle && Valid()
      ensures bobberPos == Point(0.0, 0.0, 0.0) && bobberVel == Point(0.0, 0.0, 0.0)
      ensures rodTipPos == Point(0.0, 0.0, 0.0) && biteStartTime == 0.0
    {
      state := Idle;
      bobberPos, bobberVel, rodTipPos := Point(0.0, 0.0, 0.0), Point(0.0, 0.0, 0.0), Point(0.0, 0.0, 0.0);
      biteStartTime := 0.0;
      scheduledAt, lastTime := 0.0, 0.0;
    }

    /** `trigger`: cast from idle, with the bobber thrown from 1.2 above the
        player along `forward` (the player's facing, unit length); otherwise
        reel in, reporting a catch when a fish was biting. */
    method Trigger(player: Point, forward: Point) returns (caught: bool)
      requires Valid()
      modifies this
      ensures (state, caught) == AfterTrigger(old(state))
      ensures old(state) == Idle ==>
                bobberPos == Sum(player, Point(0.0, 1.2, 0.0))
                && bobberVel == Sum(Scale(forward, 12.0), Point(0.0, 4.0, 0.0))
      ensures old(state) != Idle ==> bobberPos == old(bobberPos) && bobberVel == old(bobberVel)
      ensures rodTipPos == old(rodTipPos) && biteStartTime == old(biteStartTime)
      ensures Valid()
    {
      caught := false;
      if state == Idle {
        bobberPos := Sum(player, Point(0.0, 1.2, 0.0));
        bobberVel := Sum(Scale(forward, 12.0), Point(0.0, 4.0, 0.0));
        state := Cast;
      } else {
        if state == Biting {
          caught := true;
        }
        state := Idle;
      }
    }

    /** One frame at clock `time`. The rod tip follows the player; when the
        rod is out the bobber flies, floats once under water, and the bite
        timer runs. `roll`, `jitterX` and `jitterZ` are the frame's
        `Math.random` draws. */
    method Frame(delta: real, time: real, player: Point, tipOffset: Point,
                 roll: real, jitterX: real, jitterZ: real)
      requires Valid() && 0.0 <= roll < 1.0
      modifies this
      ensures rodTipPos == Sum(player, tipOffset)
      ensures old(state) == Idle ==>
                state == Idle && bobberPos == old(bobberPos) && bobberVel == old(bobberVel)
                && biteStartTime == old(biteStartTime)
      ensures old(state) != Idle ==>
                var flown := Flight(old(bobberPos), old(bobberVel), MinR(delta, MAX_DT));
                var submerged := flown.0.y < WATER_LEVEL as real;
                && state == NextState(old(state), submerged, time, old(biteStartTime))
                && (old(state) == Cast && state == Waiting ==> biteStartTime == NextBite(time, roll))
                && (old(state) == Waiting && state == Biting ==> biteStartTime == time + BITE_LENGTH)
                && (old(state) == Biting && state == Waiting ==> biteStartTime == NextBite(time, roll))
                && (state == old(state) ==> biteStartTime == old(biteStartTime))
                && (old(state) == Biting ==> bobberPos.y == WATER_LEVEL as real - 0.3 + Sin(time * 20.0) * 0.1)
      ensures Valid()
    {
      rodTipPos := Sum(player, tipOffset);
      if state == Idle {
        return;
      }
      var s := state;
      var dt := MinR(delta, MAX_DT);
      var pos, vel := Fly(bobberPos, bobberVel, dt);
      if pos.y < WATER_LEVEL as real {
        if s == Cast {
          state := Waiting;
          biteStartTime := NextBite(time, roll);
          scheduledAt := time;
          vel := Scale(vel, SPLASH_DAMPING);
        }
        vel := Buoyed(pos, vel, dt);
      }

      if s == Waiting {
        if pos.y <= WATER_LEVEL as real + 0.1 {
          pos := pos.(y := WATER_LEVEL as real - 0.1 + Sin(time * 3.0) * 0.05);
        }
        if time > biteStartTime {
          state := Biting;
          biteStartTime := time + BITE_LENGTH;
          scheduledAt := time;
        }
      }

      if s == Biting {
        pos := Jittered(time, pos, jitterX, jitterZ);
        if time > biteStartTime {
          state := Waiting;
          biteStartTime := NextBite(time, roll);
          scheduledAt := time;
        }
      }
      bobberPos, bobberVel := pos, vel;
      lastTime := time;
    }
  }
}
