/**
 * The planet-exploration view (planetExploration.js): the explorer walking,
 * jumping and flying over a planet's terrain. The class PlanetExploration
 * holds the state the source keeps on `this`: the terrain with its
 * rendering resolution, water and height limit, and the player's height,
 * angle, velocities, flags, walk animation and EVA fuel. The terrain's own
 * rules (features, smoothing, point counts) are in the Terrain module.
 */
module Exploration {
  import opened Numerics
  import opened Bodies
  import opened Collisions
  import opened Terrain

  /** The player's radius, jump speed and starting EVA fuel. */
  const PLAYER_RADIUS: real := 24.0
  const JUMP_POWER: real := 50.0
  const START_FUEL: real := 100.0
  /** Fuel one thruster uses in one frame. */
  const BURN: real := 0.01
  const MAX_ANGULAR_ACCELERATION: real := 0.001
  const ANGLE_DAMPING: real := 0.85
  const ANIMATION_SPEED: real := 0.1
  /** How far above the highest terrain point the player may fly. */
  const HEADROOM: real := 1000.0
  const HALF_PI: real := PI / 2.0
  /** A rise the player walks up freely, and one that stops them. */
  const WALK_LIMIT: real := PLAYER_RADIUS * 0.8
  const CLIMB_LIMIT: real := PLAYER_RADIUS * 1.5

  // ---------------------------------------------------------------------
  // Landing (the static canLandOnPlanet).

  /** The ship is within the planet's radius plus 80 and moves at most 4
      relative to it. Math.hypot is the parameter `sqrt` over squared
      lengths. */
  predicate CanLandOnPlanet(ship: ShipState, planet: Orb, sqrt: real -> real)
  {
    Hypot(ship.x - planet.x, ship.y - planet.y, sqrt) <= planet.radius + 80.0
    && Hypot(ship.vx - planet.vx, ship.vy - planet.vy, sqrt) <= 4.0
  }

  /** With an exact square root, landing is allowed exactly when the squared
      distance is at most (radius + 80)^2 and the squared relative speed at
      most 16. */
  lemma LandingExactly(ship: ShipState, planet: Orb, sqrt: real -> real)
    requires IsSqrt(sqrt)
    ensures CanLandOnPlanet(ship, planet, sqrt) <==>
      var reach := planet.radius + 80.0;
      reach >= 0.0 && SquaredLength(ship.x - planet.x, ship.y - planet.y) <= reach * reach
      && SquaredLength(ship.vx - planet.vx, ship.vy - planet.vy) <= 16.0
  {
    SqrtAtMost(sqrt, SquaredLength(ship.x - planet.x, ship.y - planet.y), planet.radius + 80.0);
    SqrtAtMost(sqrt, SquaredLength(ship.vx - planet.vx, ship.vy - planet.vy), 4.0);
  }

  // ---------------------------------------------------------------------
  // Water tables.

  /** waterType: 'none', 'ocean' or 'frozen' ('lakes' is tested for but
      never assigned). */
  datatype WaterType = Dry | Ocean | Frozen

  /** A planet image's water depth multiplier and water type. */
  datatype Depth = Depth(multiplier: real, kind: WaterType)

  /** The image name water is looked up by: the image's id, 'bluePlanet'
      when there is none ("" stands for a missing image or id). */
  function ImageName(id: string): string
  {
    if id == "" then "bluePlanet" else id
  }

  /** The images whose water configuration has water. */
  const WATERY: set<string> := {
    "amberPlanet", "bandsPlanet", "brownPlanet", "cataractPlanet", "greenPlanet", "jaundicePlanet",
    "lightningPlanet", "pastelPlanet", "bluePlanet", "boilingPlanet", "dyingPlanet", "harshPlanet",
    "icePlanet", "islandsPlanet", "oceanPlanet", "orangePlanet", "redPlanet", "veilPlanet",
    "crevassePlanet", "methanePlanet", "toxicPlanet"}

  /** The water depth configuration of an image, if it has one. */
  function DepthOf(name: string): Option<Depth>
  {
    if name in {"amberPlanet", "brownPlanet", "cataractPlanet", "greenPlanet"} then Some(Depth(1.3, Ocean))
    else if name in {"bandsPlanet", "jaundicePlanet", "pastelPlanet"} then Some(Depth(1.2, Ocean))
    else if name in {"lightningPlanet", "oceanPlanet"} then Some(Depth(1.4, Ocean))
    else if name in {"bluePlanet", "islandsPlanet"} then Some(Depth(1.0, Ocean))
    else if name in {"boilingPlanet", "orangePlanet", "crevassePlanet"} then Some(Depth(0.8, Ocean))
    else if name in {"dyingPlanet", "harshPlanet", "redPlanet", "methanePlanet"} then Some(Depth(0.9, Ocean))
    else if name == "icePlanet" then Some(Depth(1.1, Frozen))
    else if name == "veilPlanet" then Some(Depth(1.5, Ocean))
    else if name == "toxicPlanet" then Some(Depth(0.1, Ocean))
    else None
  }

  /** The water configuration and the depth table list the same images, so
      a planet with water always gets a level and a water type from its
      terrain, and that type is never 'none'. */
  lemma WateryHasDepth(name: string)
    ensures name in WATERY <==> DepthOf(name).Some?
    ensures DepthOf(name).Some? ==> DepthOf(name).value.kind != Dry
  {
  }

  /** The lowest and highest of a non-empty list of heights. */
  function Lowest(hs: seq<real>): (m: real)
    requires |hs| > 0
    ensures forall i | 0 <= i < |hs| :: m <= hs[i]
  {
    if |hs| == 1 then hs[0] else Min(Lowest(hs[..|hs| - 1]), hs[|hs| - 1])
  }

  function Highest(hs: seq<real>): (m: real)
    requires |hs| > 0
    ensures forall i | 0 <= i < |hs| :: hs[i] <= m
  {
    if |hs| == 1 then hs[0] else Max(Highest(hs[..|hs| - 1]), hs[|hs| - 1])
  }

  /** The lowest and the highest are heights of the list. */
  lemma {:induction false} ExtremesAttained(hs: seq<real>)
    requires |hs| > 0
    ensures Lowest(hs) in hs && Highest(hs) in hs
  {
    if |hs| > 1 {
      var init := hs[..|hs| - 1];
      ExtremesAttained(init);
      assert forall x | x in init :: x in hs;
    }
  }

  /** Taking one more height into a prefix's lowest and highest. */
  lemma Extend(hs: seq<real>, i: nat)
    requires 0 < i < |hs|
    ensures Lowest(hs[..i + 1]) == Min(Lowest(hs[..i]), hs[i])
    ensures Highest(hs[..i + 1]) == Max(Highest(hs[..i]), hs[i])
  {
    assert hs[..i + 1][..i] == hs[..i];
  }

  /**
   * The water level above the terrain base: the average height plus the
   * range times the multiplier, rounded down, but at least the lowest point
   * plus a tenth of the range.
   */
  function WaterLevel(lo: real, hi: real, base: real, multiplier: real): real
  {
    var range := hi - lo;
    var average := (lo + hi) / 2.0;
    Max(((average - base) + range * multiplier).Floor as real, (lo - base) + range * 0.1)
  }

  /** The water never lies below the lowest terrain point, and rises no
      higher than the unrounded depth rule or the one-tenth floor. */
  lemma WaterLevelBounds(lo: real, hi: real, base: real, multiplier: real)
    requires lo <= hi
    ensures base + WaterLevel(lo, hi, base, multiplier) >= lo + (hi - lo) * 0.1 >= lo
    ensures WaterLevel(lo, hi, base, multiplier)
      <= Max(((lo + hi) / 2.0 - base) + (hi - lo) * multiplier, (lo - base) + (hi - lo) * 0.1)
    ensures WaterLevel(lo, hi, base, multiplier) > ((lo + hi) / 2.0 - base) + (hi - lo) * multiplier - 1.0
  {
  }

  // ---------------------------------------------------------------------
  // The rendered terrain height (getRenderedTerrainHeightAtAngle).

  /** The stride between rendered points; 4 while the resolution is not yet
      computed (0). */
  function Stride(resolution: nat): (s: nat)
    ensures s > 0
  {
    if resolution == 0 then 4 else resolution
  }

  /** j is a multiple of the stride s: one of the rendered points. */
  predicate OnStride(j: nat, s: nat)
    decreases j
  {
    j == 0 || (s > 0 && j >= s && OnStride(j - s, s))
  }

  /** No multiple of s lies strictly between two consecutive ones. */
  lemma {:induction false} StrideGap(j: nat, k: nat, s: nat)
    requires s > 0 && OnStride(j, s) && OnStride(k, s) && k <= j < k + s
    ensures j == k
    decreases k
  {
    if k > 0 {
      StrideGap(j - s, k - s, s);
    }
  }

  /** The angular distance between two angles in [0, 2π), going the short
      way round. */
  function AngleGap(x: real, a: real): real
  {
    var d := Abs(x - a);
    if d > PI then TWO_PI - d else d
  }

  /** Point c is the nearest rendered point to angle a among the rendered
      points below `bound`, and every earlier rendered point is strictly
      farther. */
  predicate NearestBelow(t: seq<TerrainPoint>, s: nat, a: real, c: nat, bound: nat)
    requires c < |t|
  {
    (forall j: nat | j < bound && j < |t| && OnStride(j, s) :: AngleGap(t[c].angle, a) <= AngleGap(t[j].angle, a))
    && (forall j: nat | j < c && OnStride(j, s) :: AngleGap(t[c].angle, a) < AngleGap(t[j].angle, a))
  }

  /** The scan's choice after visiting the rendered points below i. */
  function Nearest(t: seq<TerrainPoint>, s: nat, a: real, i: nat): (c: nat)
    requires s > 0 && i > 0 && OnStride(i, s) && i - s < |t|
    ensures c < i && c < |t| && OnStride(c, s)
    decreases i
  {
    if i == s then 0
    else
      var c := Nearest(t, s, a, i - s);
      var j := i - s;
      if AngleGap(t[j].angle, a) < AngleGap(t[c].angle, a) then j else c
  }

  /** The scan continued from i to the end of the terrain. */
  function Scan(t: seq<TerrainPoint>, s: nat, a: real, i: nat): (c: nat)
    requires s > 0 && i > 0 && OnStride(i, s) && i - s < |t|
    ensures c < |t| && OnStride(c, s)
    decreases |t| - i
  {
    if i >= |t| then Nearest(t, s, a, i) else Scan(t, s, a, i + s)
  }

  /** The rendered point the lookup settles on. */
  function Closest(t: seq<TerrainPoint>, s: nat, a: real): (c: nat)
    requires s > 0 && |t| > 0
    ensures c < |t| && OnStride(c, s)
  {
    Scan(t, s, a, s)
  }

  /** The height getRenderedTerrainHeightAtAngle reports for `angle`. */
  function RenderedHeight(t: seq<TerrainPoint>, resolution: nat, angle: real): real
    requires |t| > 0
  {
    t[Closest(t, Stride(resolution), NormalizeAngle(angle))].height
  }

  lemma {:induction false} NearestIsNearest(t: seq<TerrainPoint>, s: nat, a: real, i: nat)
    requires s > 0 && i > 0 && OnStride(i, s) && i - s < |t|
    ensures NearestBelow(t, s, a, Nearest(t, s, a, i), i)
    decreases i
  {
    if i == s {
      forall j: nat | j < i && OnStride(j, s) ensures j == 0 {
        StrideGap(j, 0, s);
      }
    } else {
      var c := Nearest(t, s, a, i - s);
      NearestIsNearest(t, s, a, i - s);
      forall j: nat | i - s <= j < i && OnStride(j, s) ensures j == i - s {
        StrideGap(j, i - s, s);
      }
    }
  }

  lemma {:induction false} ScanIsNearest(t: seq<TerrainPoint>, s: nat, a: real, i: nat)
    requires s > 0 && i > 0 && OnStride(i, s) && i - s < |t|
    ensures NearestBelow(t, s, a, Scan(t, s, a, i), |t|)
    decreases |t| - i
  {
    if i >= |t| {
      NearestIsNearest(t, s, a, i);
    } else {
      ScanIsNearest(t, s, a, i + s);
    }
  }

  /**
   * The lookup picks exactly the rendered point nearest to the angle, the
   * earliest one on a tie: a rendered point is the one chosen if and only
   * if it is that point.
   */
  lemma ClosestIsNearest(t: seq<TerrainPoint>, s: nat, a: real, c: nat)
    requires s > 0 && c < |t| && OnStride(c, s)
    ensures c == Closest(t, s, a) <==> NearestBelow(t, s, a, c, |t|)
  {
    ScanIsNearest(t, s, a, s);
  }

  // ---------------------------------------------------------------------
  // One frame of updateExploration, as functions of the player's motion.

  /** The keys held this frame, each the `||` of the source's key names:
      A/ArrowLeft, D/ArrowRight, Space, W/ArrowUp, S/ArrowDown, Escape. */
  datatype Keys = Keys(left: bool, right: bool, jump: bool, up: bool, down: bool, escape: bool)

  /** playerAnimationState. */
  datatype Facing = Front | Left | Right

  /** How updateExploration ended: normally, by the early return when a
      thruster has no fuel, or by leaving with Escape. */
  datatype Outcome = Finished | Stalled | Exited

  /** The player's motion: height above the core, world angle, angular
      velocity, vertical velocity and whether they stand on the surface. */
  datatype Motion = Motion(height: real, angle: real, spin: real, vy: real, grounded: bool)

  /** The walk animation's frame and timer. */
  datatype Gait = Gait(frame: nat, timer: real)

  /** A motion together with the walking flag. */
  datatype Pace = Pace(motion: Motion, walking: bool)

  /** The vertical velocity and fuel after the thrusters, and whether the
      frame stopped early for want of fuel. */
  datatype Burn = Burn(vy: real, fuel: real, stalled: bool)

  /** A motion after the water check, with the ice and water flags. */
  datatype Soak = Soak(motion: Motion, onIce: bool, inWater: bool)

  /** The movement direction: -1 left, 1 right, 0 for neither or both. */
  function Direction(k: Keys): (d: int)
    ensures -1 <= d <= 1
    ensures d < 0 <==> k.left && !k.right
    ensures d > 0 <==> k.right && !k.left
  {
    (if k.left then -1 else 0) + (if k.right then 1 else 0)
  }

  function FacingOf(direction: int): Facing
  {
    if direction < 0 then Left else if direction > 0 then Right else Front
  }

  /** The walk animation: the timer runs while walking and the frame moves
      on, round a cycle of four, each time the timer reaches 1. */
  function Animated(walking: bool, frame: nat, timer: real): (g: Gait)
    ensures frame < 4 ==> g.frame < 4
    ensures !walking ==> g == Gait(0, 0.0)
    ensures walking && timer >= 0.0 ==> 0.0 <= g.timer < 1.0
    ensures walking && g.frame != frame ==> g.frame == (frame + 1) % 4 && g.timer == 0.0
  {
    if !walking then Gait(0, 0.0)
    else if timer + ANIMATION_SPEED >= 1.0 then Gait((frame + 1) % 4, 0.0)
    else Gait(frame, timer + ANIMATION_SPEED)
  }

  /** The player's bottom is at most 1 above the terrain (the planet radius
      on both sides of the source's comparison cancels). */
  predicate OnGround(height: real, ground: real)
  {
    height - PLAYER_RADIUS <= ground + 1.0
  }

  /**
   * `v + Math.sign(target - v) * Math.min(|target - v|, step)`: a move
   * toward the target by at most `step` that never overshoots it.
   */
  function Approach(v: real, target: real, step: real): (r: real)
    requires step >= 0.0
    ensures Min(v, target) <= r <= Max(v, target)
    ensures Abs(r - v) <= step
    ensures Abs(target - v) <= step ==> r == target
  {
    var d := target - v;
    if d > 0.0 then v + Min(d, step) else if d < 0.0 then v - Min(-d, step) else v
  }

  /** The angular velocity after the surface controls: accelerated toward
      direction * speed and damped when no key is held. */
  function Steered(spin: real, direction: int, speed: real): real
  {
    var r := Approach(spin, direction as real * speed, MAX_ANGULAR_ACCELERATION);
    if direction == 0 then r * ANGLE_DAMPING else r
  }

  /** With no key held the spin shrinks by at least 15% a frame; with a key
      held it changes by at most the maximum angular acceleration. */
  lemma SteeredBounds(spin: real, direction: int, speed: real)
    ensures direction == 0 ==> Abs(Steered(spin, direction, speed)) <= ANGLE_DAMPING * Abs(spin)
    ensures direction != 0 ==> Abs(Steered(spin, direction, speed) - spin) <= MAX_ANGULAR_ACCELERATION
  {
    if direction == 0 {
      var r := Approach(spin, 0.0, MAX_ANGULAR_ACCELERATION);
      assert Abs(r) <= Abs(spin);
      if r >= 0.0 {
        MulNonNeg(r, ANGLE_DAMPING);
      } else {
        MulNonNeg(-r, ANGLE_DAMPING);
      }
    }
  }

  /** `h * (1 - f) + target * f`, the source's smoothing toward a target. */
  function Blend(h: real, target: real, f: real): real
  {
    h * (1.0 - f) + target * f
  }

  /** Blending with a factor in [0, 1] lands between the two heights and
      closes the gap by the factor. */
  lemma BlendBetween(h: real, target: real, f: real)
    requires 0.0 <= f <= 1.0
    ensures Min(h, target) <= Blend(h, target, f) <= Max(h, target)
    ensures Blend(h, target, f) - target == (1.0 - f) * (h - target)
  {
    assert Blend(h, target, f) == h + (target - h) * f;
    if h <= target {
      MulNonNeg(target - h, f);
      MulNonNeg(target - h, 1.0 - f);
    } else {
      MulNonNeg(h - target, f);
      MulNonNeg(h - target, 1.0 - f);
    }
  }

  /** How quickly the player follows the ground: faster for larger gaps. */
  function FollowFactor(gap: real): (f: real)
    ensures 0.0 < f < 1.0
  {
    if gap > PLAYER_RADIUS then 0.6 else if gap > PLAYER_RADIUS * 0.5 then 0.4 else 0.2
  }

  /**
   * The predictive step on the surface for a rise `slope` just ahead (only
   * a positive slope counts as a rise): a cliff (more than 1.5 player radii)
   * stops the step and nearly the spin, with a small nudge in vertical
   * velocity; a steep rise (more than 0.8 radii) slows the spin by its
   * steepness and stops the step once the spin is tiny; otherwise the
   * player moves on by the spin with the vertical velocity reduced.
   */
  function Stepped(m: Motion, walking: bool, slope: real): Pace
  {
    var rising := slope > 0.0;
    var spin := RisenSpin(m.spin, slope);
    if rising && Abs(slope) > CLIMB_LIMIT then
      Pace(m.(spin := spin, vy := if Abs(spin) > 0.005 then m.vy + 0.5 else m.vy), false)
    else
      var steep := rising && Abs(slope) > WALK_LIMIT;
      if !steep || Abs(spin) > 0.001 then
        Pace(m.(angle := NormalizeAngle(m.angle + spin), spin := spin, vy := m.vy * 0.9), walking)
      else Pace(m.(spin := spin), false)
  }

  /** The spin after a rise `slope`: 0.05 of it on a cliff, reduced by
      0.8 of the steepness on a steep rise, unchanged otherwise. */
  function RisenSpin(spin: real, slope: real): real
  {
    var rising := slope > 0.0;
    if rising && Abs(slope) > CLIMB_LIMIT then spin * 0.05
    else if rising && Abs(slope) > WALK_LIMIT then spin * (1.0 - Abs(slope) / CLIMB_LIMIT * 0.8)
    else spin
  }

  /** The step leaves the spin as the rise made it (never reversed or
      faster, by RisenSpinSlows); a gentle rise (at most the walkable
      limit) keeps the spin and moves the player by it; a stopped step keeps
      the angle and stops the walk animation. */
  lemma SteppedFollowsRise(m: Motion, walking: bool, slope: real)
    ensures var p := Stepped(m, walking, slope);
      p.motion.spin == RisenSpin(m.spin, slope)
      && (slope <= WALK_LIMIT ==> p.motion.spin == m.spin && p.motion.angle == NormalizeAngle(m.angle + m.spin)
                                  && p.walking == walking)
      && (p.motion.angle != NormalizeAngle(m.angle + p.motion.spin) ==> p.motion.angle == m.angle && !p.walking)
      && p.motion.height == m.height && p.motion.grounded == m.grounded
  {
  }

  /** A rise scales the spin by a factor in [0, 1]: it never reverses it
      or speeds it up. */
  lemma RisenSpinSlows(spin: real, slope: real)
    ensures Abs(RisenSpin(spin, slope)) <= Abs(spin) && RisenSpin(spin, slope) * spin >= 0.0
  {
    if slope > CLIMB_LIMIT {
      Scaled(spin, 0.05, RisenSpin(spin, slope));
    } else if slope > WALK_LIMIT {
      Scaled(spin, 1.0 - slope / CLIMB_LIMIT * 0.8, RisenSpin(spin, slope));
    } else {
      Scaled(spin, 1.0, RisenSpin(spin, slope));
    }
  }

  /** Scaling by a factor in [0, 1] keeps the sign and does not grow. */
  lemma Scaled(v: real, k: real, r: real)
    requires 0.0 <= k <= 1.0 && r == v * k
    ensures Abs(r) <= Abs(v) && r * v >= 0.0
  {
    if v >= 0.0 {
      MulNonNeg(v, k);
      MulNonNeg(v, 1.0 - k);
      MulNonNeg(v * k, v);
    } else {
      MulNonNeg(-v, k);
      MulNonNeg(-v, 1.0 - k);
      MulNonNeg(-v * k, -v);
    }
  }

  /** The height after following the ground at `here`: blended toward
      standing on it, faster for larger gaps. */
  function Followed(h: real, here: real): real
  {
    Blend(h, here + PLAYER_RADIUS, FollowFactor(Abs(here + PLAYER_RADIUS - h)))
  }

  /** A jump: the jump speed away from the planet, off the surface, and 30%
      less spin. */
  function Jumped(m: Motion): Motion
  {
    m.(vy := -JUMP_POWER, grounded := false, spin := m.spin * 0.7)
  }

  /**
   * The surface branch of updateExploration for a player whose ground is
   * at `here`: steer, take the predictive step when spinning, follow the
   * ground, and jump.
   */
  function Walk(m: Motion, walking: bool, direction: int, jump: bool, here: real, speed: real,
                t: seq<TerrainPoint>, resolution: nat): Pace
    requires |t| > 0
  {
    var steered := m.(spin := Steered(m.spin, direction, speed));
    var stepped := if Abs(steered.spin) > 0.0001
      then Stepped(steered, walking, RenderedHeight(t, resolution, steered.angle + steered.spin - HALF_PI) - here)
      else Pace(steered, walking);
    var followed := stepped.motion.(height := Followed(stepped.motion.height, here));
    Pace(if jump then Jumped(followed) else followed, stepped.walking)
  }

  /** On the surface the player ends between their old height and standing
      on the ground, only stops walking, stays on the surface unless
      jumping, and a jump sets the jump speed away from the planet. */
  lemma WalkFollowsGround(m: Motion, walking: bool, direction: int, jump: bool, here: real, speed: real,
                          t: seq<TerrainPoint>, resolution: nat)
    requires |t| > 0
    ensures var p := Walk(m, walking, direction, jump, here, speed, t, resolution);
      Min(m.height, here + PLAYER_RADIUS) <= p.motion.height <= Max(m.height, here + PLAYER_RADIUS)
      && (p.walking ==> walking)
      && (jump ==> p.motion.vy == -JUMP_POWER && !p.motion.grounded)
      && (!jump ==> p.motion.grounded == m.grounded)
  {
    var steered := m.(spin := Steered(m.spin, direction, speed));
    var stepped := if Abs(steered.spin) > 0.0001
      then Stepped(steered, walking, RenderedHeight(t, resolution, steered.angle + steered.spin - HALF_PI) - here)
      else Pace(steered, walking);
    if Abs(steered.spin) > 0.0001 {
      SteppedFollowsRise(steered, walking, RenderedHeight(t, resolution, steered.angle + steered.spin - HALF_PI) - here);
    }
    assert stepped.motion.height == m.height && stepped.motion.grounded == m.grounded;
    assert stepped.walking ==> walking;
    BlendBetween(m.height, here + PLAYER_RADIUS, FollowFactor(Abs(here + PLAYER_RADIUS - m.height)));
  }

  /** Gravity and the slow air control: the spin moves a tenth of the way
      to direction / planetRadius. */
  function AirSteered(m: Motion, direction: int, planetRadius: real, gravity: real): Motion
    requires planetRadius > 0.0
  {
    m.(vy := m.vy + gravity, spin := m.spin * 0.9 + direction as real * (1.0 / planetRadius) * 0.1)
  }

  /** The predictive step in the air, with the ground at `here` and `ahead`:
      flying low into an upward cliff cuts the spin to a tenth and pushes
      the player off; otherwise they move on by the spin. */
  function AirDrifted(m: Motion, here: real, ahead: real, planetRadius: real): Motion
  {
    var slope := ahead - here;
    var bottom := (planetRadius + m.height) - PLAYER_RADIUS;
    if slope > 0.0 && Abs(slope) > CLIMB_LIMIT && bottom <= (planetRadius + ahead) + PLAYER_RADIUS
    then m.(spin := m.spin * 0.1, vy := m.vy - 0.5)
    else m.(angle := m.angle + m.spin)
  }

  /** The air branch before the thrusters. */
  function Glided(m: Motion, direction: int, here: real, planetRadius: real, gravity: real,
                  t: seq<TerrainPoint>, resolution: nat): Motion
    requires |t| > 0 && planetRadius > 0.0
  {
    var steered := AirSteered(m, direction, planetRadius, gravity);
    if Abs(steered.spin) > 0.0001
    then AirDrifted(steered, here, RenderedHeight(t, resolution, steered.angle + steered.spin - HALF_PI), planetRadius)
    else steered
  }

  /** In the air the spin closes a tenth of its gap to the air-control
      target each frame, unless a cliff blocks the step, which cuts it to a
      tenth and leaves the angle; gravity is always added. */
  lemma GlideApproaches(m: Motion, direction: int, here: real, planetRadius: real, gravity: real,
                        t: seq<TerrainPoint>, resolution: nat)
    requires |t| > 0 && planetRadius > 0.0
    ensures var g := Glided(m, direction, here, planetRadius, gravity, t, resolution);
      var target := direction as real * (1.0 / planetRadius);
      var spin := m.spin * 0.9 + target * 0.1;
      spin - target == 0.9 * (m.spin - target)
      && ((g.angle == m.angle + spin && g.spin == spin && g.vy == m.vy + gravity)
          || (g.angle == m.angle && g.spin == spin * 0.1 && g.vy == m.vy + gravity - 0.5)
          || (g.angle == m.angle && g.spin == spin && g.vy == m.vy + gravity))
      && g.height == m.height && g.grounded == m.grounded
  {
  }

  /**
   * The thrusters: W pushes away from the planet and S toward it, each
   * burning 0.01 fuel; pressing one with no fuel left ends the frame early.
   */
  function Burned(vy: real, fuel: real, up: bool, down: bool, inWater: bool, gravity: real): Burn
  {
    var control := gravity - 0.01;
    if up && fuel <= 0.0 then Burn(vy, fuel, true)
    else
      var vy1 := if up then vy - (if inWater then control * 0.9 else control) else vy;
      var fuel1 := if up then fuel - BURN else fuel;
      if down && fuel1 <= 0.0 then Burn(vy1, fuel1, true)
      else if down then Burn(vy1 + control, fuel1 - BURN, false)
      else Burn(vy1, fuel1, false)
  }

  /** Fuel is only spent while some is left, one burn per thruster used;
      it never falls a whole burn below zero; a stall happens only with
      the tank at or below zero. */
  lemma FuelAccounting(vy: real, fuel: real, up: bool, down: bool, inWater: bool, gravity: real)
    ensures var b := Burned(vy, fuel, up, down, inWater, gravity);
      (b.fuel == fuel || b.fuel == fuel - BURN || b.fuel == fuel - 2.0 * BURN)
      && (b.fuel < fuel ==> fuel > 0.0 && (up || down))
      && (b.fuel == fuel - 2.0 * BURN ==> up && down)
      && (fuel > -BURN ==> b.fuel > -BURN)
      && (b.stalled ==> b.fuel <= 0.0 && (up || down))
      && (!up && !down ==> b == Burn(vy, fuel, false))
  {
  }

  /** The speed-dependent drag: the velocity times 1 - (0.02 + 0.001 |v|). */
  function Drag(vy: real): real
  {
    var coefficient := 0.02 + 0.001 * Abs(vy);
    if vy > 0.0 then vy * (1.0 - coefficient)
    else if vy < 0.0 then vy * (1.0 - coefficient)
    else vy
  }

  /** Up to a speed of 980 drag slows the player without turning them
      round; beyond it the factor is negative and the velocity flips. */
  lemma DragSlows(vy: real)
    ensures Abs(vy) <= 980.0 ==> Abs(Drag(vy)) <= Abs(vy) && Drag(vy) * vy >= 0.0
    ensures vy != 0.0 && Abs(vy) < 980.0 ==> Abs(Drag(vy)) < Abs(vy)
    ensures Abs(vy) > 980.0 ==> Drag(vy) * vy < 0.0
  {
    var k := 1.0 - (0.02 + 0.001 * Abs(vy));
    DragFactor(vy, k);
    if Abs(vy) <= 980.0 {
      Scaled(vy, k, Drag(vy));
      if vy != 0.0 && Abs(vy) < 980.0 {
        ScaledDown(vy, k, Drag(vy));
      }
    } else {
      Flipped(vy, k, Drag(vy));
    }
  }

  /** Drag multiplies the velocity by 1 - (0.02 + 0.001 |v|). */
  lemma DragFactor(vy: real, k: real)
    requires k == 1.0 - (0.02 + 0.001 * Abs(vy))
    ensures Drag(vy) == vy * k
  {
  }

  /** Scaling a nonzero value by a factor in [0, 1) shrinks it. */
  lemma ScaledDown(v: real, k: real, r: real)
    requires 0.0 <= k < 1.0 && v != 0.0 && r == v * k
    ensures Abs(r) < Abs(v)
  {
    if v > 0.0 {
      ProductPos(v, 1.0 - k, v * (1.0 - k));
    } else {
      ProductPos(-v, 1.0 - k, -v * (1.0 - k));
    }
  }

  /** Scaling a nonzero value by a negative factor turns it round. */
  lemma Flipped(v: real, k: real, r: real)
    requires k < 0.0 && v != 0.0 && r == v * k
    ensures r * v < 0.0
  {
    if v > 0.0 {
      ProductPos(v, -k, -r);
      ProductPos(-r, v, -r * v);
    } else {
      ProductPos(-v, -k, r);
      ProductPos(r, -v, r * -v);
    }
  }

  /**
   * The terrain collision once the player's bottom is at or below the
   * ground: with the ground at `ground` and `ahead` ten spins ahead, a
   * player walking up a cliff is stopped on it, one walking up a steep rise
   * climbs slowly, one on the surface near the ground eases onto it, and
   * any other is placed on the ground with a damped bounce.
   */
  function Placed(m: Motion, ground: real, ahead: real): Motion
  {
    var target := ground + PLAYER_RADIUS;
    var difference := target - m.height;
    var slope := ahead - ground;
    if difference > 0.0 && Abs(m.spin) > 0.001 && Abs(slope) > WALK_LIMIT && m.grounded then
      if Abs(slope) > CLIMB_LIMIT then
        var spin := m.spin * 0.1;
        m.(spin := spin, height := target, vy := if Abs(spin) > 0.01 then Max(0.0, m.vy) + 1.0 else Max(0.0, m.vy))
      else
        m.(height := Blend(m.height, target, 0.15 * (1.0 - Abs(slope) / CLIMB_LIMIT * 0.7)),
           spin := m.spin * (1.0 - Abs(slope) / CLIMB_LIMIT * 0.3), vy := m.vy * 0.8)
    else if Abs(difference) <= PLAYER_RADIUS * 0.5 && m.grounded then
      m.(height := Blend(m.height, target, 0.4), vy := m.vy * 0.7)
    else m.(height := target, vy := m.vy * -0.3)
  }

  /** A vertical speed below 1 comes to rest on the surface. */
  function Rested(m: Motion): Motion
  {
    if Abs(m.vy) < 1.0 then m.(vy := 0.0, grounded := true) else m
  }

  /** The terrain collision after the vertical move (the planet radius on
      both sides of the source's contact test cancels). */
  function Settled(m: Motion, ground: real, ahead: real): Motion
  {
    if m.height - PLAYER_RADIUS <= ground then Rested(Placed(m, ground, ahead)) else m
  }

  /** Without contact nothing changes; on contact the player ends between
      their height and standing on the ground, exactly on it when coming
      from the air, and either settled with no vertical speed or moving
      at 1 or more. */
  lemma SettledOnGround(m: Motion, ground: real, ahead: real)
    ensures var r := Settled(m, ground, ahead);
      var target := ground + PLAYER_RADIUS;
      (m.height - PLAYER_RADIUS > ground ==> r == m)
      && (m.height - PLAYER_RADIUS <= ground ==>
            Min(m.height, target) <= r.height <= Max(m.height, target)
            && (!m.grounded ==> r.height == target)
            && ((r.vy == 0.0 && r.grounded) || Abs(r.vy) >= 1.0)
            && r.angle == m.angle)
  {
    var target := ground + PLAYER_RADIUS;
    var slope := ahead - ground;
    if Abs(slope) <= CLIMB_LIMIT {
      BlendBetween(m.height, target, 0.15 * (1.0 - Abs(slope) / CLIMB_LIMIT * 0.7));
    }
    BlendBetween(m.height, target, 0.4);
  }

  /**
   * The water check for a planet with water at `level` above the terrain
   * base (the planet radius cancels on both sides): frozen water holds the
   * player up like ground; ocean water adds buoyancy against gravity and
   * resistance.
   */
  function Soaked(m: Motion, hasWater: bool, level: real, kind: WaterType, gravity: real): Soak
  {
    if !hasWater then Soak(m, false, false)
    else
      var bottom := m.height - PLAYER_RADIUS;
      var top := m.height + PLAYER_RADIUS;
      if kind == Frozen then
        if bottom <= level + 2.0 then
          if bottom <= level then
            Soak(m.(height := level + PLAYER_RADIUS, vy := Max(0.0, m.vy), grounded := true, spin := m.spin * 0.999),
                 true, false)
          else Soak(m, true, false)
        else Soak(m, false, false)
      else if bottom <= level then
        if kind == Ocean then
          var ratio := Min(1.0, (level - bottom) / (PLAYER_RADIUS * 2.0));
          var vy := (m.vy + -gravity * 0.8 * ratio) * 0.95;
          Soak(m.(vy := if top < level && vy < 0.0 then vy * 0.5 else vy, spin := m.spin * 0.98), false, true)
        else Soak(m, false, true)
      else Soak(m, false, false)
  }

  /** The player is never both on ice and in water; ice is frozen water and
      a player below it stands on it, not sinking; water is liquid and holds
      the player's bottom below its surface; dry planets change nothing. */
  lemma SoakedFacts(m: Motion, hasWater: bool, level: real, kind: WaterType, gravity: real)
    ensures var w := Soaked(m, hasWater, level, kind, gravity);
      !(w.onIce && w.inWater)
      && (!hasWater ==> w == Soak(m, false, false))
      && (w.onIce ==> hasWater && kind == Frozen && m.height - PLAYER_RADIUS <= level + 2.0)
      && (w.inWater ==> hasWater && kind != Frozen && m.height - PLAYER_RADIUS <= level)
      && (hasWater && kind == Frozen && m.height - PLAYER_RADIUS <= level ==>
            w.motion.height == level + PLAYER_RADIUS && w.motion.vy >= 0.0 && w.motion.grounded)
      && w.motion.angle == m.angle
  {
  }

  /** The safety limits: never below the minimum terrain height plus the
      player's radius, never above the ceiling, and no longer rising there. */
  function Clamped(m: Motion, floor: real, ceiling: real): (r: Motion)
    ensures floor <= ceiling ==> floor <= r.height <= ceiling
    ensures floor <= m.height <= ceiling ==> r == m
    ensures r.height == ceiling && m.height > ceiling ==> r.vy <= 0.0
    ensures r.angle == m.angle && r.spin == m.spin && r.grounded == m.grounded
  {
    var low := if m.height < floor then m.(height := floor, vy := 0.0) else m;
    if low.height > ceiling then low.(height := ceiling, vy := Min(0.0, low.vy)) else low
  }

  // ---------------------------------------------------------------------
  // A whole frame, composed of the phases above.

  /** Everything a frame of updateExploration changes: the motion, the ice
      and water flags, walking, facing, the walk animation and EVA fuel. */
  datatype Player = Player(motion: Motion, onIce: bool, inWater: bool, walking: bool, facing: Facing,
                           gait: Gait, fuel: real)

  /** What a frame reads and leaves alone: the terrain and its rendering
      resolution, the planet radius, gravity, the walking speed, the water
      and the two height limits. */
  datatype Setting = Setting(terrain: seq<TerrainPoint>, resolution: nat, radius: real, gravity: real,
                             speed: real, hasWater: bool, level: real, kind: WaterType,
                             floor: real, ceiling: real)

  /** The player after a phase, and whether the frame stopped there. */
  datatype Step = Step(player: Player, stalled: bool)

  /** The start of a frame: the surface check against the ground at
      `here`, then the walk animation and facing for the direction held. */
  function Readied(p: Player, direction: int, here: real): Player
  {
    p.(motion := p.motion.(grounded := OnGround(p.motion.height, here)), walking := direction != 0,
       facing := FacingOf(direction), gait := Animated(direction != 0, p.gait.frame, p.gait.timer))
  }

  /** The surface branch of a frame. */
  function Walked(p: Player, direction: int, jump: bool, here: real, w: Setting): Player
    requires |w.terrain| > 0
  {
    var pace := Walk(p.motion, p.walking, direction, jump, here, w.speed, w.terrain, w.resolution);
    p.(motion := pace.motion, walking := pace.walking)
  }

  /** The air branch of a frame: gliding, then the thrusters. */
  function Flown(p: Player, keys: Keys, here: real, w: Setting): Step
    requires |w.terrain| > 0 && w.radius > 0.0
  {
    var glided := Glided(p.motion, Direction(keys), here, w.radius, w.gravity, w.terrain, w.resolution);
    var burn := Burned(glided.vy, p.fuel, keys.up, keys.down, p.inWater, w.gravity);
    Step(p.(motion := glided.(vy := burn.vy), fuel := burn.fuel), burn.stalled)
  }

  /** The first part of a frame: the surface check, the walk animation and
      facing, then walking on the surface, or gliding and the thrusters in
      the air. */
  function Moved(p: Player, keys: Keys, w: Setting): Step
    requires |w.terrain| > 0 && w.radius > 0.0
  {
    var here := RenderedHeight(w.terrain, w.resolution, p.motion.angle - HALF_PI);
    var ready := Readied(p, Direction(keys), here);
    if ready.motion.grounded then Step(Walked(ready, Direction(keys), keys.jump, here, w), false)
    else Flown(ready, keys, here, w)
  }

  /** The vertical move and the drag, stronger in water by the flag from
      the previous frame. */
  function Fallen(m: Motion, inWater: bool): Motion
  {
    m.(height := m.height + m.vy, vy := if inWater then Drag(m.vy) * 0.95 else Drag(m.vy))
  }

  /** The fall followed by the terrain collision under the player and
      ahead of them. */
  function Descended(m: Motion, inWater: bool, w: Setting): Motion
    requires |w.terrain| > 0
  {
    var fallen := Fallen(m, inWater);
    Settled(fallen, RenderedHeight(w.terrain, w.resolution, fallen.angle - HALF_PI),
            RenderedHeight(w.terrain, w.resolution, fallen.angle + fallen.spin * 10.0 - HALF_PI))
  }

  /** After the collision left the player at `m`: the water, the safety
      limits and the angle brought back into [0, 2 pi). */
  function Emerged(p: Player, m: Motion, w: Setting): Player
  {
    var soak := Soaked(m, w.hasWater, w.level, w.kind, w.gravity);
    var clamped := Clamped(soak.motion, w.floor, w.ceiling);
    p.(motion := clamped.(angle := NormalizeAngle(clamped.angle)), onIce := soak.onIce, inWater := soak.inWater)
  }

  /** The rest of a frame: the fall, the terrain collision, the water, the
      safety limits and the normalised angle. */
  function Landed(p: Player, w: Setting): Player
    requires |w.terrain| > 0
  {
    Emerged(p, Descended(p.motion, p.inWater, w), w)
  }

  /** One frame of updateExploration: it stops after the first part when a
      thruster stalls. */
  function Frame(p: Player, keys: Keys, w: Setting): Step
    requires |w.terrain| > 0 && w.radius > 0.0
  {
    var moved := Moved(p, keys, w);
    if moved.stalled then moved else Step(Landed(moved.player, w), false)
  }

  /** The first part of a frame spends fuel one burn per thruster and only
      while some is left, and stalls only in the air with a thruster
      pressed and the tank empty. */
  lemma MovedFuel(p: Player, keys: Keys, w: Setting)
    requires |w.terrain| > 0 && w.radius > 0.0
    ensures var s := Moved(p, keys, w);
      (s.stalled ==> !s.player.motion.grounded && (keys.up || keys.down) && s.player.fuel <= 0.0)
      && (s.player.fuel == p.fuel || s.player.fuel == p.fuel - BURN || s.player.fuel == p.fuel - 2.0 * BURN)
      && (s.player.fuel < p.fuel ==> p.fuel > 0.0 && (keys.up || keys.down))
      && (p.fuel > -BURN ==> s.player.fuel > -BURN)
  {
    var here := RenderedHeight(w.terrain, w.resolution, p.motion.angle - HALF_PI);
    var ready := Readied(p, Direction(keys), here);
    if ready.motion.grounded {
      assert Moved(p, keys, w) == Step(Walked(ready, Direction(keys), keys.jump, here, w), false);
      WalkedKeeps(ready, Direction(keys), keys.jump, here, w);
    } else {
      assert Moved(p, keys, w) == Flown(ready, keys, here, w);
      FlownFacts(ready, keys, here, w);
    }
  }

  /** The first part of a frame keeps the walk cycle in range, walks only
      with a direction key held and faces that way, and leaves the water
      flags. */
  lemma MovedKeeps(p: Player, keys: Keys, w: Setting)
    requires |w.terrain| > 0 && w.radius > 0.0
    ensures var s := Moved(p, keys, w);
      (p.gait.frame < 4 ==> s.player.gait.frame < 4)
      && (s.player.walking ==> Direction(keys) != 0 && s.player.facing != Front)
      && s.player.onIce == p.onIce && s.player.inWater == p.inWater
  {
    var here := RenderedHeight(w.terrain, w.resolution, p.motion.angle - HALF_PI);
    var ready := Readied(p, Direction(keys), here);
    if ready.motion.grounded {
      assert Moved(p, keys, w) == Step(Walked(ready, Direction(keys), keys.jump, here, w), false);
      WalkedKeeps(ready, Direction(keys), keys.jump, here, w);
    } else {
      assert Moved(p, keys, w) == Flown(ready, keys, here, w);
      FlownFacts(ready, keys, here, w);
    }
  }

  /** The surface branch spends no fuel, only stops walking, and leaves
      facing, the walk animation and the water flags. */
  lemma WalkedKeeps(p: Player, direction: int, jump: bool, here: real, w: Setting)
    requires |w.terrain| > 0
    ensures var r := Walked(p, direction, jump, here, w);
      r.fuel == p.fuel && (r.walking ==> p.walking) && r.facing == p.facing && r.gait == p.gait
      && r.onIce == p.onIce && r.inWater == p.inWater
  {
    WalkFollowsGround(p.motion, p.walking, direction, jump, here, w.speed, w.terrain, w.resolution);
  }

  /** The air branch spends fuel one burn per thruster and only while some
      is left, stalls only with a thruster pressed and the tank empty, stays
      in the air, and leaves walking, facing, the animation and the water
      flags. */
  lemma FlownFacts(p: Player, keys: Keys, here: real, w: Setting)
    requires |w.terrain| > 0 && w.radius > 0.0
    ensures var s := Flown(p, keys, here, w);
      (s.stalled ==> (keys.up || keys.down) && s.player.fuel <= 0.0)
      && (s.player.fuel == p.fuel || s.player.fuel == p.fuel - BURN || s.player.fuel == p.fuel - 2.0 * BURN)
      && (s.player.fuel < p.fuel ==> p.fuel > 0.0 && (keys.up || keys.down))
      && (p.fuel > -BURN ==> s.player.fuel > -BURN)
      && s.player == p.(motion := s.player.motion, fuel := s.player.fuel)
      && s.player.motion.grounded == p.motion.grounded
  {
    var glided := Glided(p.motion, Direction(keys), here, w.radius, w.gravity, w.terrain, w.resolution);
    GlideApproaches(p.motion, Direction(keys), here, w.radius, w.gravity, w.terrain, w.resolution);
    FuelAccounting(glided.vy, p.fuel, keys.up, keys.down, p.inWater, w.gravity);
  }

  /** The rest of a frame leaves the player at a normalised angle between
      the two limits, never both on ice and in water, and changes nothing
      but the motion and the water flags. */
  lemma LandedInRange(p: Player, w: Setting)
    requires |w.terrain| > 0 && w.floor <= w.ceiling
    ensures var r := Landed(p, w);
      0.0 <= r.motion.angle < TWO_PI && w.floor <= r.motion.height <= w.ceiling
      && !(r.onIce && r.inWater)
      && r == p.(motion := r.motion, onIce := r.onIce, inWater := r.inWater)
  {
    SoakedFacts(Descended(p.motion, p.inWater, w), w.hasWater, w.level, w.kind, w.gravity);
  }

  /** A whole frame: unless it stalls, the player ends at a normalised
      angle between the two limits and never both on ice and in water; it
      stalls only in the air with a thruster pressed and the tank empty;
      fuel is spent one burn per thruster and only while some is left; the
      walk cycle stays in range and runs only with a direction key held. */
  lemma FrameFacts(p: Player, keys: Keys, w: Setting)
    requires |w.terrain| > 0 && w.radius > 0.0 && w.floor <= w.ceiling
    ensures var s := Frame(p, keys, w);
      (!s.stalled ==> 0.0 <= s.player.motion.angle < TWO_PI && w.floor <= s.player.motion.height <= w.ceiling
                      && !(s.player.onIce && s.player.inWater))
      && (s.stalled ==> !s.player.motion.grounded && (keys.up || keys.down) && s.player.fuel <= 0.0)
      && (s.player.fuel == p.fuel || s.player.fuel == p.fuel - BURN || s.player.fuel == p.fuel - 2.0 * BURN)
      && (s.player.fuel < p.fuel ==> p.fuel > 0.0 && (keys.up || keys.down))
      && (p.fuel > -BURN ==> s.player.fuel > -BURN)
      && (p.gait.frame < 4 ==> s.player.gait.frame < 4)
      && (s.player.walking ==> Direction(keys) != 0 && s.player.facing != Front)
  {
    MovedFuel(p, keys, w);
    MovedKeeps(p, keys, w);
    LandedInRange(Moved(p, keys, w).player, w);
  }

  /** charCodeAt summed with weights 1, 2, 3, ...: the image's part of the
      terrain seed. */
  function ImageSeed(id: string): int
  {
    if |id| == 0 then 0 else ImageSeed(id[..|id| - 1]) + (id[|id| - 1] as int) * |id|
  }

  /** The terrain seed: mass * 1000 + radius * 100 + the image's part. */
  function TerrainSeed(mass: real, radius: real, id: string): real
  {
    mass * 1000.0 + radius * 100.0 + ImageSeed(id) as real
  }

  /** The terrain built from the generated points: features added, then
      two smoothing passes with half the terrain base as the floor. */
  function Generated(rough: seq<TerrainPoint>, seed: real, sin: real -> real, base: real, radius: real)
    : (t: seq<TerrainPoint>)
    requires |rough| >= 24
    ensures |t| == |rough|
  {
    var featured := Features(rough, FeatureCount(radius), seed, sin, base, radius);
    WithHeights(featured, Smoothed(Heights(featured), base * 0.5, 2))
  }

  /** Every generated height is at least half the terrain base and at most
      the highest featured point (or that floor, if higher); the points keep
      their angles and kinds. */
  lemma GeneratedAboveFloor(rough: seq<TerrainPoint>, seed: real, sin: real -> real, base: real, radius: real)
    requires |rough| >= 24
    ensures var featured := Features(rough, FeatureCount(radius), seed, sin, base, radius);
      var t := Generated(rough, seed, sin, base, radius);
      forall i | 0 <= i < |t| ::
        base * 0.5 <= t[i].height <= Max(Highest(Heights(featured)), base * 0.5)
        && t[i].angle == featured[i].angle && t[i].kind == featured[i].kind
  {
    var featured := Features(rough, FeatureCount(radius), seed, sin, base, radius);
    var hs := Heights(featured);
    SmoothedBounds(hs, base * 0.5, 2, Lowest(hs), Highest(hs));
  }

  /** The planet's figures the explorer works with: planet.radius and
      planet.mass, the image name, the view radius (ten times the planet's),
      gravity, the walking speed and the terrain base (half the view
      radius). */
  datatype Figures = Figures(size: real, mass: real, imageName: string, planetRadius: real, gravity: real,
                             moveSpeed: real, terrainBaseHeight: real)

  /** The constructor's figures for a planet: the view radius is ten times
      the planet's, gravity pulls by a fortieth of the mass, the walking
      speed is 2.5 over the view radius but at least 0.005. */
  function FiguresOf(radius: real, mass: real, imageId: string): (r: Figures)
    requires radius > 0.0
    ensures r.planetRadius > 0.0 && r.terrainBaseHeight == r.planetRadius * 0.5
    ensures 0.005 <= r.moveSpeed && (r.moveSpeed == 0.005 || r.moveSpeed * r.planetRadius == 2.5)
  {
    Figures(radius, mass, ImageName(imageId), radius * 10.0, -(mass / 40.0), Max(0.005, 2.5 / (radius * 10.0)),
            radius * 10.0 * 0.5)
  }

  /** The player as the exploration starts: standing still on the surface
      at angle 0, facing the viewer, with full EVA fuel. */
  const START: Player := Player(Motion(PLAYER_RADIUS, 0.0, 0.0, 0.0, true), false, false, false, Front, Gait(0, 0.0),
                                START_FUEL)

  /** What the constructor derives from the terrain: the rendering
      resolution, the height limit, and the water level and kind. */
  datatype Readings = Readings(resolution: nat, ceiling: real, level: real, kind: WaterType)

  /** The resolution for the number of points, the highest height plus the
      headroom, and, for an image with a water table entry, its water kind
      at the level set by its depth between the lowest and highest height;
      no water otherwise. */
  function SurveyOf(t: seq<TerrainPoint>, imageName: string, base: real): Readings
    requires |t| > 0
  {
    var hs := Heights(t);
    match DepthOf(imageName)
    case Some(depth) =>
      Readings(TerrainResolution(|t|), Highest(hs) + HEADROOM,
             WaterLevel(Lowest(hs), Highest(hs), base, depth.multiplier), depth.kind)
    case None => Readings(TerrainResolution(|t|), Highest(hs) + HEADROOM, 0.0, Dry)
  }

  /** The generated terrain keeps the even layout of the points it was
      generated from. */
  lemma GeneratedLaid(rough: seq<TerrainPoint>, seed: real, sin: real -> real, base: real, radius: real)
    requires |rough| >= 24 && EvenlyLaid(rough)
    ensures EvenlyLaid(Generated(rough, seed, sin, base, radius))
  {
    FeaturesKeepAngles(rough, FeatureCount(radius), seed, sin, base, radius);
    GeneratedAboveFloor(rough, seed, sin, base, radius);
    LaidAlike(rough, Generated(rough, seed, sin, base, radius));
  }

  // ---------------------------------------------------------------------
  // The exploration state.

  class PlanetExploration {
    /** planet.radius and planet.mass. */
    const size: real
    const mass: real
    /** The image name the water tables are read with. */
    const imageName: string
    /** radius * 10, the radius of the exploration view. */
    const planetRadius: real
    const gravity: real
    const moveSpeed: real
    /** Half the view radius: where the terrain starts. */
    const terrainBaseHeight: real

    var terrain: seq<TerrainPoint>
    var terrainResolution: nat
    var maxPlayerHeight: real
    var hasWater: bool
    var waterLevel: real
    var waterType: WaterType

    var playerHeight: real
    var playerWorldAngle: real
    var angleVelocity: real
    var velocityY: real
    var onSurface: bool
    var onIce: bool
    var inWater: bool
    var isWalking: bool
    var facing: Facing
    var animationFrame: nat
    var animationTimer: real
    var evaFuel: real

    /** The terrain has its points, the walk cycle is in range, and the
        ceiling is above the lowest place the player may stand. */
    predicate Valid()
      reads this
    {
      planetRadius > 0.0 && terrainBaseHeight == planetRadius * 0.5 && 180 <= |terrain| <= 1080
      && animationFrame < 4 && maxPlayerHeight >= MinimumHeight()
    }

    /** The lowest the player's centre may be: 0.3 of the terrain base plus
        the player's radius. */
    function MinimumHeight(): real
      reads this
    {
      terrainBaseHeight * 0.3 + PLAYER_RADIUS
    }

    function Now(): Motion
      reads this
    {
      Motion(playerHeight, playerWorldAngle, angleVelocity, velocityY, onSurface)
    }

    /** The part of the explorer a frame changes. */
    function State(): Player
      reads this
    {
      Player(Now(), onIce, inWater, isWalking, facing, Gait(animationFrame, animationTimer), evaFuel)
    }

    /** The player as the exploration starts: standing still on the surface
        at angle 0, facing the viewer, with full EVA fuel. */
    predicate AtStart()
      reads this
    {
      Player(Now(), onIce, inWater, isWalking, facing, Gait(animationFrame, animationTimer), evaFuel) == START
    }

    /** The planet's figures this explorer was built with. */
    function PlanetFigures(): Figures
    {
      Figures(size, mass, imageName, planetRadius, gravity, moveSpeed, terrainBaseHeight)
    }

    /** The rendering resolution, the ceiling and the water are those of the
        current terrain. */
    predicate Surveyed()
      requires |terrain| > 0
      reads this
    {
      Readings(terrainResolution, maxPlayerHeight, waterLevel, waterType) == SurveyOf(terrain, imageName, terrainBaseHeight)
    }

    /**
     * The constructor: the planet's figures, the water setting, the terrain
     * (from the points the noise generated, given as `rough`), its water
     * level, rendering resolution and height limit, and the player
     * standing at angle 0 with full fuel.
     */
    constructor (radius: real, planetMass: real, imageId: string, rough: seq<TerrainPoint>, sin: real -> real)
      requires radius > 0.0 && 180 <= |rough| <= 1080
      ensures Valid() && AtStart()
      ensures PlanetFigures() == FiguresOf(radius, planetMass, imageId)
      ensures terrain == Generated(rough, TerrainSeed(planetMass, radius, imageId), sin, terrainBaseHeight, size)
      ensures hasWater == (imageName in WATERY) && Surveyed()
      ensures Above(terrain, terrainBaseHeight * 0.5)
      ensures EvenlyLaid(rough) ==> EvenlyLaid(terrain)
    {
      var figures := FiguresOf(radius, planetMass, imageId);
      size := figures.size;
      mass := figures.mass;
      imageName := figures.imageName;
      planetRadius := figures.planetRadius;
      gravity := figures.gravity;
      moveSpeed := figures.moveSpeed;
      terrainBaseHeight := figures.terrainBaseHeight;
      terrain := rough;
      new;
      Open(rough, TerrainSeed(planetMass, radius, imageId), sin);
    }

    /** The constructor after the planet's figures are set: the player's
        starting state, then the water setting and the terrain. */
    method Open(rough: seq<TerrainPoint>, seed: real, sin: real -> real)
      requires planetRadius > 0.0 && terrainBaseHeight == planetRadius * 0.5 && 180 <= |rough| <= 1080
      modifies this
      ensures Valid() && AtStart()
      ensures terrain == Generated(rough, seed, sin, terrainBaseHeight, size)
      ensures hasWater == (imageName in WATERY) && Surveyed()
      ensures Above(terrain, terrainBaseHeight * 0.5)
      ensures EvenlyLaid(rough) ==> EvenlyLaid(terrain)
    {
      Stand();
      SetupWaterSystem();
      Prepare(rough, seed, sin);
    }

    /** The terrain steps of the constructor: generateTerrain, then the
        water level, rendering resolution and height limit of the result
        (the terrain itself is stated by GenerateTerrain). */
    method Prepare(rough: seq<TerrainPoint>, seed: real, sin: real -> real)
      requires |rough| >= 24
      requires hasWater == (imageName in WATERY) && waterLevel == 0.0 && waterType == Dry
      modifies this`terrain, this`terrainResolution, this`maxPlayerHeight, this`waterLevel, this`waterType
      ensures terrain == Generated(rough, seed, sin, terrainBaseHeight, size)
      ensures Above(terrain, terrainBaseHeight * 0.5)
      ensures EvenlyLaid(rough) ==> EvenlyLaid(terrain)
      ensures Surveyed() && maxPlayerHeight >= terrainBaseHeight * 0.5 + HEADROOM
    {
      GenerateTerrain(rough, seed, sin);
      if EvenlyLaid(rough) {
        GeneratedLaid(rough, seed, sin, terrainBaseHeight, size);
      }
      Survey();
    }

    /** The player's starting state. */
    method Stand()
      modifies this`playerHeight, this`playerWorldAngle, this`angleVelocity, this`velocityY, this`onSurface
      modifies this`onIce, this`inWater, this`isWalking, this`facing, this`animationFrame, this`animationTimer
      modifies this`evaFuel
      ensures AtStart()
    {
      playerHeight := PLAYER_RADIUS;
      playerWorldAngle := 0.0;
      angleVelocity := 0.0;
      velocityY := 0.0;
      onSurface := true;
      onIce := false;
      inWater := false;
      isWalking := false;
      facing := Front;
      animationFrame := 0;
      animationTimer := 0.0;
      evaFuel := START_FUEL;
    }

    /** The constructor's last steps: the water level, the rendering
        resolution and the height limit of the terrain just generated. */
    method Survey()
      requires |terrain| > 0 && Above(terrain, terrainBaseHeight * 0.5)
      requires hasWater == (imageName in WATERY) && waterLevel == 0.0 && waterType == Dry
      modifies this`terrainResolution, this`maxPlayerHeight, this`waterLevel, this`waterType
      ensures Surveyed() && maxPlayerHeight >= terrainBaseHeight * 0.5 + HEADROOM
    {
      CalculateTerrainBasedWaterLevels();
      CalculateTerrainResolution();
      CalculateMaxPlayerHeight();
      WateryHasDepth(imageName);
      assert Highest(Heights(terrain)) >= Heights(terrain)[0] >= terrainBaseHeight * 0.5;
    }

    /** generateTerrain after the noise: features, then two smoothing
        passes; no height ends below half the terrain base. */
    method GenerateTerrain(rough: seq<TerrainPoint>, seed: real, sin: real -> real)
      requires |rough| >= 24
      modifies this`terrain
      ensures terrain == Generated(rough, seed, sin, terrainBaseHeight, size)
      ensures Above(terrain, terrainBaseHeight * 0.5)
    {
      terrain := rough;
      AddTerrainFeatures(FeatureCount(size), seed, sin);
      SmoothTerrain(2);
      GeneratedAboveFloor(rough, seed, sin, terrainBaseHeight, size);
    }

    /** setupWaterSystem's effect on the water fields. */
    method SetupWaterSystem()
      modifies this`hasWater, this`waterLevel, this`waterType
      ensures hasWater == (imageName in WATERY) && waterLevel == 0.0 && waterType == Dry
    {
      hasWater := imageName in WATERY;
      waterLevel := 0.0;
      waterType := Dry;
    }

    /** smoothTerrain: `passes` smoothing passes over the terrain. */
    method SmoothTerrain(passes: nat)
      modifies this`terrain
      ensures terrain == WithHeights(old(terrain), Smoothed(Heights(old(terrain)), terrainBaseHeight * 0.5, passes))
    {
      var floor := terrainBaseHeight * 0.5;
      ghost var start := terrain;
      var pass := 0;
      while pass < passes
        invariant pass <= passes
        invariant terrain == WithHeights(start, Smoothed(Heights(start), floor, pass))
      {
        ghost var before := terrain;
        SmoothOnce();
        ReHeight(start, Smoothed(Heights(start), floor, pass), Smoothed(Heights(start), floor, pass + 1));
        pass := pass + 1;
      }
    }

    /** One pass: every smoothed height from the heights before the pass,
        then all of them applied. */
    method SmoothOnce()
      modifies this`terrain
      ensures terrain == WithHeights(old(terrain), SmoothPass(Heights(old(terrain)), terrainBaseHeight * 0.5))
    {
      var smoothed := SmoothHeights(terrain, terrainBaseHeight * 0.5);
      ApplyHeights(smoothed);
    }

    /** The pass's first loop: each point's height from the heights before
        the pass, its neighbours wrapping around the ring. */
    static method SmoothHeights(t: seq<TerrainPoint>, floor: real) returns (smoothed: seq<real>)
      ensures smoothed == SmoothPass(Heights(t), floor)
    {
      var n := |t|;
      smoothed := [];
      var i := 0;
      while i < n
        invariant i <= n && |smoothed| == i
        invariant forall k | 0 <= k < i :: smoothed[k] == SmoothedHeight(Heights(t), k, floor)
      {
        var prevIndex := (i - 1 + n) % n;
        var nextIndex := (i + 1) % n;
        var height := t[i].height * 0.5 + t[prevIndex].height * 0.25 + t[nextIndex].height * 0.25;
        smoothed := smoothed + [Max(height, floor)];
        i := i + 1;
      }
    }

    /** The pass's second loop: the new heights written point by point. */
    method ApplyHeights(smoothed: seq<real>)
      requires |smoothed| == |terrain|
      modifies this`terrain
      ensures terrain == WithHeights(old(terrain), smoothed)
    {
      ghost var start := terrain;
      var n := |terrain|;
      var i := 0;
      while i < n
        invariant i <= n && |terrain| == n
        invariant forall k | 0 <= k < i :: terrain[k] == start[k].(height := smoothed[k])
        invariant forall k | i <= k < n :: terrain[k] == start[k]
      {
        terrain := terrain[i := terrain[i].(height := smoothed[i])];
        i := i + 1;
      }
    }

    /** addTerrainFeatures: features 0 .. count - 1 applied in turn. */
    method AddTerrainFeatures(count: nat, seed: real, sin: real -> real)
      requires |terrain| >= 24
      modifies this`terrain
      ensures terrain == Features(old(terrain), count, seed, sin, terrainBaseHeight, size)
      ensures terrainBaseHeight >= 0.0 && Above(old(terrain), terrainBaseHeight * 0.3) ==>
                Above(terrain, terrainBaseHeight * 0.3)
    {
      ghost var start := terrain;
      var i := 0;
      while i < count
        invariant i <= count
        invariant terrain == Features(start, i, seed, sin, terrainBaseHeight, size)
      {
        AddFeature(i, seed, sin);
        i := i + 1;
      }
      if terrainBaseHeight >= 0.0 && Above(start, terrainBaseHeight * 0.3) {
        FeaturesKeepFloor(start, count, seed, sin, terrainBaseHeight, size, terrain);
      }
    }

    /** Feature i: a mountain or crater around a random point, strongest at
        its centre. */
    method AddFeature(i: nat, seed: real, sin: real -> real)
      requires |terrain| >= 24
      modifies this`terrain
      ensures terrain == Feature(old(terrain), i, seed, sin, terrainBaseHeight, size)
    {
      ghost var start := terrain;
      var n := |terrain|;
      var featureIndex := FeatureIndex(SeededRandom(seed, sin, i + 500), n);
      var featureSize := FeatureSize(SeededRandom(seed, sin, i + 600));
      var j := -featureSize;
      while j <= featureSize
        invariant -featureSize <= j <= featureSize + 1
        invariant terrain == Sweep(start, i, j + featureSize, seed, sin, terrainBaseHeight, size)
      {
        TargetOnRing(featureIndex, j, n);
        var targetIndex := JsIntRem(featureIndex + j + n, n);
        var impact := Impact(j, featureSize);
        if SeededRandom(seed, sin, i + 700) > 0.5 {
          terrain := terrain[targetIndex := Raise(terrain[targetIndex], impact, terrainBaseHeight, size)];
        } else {
          terrain := terrain[targetIndex := Dig(terrain[targetIndex], impact, terrainBaseHeight)];
        }
        j := j + 1;
      }
    }

    /** calculateTerrainResolution. */
    method CalculateTerrainResolution()
      modifies this`terrainResolution
      ensures terrainResolution == TerrainResolution(|terrain|)
    {
      var n := |terrain|;
      if n <= 240 {
        terrainResolution := 2;
      } else if n <= 480 {
        terrainResolution := 3;
      } else if n <= 720 {
        terrainResolution := 4;
      } else {
        terrainResolution := if n / 180 > 4 then n / 180 else 4;
      }
    }

    /** calculateMaxPlayerHeight: 1000 above the highest terrain point. */
    method CalculateMaxPlayerHeight()
      requires |terrain| > 0
      modifies this`maxPlayerHeight
      ensures maxPlayerHeight == Highest(Heights(terrain)) + HEADROOM
    {
      var hs := Heights(terrain);
      var highest := hs[0];
      var i := 1;
      while i < |hs|
        invariant 1 <= i <= |hs| && highest == Highest(hs[..i])
      {
        Extend(hs, i);
        highest := Max(highest, hs[i]);
        i := i + 1;
      }
      assert hs[..|hs|] == hs;
      maxPlayerHeight := highest + HEADROOM;
    }

    /** calculateTerrainBasedWaterLevels: for a planet with water, the
        level and type from the lowest and highest terrain points and the
        image's depth entry. */
    method CalculateTerrainBasedWaterLevels()
      requires |terrain| > 0
      modifies this`waterLevel, this`waterType
      ensures hasWater && DepthOf(imageName).Some? ==>
        waterType == DepthOf(imageName).value.kind
        && waterLevel == WaterLevel(Lowest(Heights(terrain)), Highest(Heights(terrain)), terrainBaseHeight,
                                    DepthOf(imageName).value.multiplier)
      ensures !(hasWater && DepthOf(imageName).Some?) ==> waterLevel == old(waterLevel) && waterType == old(waterType)
    {
      if !hasWater {
        return;
      }
      var minHeight, maxHeight := HeightRange();
      var depthConfig := DepthOf(imageName);
      if depthConfig.Some? {
        waterLevel := WaterLevel(minHeight, maxHeight, terrainBaseHeight, depthConfig.value.multiplier);
        waterType := depthConfig.value.kind;
      }
    }

    /** The lowest and highest terrain heights, in one pass. */
    method HeightRange() returns (minHeight: real, maxHeight: real)
      requires |terrain| > 0
      ensures minHeight == Lowest(Heights(terrain)) && maxHeight == Highest(Heights(terrain))
    {
      var hs := Heights(terrain);
      minHeight, maxHeight := hs[0], hs[0];
      var i := 1;
      while i < |hs|
        invariant 1 <= i <= |hs| && minHeight == Lowest(hs[..i]) && maxHeight == Highest(hs[..i])
      {
        Extend(hs, i);
        minHeight := Min(minHeight, hs[i]);
        maxHeight := Max(maxHeight, hs[i]);
        i := i + 1;
      }
      assert hs[..|hs|] == hs;
    }

    /**
     * getRenderedTerrainHeightAtAngle: the height of the rendered point
     * (every Stride-th) nearest to the normalised angle. The scan's first
     * comparison, against an infinite distance, always picks point 0; it is
     * taken before the loop.
     */
    method RenderedTerrainHeightAtAngle(angle: real) returns (h: real)
      requires |terrain| > 0
      ensures h == RenderedHeight(terrain, terrainResolution, angle)
    {
      var normalized := NormalizeAngle(angle);
      var resolution := Stride(terrainResolution);
      var closestIndex := 0;
      var closestDistance := AngleGap(terrain[0].angle, normalized);
      var i := resolution;
      while i < |terrain|
        invariant i > 0 && OnStride(i, resolution) && i - resolution < |terrain|
        invariant closestIndex == Nearest(terrain, resolution, normalized, i)
        invariant closestDistance == AngleGap(terrain[closestIndex].angle, normalized)
        invariant Scan(terrain, resolution, normalized, i) == Closest(terrain, resolution, normalized)
        decreases |terrain| - i
      {
        var angleDiff := AngleGap(terrain[i].angle, normalized);
        if angleDiff < closestDistance {
          closestDistance := angleDiff;
          closestIndex := i;
        }
        i := i + resolution;
      }
      h := terrain[closestIndex].height;
    }

    // -------------------------------------------------------------------
    // updateExploration and its phases.

    /** The walk animation for this frame's direction. */
    method Animate(direction: int)
      modifies this`isWalking, this`facing, this`animationFrame, this`animationTimer
      ensures isWalking == (direction != 0) && facing == FacingOf(direction)
      ensures Gait(animationFrame, animationTimer) == Animated(isWalking, old(animationFrame), old(animationTimer))
    {
      isWalking := direction != 0;
      if direction < 0 {
        facing := Left;
      } else if direction > 0 {
        facing := Right;
      } else {
        facing := Front;
        animationFrame := 0;
      }
      if isWalking {
        animationTimer := animationTimer + ANIMATION_SPEED;
        if animationTimer >= 1.0 {
          animationTimer := 0.0;
          animationFrame := (animationFrame + 1) % 4;
        }
      } else {
        animationTimer := 0.0;
        animationFrame := 0;
      }
    }

    /** The surface branch: steering, the predictive step, following the
        ground at `here`, and the jump. */
    method WalkOnSurface(direction: int, jump: bool, here: real)
      requires |terrain| > 0 && here == RenderedHeight(terrain, terrainResolution, playerWorldAngle - HALF_PI)
      modifies this`playerHeight, this`playerWorldAngle, this`angleVelocity, this`velocityY, this`onSurface,
               this`isWalking
      ensures Pace(Now(), isWalking)
        == Walk(old(Now()), old(isWalking), direction, jump, here, moveSpeed, terrain, terrainResolution)
    {
      Steer(direction);
      if Abs(angleVelocity) > 0.0001 {
        var proposedTerrainHeight := RenderedTerrainHeightAtAngle(playerWorldAngle + angleVelocity - HALF_PI);
        var currentTerrainHeight := RenderedTerrainHeightAtAngle(playerWorldAngle - HALF_PI);
        StepOnSurface(proposedTerrainHeight - currentTerrainHeight);
      }
      FollowGround(here);
      if jump {
        Jump();
      }
    }

    /** Acceleration toward direction * moveSpeed, by at most the maximum
        angular acceleration, and damping when no key is held. */
    method Steer(direction: int)
      modifies this`angleVelocity
      ensures angleVelocity == Steered(old(angleVelocity), direction, moveSpeed)
    {
      var targetAngularVelocity := direction as real * moveSpeed;
      angleVelocity := Approach(angleVelocity, targetAngularVelocity, MAX_ANGULAR_ACCELERATION);
      if direction == 0 {
        angleVelocity := angleVelocity * ANGLE_DAMPING;
      }
    }

    /** Following the ground: the smoothing factor grows with the gap. */
    method FollowGround(here: real)
      modifies this`playerHeight
      ensures playerHeight == Followed(old(playerHeight), here)
    {
      var targetPlayerHeight := here + PLAYER_RADIUS;
      var heightDifference := Abs(targetPlayerHeight - playerHeight);
      var smoothingFactor := 0.2;
      if heightDifference > PLAYER_RADIUS * 0.5 {
        smoothingFactor := 0.4;
      }
      if heightDifference > PLAYER_RADIUS {
        smoothingFactor := 0.6;
      }
      assert smoothingFactor == FollowFactor(heightDifference);
      playerHeight := playerHeight * (1.0 - smoothingFactor) + targetPlayerHeight * smoothingFactor;
    }

    /** The jump. */
    method Jump()
      modifies this`velocityY, this`onSurface, this`angleVelocity
      ensures Now() == Jumped(old(Now()))
    {
      velocityY := -JUMP_POWER;
      onSurface := false;
      angleVelocity := angleVelocity * 0.7;
    }

    /** The predictive step on the surface for the rise just ahead: a
        cliff blocks it, a steep rise resists it, anything else lets the
        player move on. */
    method StepOnSurface(slope: real)
      modifies this`playerWorldAngle, this`angleVelocity, this`velocityY, this`isWalking
      ensures Pace(Now(), isWalking) == Stepped(old(Now()), old(isWalking), slope)
    {
      var rising := slope > 0.0;
      if rising && Abs(slope) > CLIMB_LIMIT {
        BlockAtCliff(slope);
      } else if rising && Abs(slope) > WALK_LIMIT {
        ClimbSteep(slope);
      } else {
        MoveOn(slope);
      }
    }

    /** A cliff ahead: the spin almost stops, the walk animation stops, and
        a still-noticeable spin gets a small vertical nudge. */
    method BlockAtCliff(slope: real)
      requires slope > 0.0 && Abs(slope) > CLIMB_LIMIT
      modifies this`angleVelocity, this`velocityY, this`isWalking
      ensures Pace(Now(), isWalking) == Stepped(old(Now()), old(isWalking), slope)
    {
      angleVelocity := angleVelocity * 0.05;
      isWalking := false;
      if Abs(angleVelocity) > 0.005 {
        velocityY := velocityY + 0.5;
      }
    }

    /** A steep rise ahead: the spin is reduced by the steepness, and the
        player moves only if some spin is left. */
    method ClimbSteep(slope: real)
      requires slope > 0.0 && WALK_LIMIT < Abs(slope) <= CLIMB_LIMIT
      modifies this`playerWorldAngle, this`angleVelocity, this`velocityY, this`isWalking
      ensures Pace(Now(), isWalking) == Stepped(old(Now()), old(isWalking), slope)
    {
      ghost var m, walking := Now(), isWalking;
      var slopeResistance := Abs(slope) / CLIMB_LIMIT;
      angleVelocity := angleVelocity * (1.0 - slopeResistance * 0.8);
      assert Stepped(m, walking, slope).motion.spin == angleVelocity;
      var canMove := Abs(angleVelocity) > 0.001;
      if canMove {
        assert Stepped(m, walking, slope).motion.angle == NormalizeAngle(playerWorldAngle + angleVelocity);
        assert Stepped(m, walking, slope).walking == walking;
        playerWorldAngle := NormalizeAngle(playerWorldAngle + angleVelocity);
        velocityY := velocityY * 0.9;
      } else {
        isWalking := false;
      }
    }

    /** Level ground, a descent or a gentle rise: the player moves by the
        spin and the vertical velocity is reduced. */
    method MoveOn(slope: real)
      requires !(slope > 0.0 && Abs(slope) > WALK_LIMIT)
      modifies this`playerWorldAngle, this`velocityY
      ensures Pace(Now(), isWalking) == Stepped(old(Now()), isWalking, slope)
    {
      playerWorldAngle := NormalizeAngle(playerWorldAngle + angleVelocity);
      velocityY := velocityY * 0.9;
    }

    /** The air branch before the thrusters. */
    method Glide(direction: int, here: real)
      requires |terrain| > 0 && planetRadius > 0.0
      requires here == RenderedHeight(terrain, terrainResolution, playerWorldAngle - HALF_PI)
      modifies this`playerWorldAngle, this`angleVelocity, this`velocityY
      ensures Now() == Glided(old(Now()), direction, here, planetRadius, gravity, terrain, terrainResolution)
    {
      AirSteer(direction);
      if Abs(angleVelocity) > 0.0001 {
        var proposedTerrainHeight := RenderedTerrainHeightAtAngle(playerWorldAngle + angleVelocity - HALF_PI);
        var currentTerrainHeight := RenderedTerrainHeightAtAngle(playerWorldAngle - HALF_PI);
        Drift(currentTerrainHeight, proposedTerrainHeight);
      }
    }

    /** Gravity and the slow air control. */
    method AirSteer(direction: int)
      requires planetRadius > 0.0
      modifies this`angleVelocity, this`velocityY
      ensures Now() == AirSteered(old(Now()), direction, planetRadius, gravity)
    {
      velocityY := velocityY + gravity;
      var airControl := 1.0 / planetRadius;
      var targetAirVelocity := direction as real * airControl;
      angleVelocity := angleVelocity * 0.9 + targetAirVelocity * 0.1;
    }

    /** The predictive step in the air, between the ground under the player
        and the ground ahead. */
    method Drift(current: real, proposed: real)
      modifies this`playerWorldAngle, this`angleVelocity, this`velocityY
      ensures Now() == AirDrifted(old(Now()), current, proposed, planetRadius)
    {
      var proposedPlayerBottom := (planetRadius + playerHeight) - PLAYER_RADIUS;
      var proposedSurfaceHeight := planetRadius + proposed;
      var terrainSlopeChange := proposed - current;
      var isSteppingIntoUpwardCliff := terrainSlopeChange > 0.0 && Abs(terrainSlopeChange) > CLIMB_LIMIT;
      var canMove := true;
      if isSteppingIntoUpwardCliff && proposedPlayerBottom <= proposedSurfaceHeight + PLAYER_RADIUS {
        canMove := false;
        angleVelocity := angleVelocity * 0.1;
        velocityY := velocityY - 0.5;
      }
      if canMove {
        playerWorldAngle := playerWorldAngle + angleVelocity;
      }
    }

    /** The W and S thrusters; `stalled` is the early return. */
    method Thrust(up: bool, down: bool) returns (stalled: bool)
      modifies this`velocityY, this`evaFuel
      ensures Burn(velocityY, evaFuel, stalled) == Burned(old(velocityY), old(evaFuel), up, down, inWater, gravity)
    {
      var verticalAirControl := gravity - 0.01;
      if up {
        if evaFuel <= 0.0 {
          return true;
        }
        var thrustForce := if inWater then verticalAirControl * 0.9 else verticalAirControl;
        velocityY := velocityY - thrustForce;
        evaFuel := evaFuel - BURN;
      }
      if down {
        if evaFuel <= 0.0 {
          return true;
        }
        velocityY := velocityY + verticalAirControl;
        evaFuel := evaFuel - BURN;
      }
      stalled := false;
    }

    /** The vertical move, then drag, then the water's extra resistance
        (by the flag from the previous frame). */
    method Fall()
      modifies this`playerHeight, this`velocityY
      ensures playerHeight == old(playerHeight + velocityY)
      ensures velocityY == if inWater then Drag(old(velocityY)) * 0.95 else Drag(old(velocityY))
    {
      playerHeight := playerHeight + velocityY;
      var speed := Abs(velocityY);
      var dragCoefficient := 0.02 + 0.001 * speed;
      if velocityY > 0.0 {
        velocityY := velocityY * (1.0 - dragCoefficient);
      } else if velocityY < 0.0 {
        velocityY := velocityY * (1.0 - dragCoefficient);
      }
      if inWater {
        velocityY := velocityY * 0.95;
      }
    }

    /** The terrain collision under the player. */
    method CollideWithTerrain()
      requires |terrain| > 0
      modifies this`playerHeight, this`angleVelocity, this`velocityY, this`onSurface
      ensures Now() == Settled(old(Now()),
                               RenderedHeight(terrain, terrainResolution, old(playerWorldAngle) - HALF_PI),
                               RenderedHeight(terrain, terrainResolution,
                                              old(playerWorldAngle) + old(angleVelocity) * 10.0 - HALF_PI))
    {
      var currentTerrainHeight := RenderedTerrainHeightAtAngle(playerWorldAngle - HALF_PI);
      var lookAheadTerrainHeight := RenderedTerrainHeightAtAngle(playerWorldAngle + angleVelocity * 10.0 - HALF_PI);
      var currentSurfaceHeight := planetRadius + currentTerrainHeight;
      var currentPlayerBottom := (planetRadius + playerHeight) - PLAYER_RADIUS;
      if currentPlayerBottom <= currentSurfaceHeight {
        var targetPlayerHeight := currentTerrainHeight + PLAYER_RADIUS;
        var heightDifference := targetPlayerHeight - playerHeight;
        var slopeChange := lookAheadTerrainHeight - currentTerrainHeight;
        var isMovingUpSlope := heightDifference > 0.0 && Abs(angleVelocity) > 0.001;
        var isSteepSlope := Abs(slopeChange) > WALK_LIMIT;
        var isVerySteepSlope := Abs(slopeChange) > CLIMB_LIMIT;
        if isMovingUpSlope && isSteepSlope && onSurface {
          if isVerySteepSlope {
            StopAtLedge(currentTerrainHeight, lookAheadTerrainHeight);
          } else {
            ClimbSlope(currentTerrainHeight, lookAheadTerrainHeight);
          }
        } else if Abs(heightDifference) <= PLAYER_RADIUS * 0.5 && onSurface {
          EaseOntoGround(currentTerrainHeight, lookAheadTerrainHeight);
        } else {
          PlaceOnGround(currentTerrainHeight, lookAheadTerrainHeight);
        }
        ComeToRest();
      }
    }

    /** Walking up a slope too steep to climb: held at the ground's level,
        the spin cut to a tenth, no sinking, and a nudge if still turning. */
    method StopAtLedge(ground: real, ahead: real)
      requires ground + PLAYER_RADIUS - playerHeight > 0.0 && Abs(angleVelocity) > 0.001 && onSurface
      requires Abs(ahead - ground) > CLIMB_LIMIT
      modifies this`playerHeight, this`angleVelocity, this`velocityY
      ensures Now() == Placed(old(Now()), ground, ahead)
    {
      angleVelocity := angleVelocity * 0.1;
      playerHeight := ground + PLAYER_RADIUS;
      velocityY := Max(0.0, velocityY);
      if Abs(angleVelocity) > 0.01 {
        velocityY := velocityY + 1.0;
      }
    }

    /** Walking up a steep but climbable slope: a slow climb toward the
        ground's level that is slower and costs more spin the steeper it
        is. */
    method ClimbSlope(ground: real, ahead: real)
      requires ground + PLAYER_RADIUS - playerHeight > 0.0 && Abs(angleVelocity) > 0.001 && onSurface
      requires WALK_LIMIT < Abs(ahead - ground) <= CLIMB_LIMIT
      modifies this`playerHeight, this`angleVelocity, this`velocityY
      ensures Now() == Placed(old(Now()), ground, ahead)
    {
      var targetPlayerHeight := ground + PLAYER_RADIUS;
      var climbEffort := Abs(ahead - ground) / CLIMB_LIMIT;
      var climbSpeed := 0.15 * (1.0 - climbEffort * 0.7);
      playerHeight := playerHeight * (1.0 - climbSpeed) + targetPlayerHeight * climbSpeed;
      angleVelocity := angleVelocity * (1.0 - climbEffort * 0.3);
      velocityY := velocityY * 0.8;
    }

    /** On the surface and within half a radius of the ground: eased onto
        it. */
    method EaseOntoGround(ground: real, ahead: real)
      requires !(ground + PLAYER_RADIUS - playerHeight > 0.0 && Abs(angleVelocity) > 0.001
                 && Abs(ahead - ground) > WALK_LIMIT && onSurface)
      requires Abs(ground + PLAYER_RADIUS - playerHeight) <= PLAYER_RADIUS * 0.5 && onSurface
      modifies this`playerHeight, this`velocityY
      ensures Now() == Placed(old(Now()), ground, ahead)
    {
      var targetPlayerHeight := ground + PLAYER_RADIUS;
      var adjustSpeed := 0.4;
      playerHeight := playerHeight * (1.0 - adjustSpeed) + targetPlayerHeight * adjustSpeed;
      velocityY := velocityY * 0.7;
    }

    /** Any other contact (from the air, or far from the ground): placed on
        the ground, bouncing back at 30% of the speed. */
    method PlaceOnGround(ground: real, ahead: real)
      requires !(ground + PLAYER_RADIUS - playerHeight > 0.0 && Abs(angleVelocity) > 0.001
                 && Abs(ahead - ground) > WALK_LIMIT && onSurface)
      requires !(Abs(ground + PLAYER_RADIUS - playerHeight) <= PLAYER_RADIUS * 0.5 && onSurface)
      modifies this`playerHeight, this`velocityY
      ensures Now() == Placed(old(Now()), ground, ahead)
    {
      playerHeight := ground + PLAYER_RADIUS;
      velocityY := velocityY * -0.3;
    }

    /** A small vertical speed comes to rest on the surface. */
    method ComeToRest()
      modifies this`velocityY, this`onSurface
      ensures Now() == Rested(old(Now()))
    {
      if Abs(velocityY) < 1.0 {
        velocityY := 0.0;
        onSurface := true;
      }
    }

    /** The water interaction. */
    method MeetWater()
      modifies this`playerHeight, this`angleVelocity, this`velocityY, this`onSurface, this`onIce, this`inWater
      ensures Soak(Now(), onIce, inWater) == Soaked(old(Now()), hasWater, waterLevel, waterType, gravity)
    {
      inWater := false;
      onIce := false;
      if hasWater {
        var waterHeight := waterLevel;
        var currentPlayerBottom := playerHeight - PLAYER_RADIUS;
        var currentPlayerTop := playerHeight + PLAYER_RADIUS;
        if waterType == Frozen {
          if currentPlayerBottom <= waterHeight + 2.0 {
            onIce := true;
            if currentPlayerBottom <= waterHeight {
              playerHeight := waterHeight + PLAYER_RADIUS;
              velocityY := Max(0.0, velocityY);
              onSurface := true;
              angleVelocity := angleVelocity * 0.999;
            }
          }
        } else if currentPlayerBottom <= waterHeight {
          inWater := true;
          if waterType == Ocean {
            var submersionRatio := Min(1.0, (waterHeight - currentPlayerBottom) / (PLAYER_RADIUS * 2.0));
            var buoyancy := -gravity * 0.8 * submersionRatio;
            velocityY := velocityY + buoyancy;
            velocityY := velocityY * 0.95;
            angleVelocity := angleVelocity * 0.98;
            if currentPlayerTop < waterHeight && velocityY < 0.0 {
              velocityY := velocityY * 0.5;
            }
          }
        }
      }
    }

    /** The two safety limits on the height. */
    method KeepInRange()
      modifies this`playerHeight, this`velocityY
      ensures Now() == Clamped(old(Now()), MinimumHeight(), maxPlayerHeight)
    {
      var minimumTerrainHeight := terrainBaseHeight * 0.3;
      if playerHeight < minimumTerrainHeight + PLAYER_RADIUS {
        playerHeight := minimumTerrainHeight + PLAYER_RADIUS;
        velocityY := 0.0;
      }
      if playerHeight > maxPlayerHeight {
        playerHeight := maxPlayerHeight;
        velocityY := Min(0.0, velocityY);
      }
    }

    /**
     * updateExploration: one frame of the explorer, which leaves the
     * player as Frame says (FrameFacts states what that promises), and
     * reports Escape unless the frame stalled.
     */
    method UpdateExploration(keys: Keys) returns (outcome: Outcome)
      requires Valid()
      modifies this`playerHeight, this`playerWorldAngle, this`angleVelocity, this`velocityY, this`onSurface,
               this`onIce, this`inWater, this`isWalking, this`facing, this`animationFrame, this`animationTimer,
               this`evaFuel
      ensures Valid()
      ensures Step(State(), outcome == Stalled)
        == Frame(old(State()), keys, Setting(terrain, terrainResolution, planetRadius, gravity, moveSpeed, hasWater,
                                             waterLevel, waterType, MinimumHeight(), maxPlayerHeight))
      ensures outcome == Exited <==> outcome != Stalled && keys.escape
    {
      var stalled := Move(keys);
      if stalled {
        return Stalled;
      }
      Settle();
      outcome := if keys.escape then Exited else Finished;
    }

    /** The first part of a step: the surface check, the walking animation,
        then walking on the surface or gliding and thrusting in the air; a
        jetpack with no fuel stalls the step. */
    method Move(keys: Keys) returns (stalled: bool)
      requires Valid()
      modifies this`playerHeight, this`playerWorldAngle, this`angleVelocity, this`velocityY, this`onSurface,
               this`isWalking, this`facing, this`animationFrame, this`animationTimer, this`evaFuel
      ensures Valid()
      ensures Step(State(), stalled) == Moved(old(State()), keys, Setting(terrain, terrainResolution, planetRadius,
                                                                          gravity, moveSpeed, hasWater, waterLevel,
                                                                          waterType, MinimumHeight(),
                                                                          maxPlayerHeight))
    {
      var here := RenderedTerrainHeightAtAngle(playerWorldAngle - HALF_PI);
      var direction := Direction(keys);
      Ready(direction, here);
      stalled := false;
      if onSurface {
        OnFoot(direction, keys.jump, here);
      } else {
        stalled := InAir(keys, here);
      }
    }

    /** The surface check and the walk animation. */
    method Ready(direction: int, here: real)
      modifies this`onSurface, this`isWalking, this`facing, this`animationFrame, this`animationTimer
      ensures State() == Readied(old(State()), direction, here)
    {
      onSurface := OnGround(playerHeight, here);
      Animate(direction);
    }

    /** The surface branch. */
    method OnFoot(direction: int, jump: bool, here: real)
      requires |terrain| > 0 && here == RenderedHeight(terrain, terrainResolution, playerWorldAngle - HALF_PI)
      modifies this`playerHeight, this`playerWorldAngle, this`angleVelocity, this`velocityY, this`onSurface,
               this`isWalking
      ensures State() == Walked(old(State()), direction, jump, here,
                                Setting(terrain, terrainResolution, planetRadius, gravity, moveSpeed, hasWater,
                                        waterLevel, waterType, MinimumHeight(), maxPlayerHeight))
    {
      WalkOnSurface(direction, jump, here);
    }

    /** The air branch; `stalled` is the thrusters' early return. */
    method InAir(keys: Keys, here: real) returns (stalled: bool)
      requires |terrain| > 0 && planetRadius > 0.0
      requires here == RenderedHeight(terrain, terrainResolution, playerWorldAngle - HALF_PI)
      modifies this`playerWorldAngle, this`angleVelocity, this`velocityY, this`evaFuel
      ensures Step(State(), stalled) == Flown(old(State()), keys, here,
                                              Setting(terrain, terrainResolution, planetRadius, gravity, moveSpeed,
                                                      hasWater, waterLevel, waterType, MinimumHeight(),
                                                      maxPlayerHeight))
    {
      Glide(Direction(keys), here);
      stalled := Thrust(keys.up, keys.down);
    }

    /** The rest of a step: gravity, the terrain, the water, the safety
        limits and the angle brought back into [0, 2 pi). */
    method Settle()
      requires Valid()
      modifies this`playerHeight, this`playerWorldAngle, this`angleVelocity, this`velocityY, this`onSurface,
               this`onIce, this`inWater
      ensures State() == Landed(old(State()), Setting(terrain, terrainResolution, planetRadius, gravity, moveSpeed,
                                                      hasWater, waterLevel, waterType, MinimumHeight(),
                                                      maxPlayerHeight))
    {
      Descend();
      Emerge();
    }

    /** Gravity and the terrain collision. */
    method Descend()
      requires |terrain| > 0
      modifies this`playerHeight, this`angleVelocity, this`velocityY, this`onSurface
      ensures Now() == Descended(old(Now()), inWater, Setting(terrain, terrainResolution, planetRadius, gravity,
                                                               moveSpeed, hasWater, waterLevel, waterType,
                                                               MinimumHeight(), maxPlayerHeight))
    {
      Fall();
      CollideWithTerrain();
    }

    /** The water, the safety limits and the normalised angle. */
    method Emerge()
      modifies this`playerHeight, this`playerWorldAngle, this`angleVelocity, this`velocityY, this`onSurface,
               this`onIce, this`inWater
      ensures State() == Emerged(old(State()), old(Now()), Setting(terrain, terrainResolution, planetRadius, gravity,
                                                                  moveSpeed, hasWater, waterLevel, waterType,
                                                                  MinimumHeight(), maxPlayerHeight))
    {
      MeetWater();
      KeepInRange();
      playerWorldAngle := NormalizeAngle(playerWorldAngle);
    }
  }

  /** Heights set twice: the second setting wins. */
  lemma ReHeight(t: seq<TerrainPoint>, a: seq<real>, b: seq<real>)
    requires |a| == |t| && |b| == |t|
    ensures WithHeights(WithHeights(t, a), b) == WithHeights(t, b)
  {
  }
}
