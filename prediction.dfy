/**
 * The radar's orbit prediction (main.js, predictAllPlanetOrbits and
 * predictOrbit): copies of the stars and planets are stepped forward
 * together, each step taking the Barnes-Hut forces of all copies (stars
 * first, then planets) and moving every copy by one semi-implicit Euler
 * step; every other step the planets' positions are recorded.
 */
module Prediction {
  import opened Numerics
  import opened Bodies
  import opened BarnesHut

  /** The simulation copies of the stars and the planets. */
  datatype Sky = Sky(stars: seq<Orb>, planets: seq<Orb>)

  /** Every copy has a non-negative mass, as the tree's insertion needs. */
  predicate Massive(orbs: seq<Orb>)
  {
    forall k | 0 <= k < |orbs| :: orbs[k].mass >= 0.0
  }

  /** As many copies, with the same masses and radii, position by position. */
  predicate SameBodies(a: seq<Orb>, b: seq<Orb>)
  {
    |a| == |b| && forall k | 0 <= k < |a| :: a[k].mass == b[k].mass && a[k].radius == b[k].radius
  }

  /** The `{x, y}` point recorded for a copy. */
  function Position(o: Orb): Vec
  {
    Vec(o.x, o.y)
  }

  /**
   * One update of a copy under force `f` over `dt`: the velocity first,
   * then the position with the new velocity. Mass and radius never change.
   */
  function Advance(o: Orb, f: Vec, dt: real): (r: Orb)
    ensures r.mass == o.mass && r.radius == o.radius
  {
    var vx := o.vx + f.x * dt;
    var vy := o.vy + f.y * dt;
    Orb(o.x + vx * dt, o.y + vy * dt, vx, vy, o.mass, o.radius)
  }

  /** With no force a copy keeps its velocity and moves by velocity * dt. */
  lemma Drift(o: Orb, dt: real)
    ensures Advance(o, Zero, dt) == Orb(o.x + o.vx * dt, o.y + o.vy * dt, o.vx, o.vy, o.mass, o.radius)
  {
    assert Zero.x * dt == 0.0 && Zero.y * dt == 0.0;
  }

  /** A force changes the velocity by force * dt, and the position by the
      new velocity * dt. */
  lemma Kick(o: Orb, f: Vec, dt: real)
    ensures var r := Advance(o, f, dt);
      && r.vx - o.vx == f.x * dt && r.vy - o.vy == f.y * dt
      && r.x - o.x == r.vx * dt && r.y - o.y == r.vy * dt
  {
  }

  /** The `{x, y, mass, radius}` copies handed to calculateBarnesHutForces;
      each is its own object, so its identity is its position in the list. */
  function AsBodies(orbs: seq<Orb>): (r: seq<Body>)
    ensures |r| == |orbs|
    ensures forall k | 0 <= k < |orbs| :: r[k].id == k && r[k].mass == orbs[k].mass
  {
    seq(|orbs|, k requires 0 <= k < |orbs| => Body(k, orbs[k].x, orbs[k].y, orbs[k].mass, orbs[k].radius))
  }

  /** Copies of non-negative mass make bodies of non-negative mass. */
  lemma MassiveBodies(orbs: seq<Orb>)
    requires Massive(orbs)
    ensures forall b | b in AsBodies(orbs) :: b.mass >= 0.0
  {
    var bs := AsBodies(orbs);
    forall b | b in bs
      ensures b.mass >= 0.0
    {
      var k :| 0 <= k < |bs| && bs[k] == b;
    }
  }

  /** Copies of non-negative mass, stars then planets. */
  lemma MassiveJoin(a: seq<Orb>, b: seq<Orb>)
    requires Massive(a) && Massive(b)
    ensures Massive(a + b)
  {
  }

  /** Every copy of `orbs` advanced by its force, the forces of `orbs` starting
      at `offset` in `forces`. */
  function AdvanceAll(orbs: seq<Orb>, forces: seq<Vec>, offset: nat, dt: real): (r: seq<Orb>)
    requires offset + |orbs| <= |forces|
    ensures SameBodies(r, orbs)
  {
    seq(|orbs|, k requires 0 <= k < |orbs| => Advance(orbs[k], forces[offset + k], dt))
  }

  /** A force law gives one force per body, in order. */
  ghost predicate Lawful(law: seq<Body> -> seq<Vec>)
  {
    forall bs :: |law(bs)| == |bs|
  }

  /**
   * calculateBarnesHutForces with depth bound `depth`, as a force law. Every
   * list the prediction hands it holds copies of planets and stars, whose
   * masses are never negative; other lists get no force.
   */
  function BarnesHutLaw(depth: nat, sqrt: real -> real): (law: seq<Body> -> seq<Vec>)
    requires PositiveOnPositives(sqrt)
  {
    (bs: seq<Body>) =>
      if forall b | b in bs :: b.mass >= 0.0 then BarnesHutForces(bs, depth, sqrt)
      else seq(|bs|, _ => Zero)
  }

  /** Barnes-Hut gives one force per body. */
  lemma BarnesHutLawful(depth: nat, sqrt: real -> real)
    requires PositiveOnPositives(sqrt)
    ensures Lawful(BarnesHutLaw(depth, sqrt))
  {
  }

  /**
   * One step of the prediction: the forces `law` gives all copies, stars
   * first and planets after, then every copy advanced by its own force. Each
   * copy's update reads only its own force, so stepping the stars before the
   * planets (predictAllPlanetOrbits) or after them (predictOrbit) gives the
   * same sky.
   */
  function Step(sky: Sky, law: seq<Body> -> seq<Vec>, dt: real): (r: Sky)
    requires Lawful(law)
    ensures SameBodies(r.stars, sky.stars) && SameBodies(r.planets, sky.planets)
  {
    var forces := law(AsBodies(sky.stars + sky.planets));
    Sky(AdvanceAll(sky.stars, forces, 0, dt), AdvanceAll(sky.planets, forces, |sky.stars|, dt))
  }

  /** The sky after `n` steps. */
  function After(sky: Sky, n: nat, law: seq<Body> -> seq<Vec>, dt: real): (r: Sky)
    requires Lawful(law)
    ensures SameBodies(r.stars, sky.stars) && SameBodies(r.planets, sky.planets)
  {
    if n == 0 then sky else Step(After(sky, n - 1, law, dt), law, dt)
  }

  /** Under `law` a body alone feels no force. */
  ghost predicate LoneFree(law: seq<Body> -> seq<Vec>)
  {
    forall q: Orb | q.mass >= 0.0 :: law(AsBodies([q])) == [Zero]
  }

  /** Barnes-Hut exerts nothing on a lone body. */
  lemma BarnesHutLoneFree(depth: nat, sqrt: real -> real)
    requires PositiveOnPositives(sqrt)
    ensures LoneFree(BarnesHutLaw(depth, sqrt))
  {
    forall q: Orb | q.mass >= 0.0
      ensures BarnesHutLaw(depth, sqrt)(AsBodies([q])) == [Zero]
    {
      MassiveBodies([q]);
      BarnesHutFewBodies(AsBodies([q]), depth, sqrt);
    }
  }

  /**
   * A planet alone in an empty sky feels no force, so it keeps its velocity
   * and after `n` steps has moved by n * velocity * dt (TravelIsProduct).
   */
  lemma LonePlanetDrifts(p: Orb, n: nat, depth: nat, sqrt: real -> real, dt: real)
    requires PositiveOnPositives(sqrt) && p.mass >= 0.0
    ensures Lawful(BarnesHutLaw(depth, sqrt))
    ensures After(Sky([], [p]), n, BarnesHutLaw(depth, sqrt), dt).planets[0] == Drifted(p, dt, n)
  {
    BarnesHutLawful(depth, sqrt);
    BarnesHutLoneFree(depth, sqrt);
    LoneDrift(p, n, BarnesHutLaw(depth, sqrt), dt);
  }

  /** Under any law that exerts nothing on a lone body, a lone planet drifts. */
  lemma {:induction false} LoneDrift(p: Orb, n: nat, law: seq<Body> -> seq<Vec>, dt: real)
    requires Lawful(law) && LoneFree(law) && p.mass >= 0.0
    ensures |After(Sky([], [p]), n, law, dt).planets| == 1
    ensures After(Sky([], [p]), n, law, dt).planets[0] == Drifted(p, dt, n)
  {
    if n > 0 {
      LoneDrift(p, n - 1, law, dt);
      var prev := After(Sky([], [p]), n - 1, law, dt);
      var q := prev.planets[0];
      assert prev.stars + prev.planets == [q];
      assert law(AsBodies([q])) == [Zero];
      DriftStep(p, q, After(Sky([], [p]), n, law, dt).planets[0], dt, n - 1);
    }
  }

  /** Where a copy moving freely is after `n` steps: same velocity, moved by
      `n` steps of velocity * dt. */
  function Drifted(p: Orb, dt: real, n: nat): Orb
  {
    Orb(p.x + Travel(p.vx, dt, n), p.y + Travel(p.vy, dt, n), p.vx, p.vy, p.mass, p.radius)
  }

  /** A free step from the n-th drifted position gives the (n + 1)-th. */
  lemma DriftStep(p: Orb, q0: Orb, q1: Orb, dt: real, m: nat)
    requires q0 == Drifted(p, dt, m) && q1 == Advance(q0, Zero, dt)
    ensures q1 == Drifted(p, dt, m + 1)
  {
    assert Travel(p.vx, dt, m + 1) == Travel(p.vx, dt, m) + p.vx * dt;
    assert Travel(p.vy, dt, m + 1) == Travel(p.vy, dt, m) + p.vy * dt;
    assert q1.vx == p.vx;
    assert q1.x == q0.x + p.vx * dt;
  }

  /** The distance covered in `n` steps of `dt` at velocity `v`, step by step. */
  function Travel(v: real, dt: real, n: nat): real
  {
    if n == 0 then 0.0 else Travel(v, dt, n - 1) + v * dt
  }

  /** n steps at velocity v cover n * v * dt. */
  lemma {:induction false} TravelIsProduct(v: real, dt: real, n: nat)
    ensures Travel(v, dt, n) == (n as real) * v * dt
  {
    if n > 0 {
      TravelIsProduct(v, dt, n - 1);
      var m := (n - 1) as real;
      assert m * v * dt + v * dt == (m + 1.0) * v * dt;
    }
  }

  // ---------------------------------------------------------------------
  // Recording.

  /** The elements at positions 0, every, 2 * every, ... of `xs`: what a loop
      that records on `step % every === 0` keeps. */
  function Sampled<T>(xs: seq<T>, every: nat): seq<T>
    requires every > 0
  {
    if xs == [] then []
    else
      var n := |xs| - 1;
      Sampled(xs[..n], every) + (if n % every == 0 then [xs[n]] else [])
  }

  /** Recording one more step. */
  lemma SampledPush<T>(xs: seq<T>, x: T, every: nat)
    requires every > 0
    ensures Sampled(xs + [x], every) == Sampled(xs, every) + (if |xs| % every == 0 then [x] else [])
  {
    assert (xs + [x])[..|xs|] == xs;
  }

  /** Every other element: one for each even position, in order. */
  lemma {:induction false} EveryOther<T>(xs: seq<T>)
    ensures |Sampled(xs, 2)| == (|xs| + 1) / 2
    ensures forall k | 0 <= k < |Sampled(xs, 2)| :: Sampled(xs, 2)[k] == xs[2 * k]
  {
    if xs != [] {
      var n := |xs| - 1;
      EveryOther(xs[..n]);
    }
  }

  /** The positions of planet `i` after steps 1, 2, ..., n. */
  function PlanetPositions(sky: Sky, i: nat, n: nat, law: seq<Body> -> seq<Vec>, dt: real): (r: seq<Vec>)
    requires Lawful(law)
    requires i < |sky.planets|
    ensures |r| == n
  {
    seq(n, k requires 0 <= k < n => Position(After(sky, k + 1, law, dt).planets[i]))
  }

  /** One step more adds the position after it. */
  lemma PlanetPositionsPush(sky: Sky, i: nat, n: nat, law: seq<Body> -> seq<Vec>, dt: real)
    requires Lawful(law)
    requires i < |sky.planets|
    ensures PlanetPositions(sky, i, n + 1, law, dt) ==
            PlanetPositions(sky, i, n, law, dt) + [Position(After(sky, n + 1, law, dt).planets[i])]
  {
  }

  /** The path predicted for planet `i` over `steps` steps: its position
      after every step whose (0-based) number is even. */
  function Track(sky: Sky, i: nat, steps: nat, law: seq<Body> -> seq<Vec>, dt: real): seq<Vec>
    requires Lawful(law)
    requires i < |sky.planets|
  {
    Sampled(PlanetPositions(sky, i, steps, law, dt), 2)
  }

  /** A track has (steps + 1) / 2 points, point k being where the planet is
      after 2k + 1 steps. */
  lemma TrackPoints(sky: Sky, i: nat, steps: nat, law: seq<Body> -> seq<Vec>, dt: real)
    requires Lawful(law)
    requires i < |sky.planets|
    ensures |Track(sky, i, steps, law, dt)| == (steps + 1) / 2
    ensures forall k | 0 <= k < (steps + 1) / 2 ::
      Track(sky, i, steps, law, dt)[k] == Position(After(sky, 2 * k + 1, law, dt).planets[i])
  {
    EveryOther(PlanetPositions(sky, i, steps, law, dt));
  }

  // ---------------------------------------------------------------------
  // The prediction loops.

  /** The update loop over one list of copies: copy k takes force
      `offset + k`. */
  method AdvanceEach(orbs: seq<Orb>, forces: seq<Vec>, offset: nat, dt: real) returns (r: seq<Orb>)
    requires offset + |orbs| <= |forces|
    ensures r == AdvanceAll(orbs, forces, offset, dt)
  {
    r := orbs;
    var i := 0;
    while i < |r|
      invariant 0 <= i <= |r| == |orbs|
      invariant forall k | 0 <= k < i :: r[k] == Advance(orbs[k], forces[offset + k], dt)
      invariant forall k | i <= k < |r| :: r[k] == orbs[k]
    {
      r := r[i := Advance(r[i], forces[offset + i], dt)];
      i := i + 1;
    }
  }

  /** One step as the loops take it: the forces, then each list advanced. */
  method StepSky(sky: Sky, depth: nat, sqrt: real -> real, dt: real) returns (r: Sky)
    requires PositiveOnPositives(sqrt) && Lawful(BarnesHutLaw(depth, sqrt))
    requires Massive(sky.stars) && Massive(sky.planets)
    ensures r == Step(sky, BarnesHutLaw(depth, sqrt), dt)
  {
    MassiveJoin(sky.stars, sky.planets);
    MassiveBodies(sky.stars + sky.planets);
    var forces := CalculateBarnesHutForces(AsBodies(sky.stars + sky.planets), depth, sqrt);
    var stars := AdvanceEach(sky.stars, forces, 0, dt);
    var planets := AdvanceEach(sky.planets, forces, |sky.stars|, dt);
    r := Sky(stars, planets);
  }

  /** One step as predictOrbit takes it: the forces, then the planets
      advanced, then the stars. */
  method StepPlanetsFirst(sky: Sky, depth: nat, sqrt: real -> real, dt: real) returns (r: Sky)
    requires PositiveOnPositives(sqrt) && Lawful(BarnesHutLaw(depth, sqrt))
    requires Massive(sky.stars) && Massive(sky.planets)
    ensures r == Step(sky, BarnesHutLaw(depth, sqrt), dt)
  {
    MassiveJoin(sky.stars, sky.planets);
    MassiveBodies(sky.stars + sky.planets);
    var forces := CalculateBarnesHutForces(AsBodies(sky.stars + sky.planets), depth, sqrt);
    var planets := AdvanceEach(sky.planets, forces, |sky.stars|, dt);
    var stars := AdvanceEach(sky.stars, forces, 0, dt);
    r := Sky(stars, planets);
  }

  /** The recording loop: every planet's position appended to its path. */
  method RecordAll(paths: seq<seq<Vec>>, planets: seq<Orb>) returns (r: seq<seq<Vec>>)
    requires |paths| == |planets|
    ensures |r| == |paths|
    ensures forall i | 0 <= i < |r| :: r[i] == paths[i] + [Position(planets[i])]
  {
    r := paths;
    var i := 0;
    while i < |planets|
      invariant 0 <= i <= |planets| && |r| == |paths|
      invariant forall k | 0 <= k < i :: r[k] == paths[k] + [Position(planets[k])]
      invariant forall k | i <= k < |r| :: r[k] == paths[k]
    {
      r := r[i := r[i] + [Position(planets[i])]];
      i := i + 1;
    }
  }

  /** The paths after `step` steps are the planets' tracks so far. */
  ghost predicate Tracked(paths: seq<seq<Vec>>, sky: Sky, step: nat, law: seq<Body> -> seq<Vec>, dt: real)
    requires Lawful(law)
  {
    |paths| == |sky.planets| && forall i | 0 <= i < |paths| :: paths[i] == Track(sky, i, step, law, dt)
  }

  /** One more step keeps the paths tracked: a point for every planet when
      the step's number is even, none otherwise. */
  lemma TrackedStep(paths: seq<seq<Vec>>, next: seq<seq<Vec>>, sky: Sky, step: nat,
                    law: seq<Body> -> seq<Vec>, dt: real)
    requires Lawful(law)
    requires Tracked(paths, sky, step, law, dt)
    requires |next| == |paths|
    requires forall i | 0 <= i < |next| ::
      next[i] == paths[i] + (if step % 2 == 0 then [Position(After(sky, step + 1, law, dt).planets[i])] else [])
    ensures Tracked(next, sky, step + 1, law, dt)
  {
    forall i | 0 <= i < |next|
      ensures next[i] == Track(sky, i, step + 1, law, dt)
    {
      var xs := PlanetPositions(sky, i, step, law, dt);
      PlanetPositionsPush(sky, i, step, law, dt);
      SampledPush(xs, Position(After(sky, step + 1, law, dt).planets[i]), 2);
    }
  }

  /** Copies with the masses of copies of non-negative mass. */
  lemma StillMassive(a: seq<Orb>, b: seq<Orb>)
    requires SameBodies(a, b) && Massive(b)
    ensures Massive(a)
  {
  }

  /** The sky one step further under Barnes-Hut forces. */
  method AdvanceSky(start: Sky, sky: Sky, step: nat, depth: nat, sqrt: real -> real, dt: real) returns (nextSky: Sky)
    requires PositiveOnPositives(sqrt) && Lawful(BarnesHutLaw(depth, sqrt))
    requires Massive(start.stars) && Massive(start.planets)
    requires sky == After(start, step, BarnesHutLaw(depth, sqrt), dt)
    ensures nextSky == After(start, step + 1, BarnesHutLaw(depth, sqrt), dt)
  {
    StillMassive(sky.stars, start.stars);
    StillMassive(sky.planets, start.planets);
    nextSky := StepSky(sky, depth, sqrt, dt);
  }

  /** On an even step every planet's new position is appended to its path;
      on an odd one the paths stay as they are. */
  method RecordStep(start: Sky, nextSky: Sky, paths: seq<seq<Vec>>, step: nat, ghost law: seq<Body> -> seq<Vec>,
                    dt: real) returns (nextPaths: seq<seq<Vec>>)
    requires Lawful(law) && nextSky == After(start, step + 1, law, dt)
    requires Tracked(paths, start, step, law, dt)
    ensures Tracked(nextPaths, start, step + 1, law, dt)
  {
    nextPaths := paths;
    if step % 2 == 0 {
      nextPaths := RecordAll(paths, nextSky.planets);
    }
    TrackedStep(paths, nextPaths, start, step, law, dt);
  }

  /**
   * predictAllPlanetOrbits: one path per planet, each the planet's track
   * over `steps` steps of `dt` under Barnes-Hut forces with depth bound
   * `depth`.
   */
  method PredictAllPlanetOrbits(planets: seq<Orb>, stars: seq<Orb>, steps: nat, dt: real, depth: nat,
                                sqrt: real -> real) returns (paths: seq<seq<Vec>>)
    requires PositiveOnPositives(sqrt) && Massive(stars) && Massive(planets)
    ensures |paths| == |planets|
    ensures forall i | 0 <= i < |planets| ::
      paths[i] == Track(Sky(stars, planets), i, steps, BarnesHutLaw(depth, sqrt), dt)
  {
    BarnesHutLawful(depth, sqrt);
    var start := Sky(stars, planets);
    paths := seq(|planets|, _ => []);
    var sky := start;
    var step := 0;
    while step < steps
      invariant 0 <= step <= steps
      invariant sky == After(start, step, BarnesHutLaw(depth, sqrt), dt)
      invariant Tracked(paths, start, step, BarnesHutLaw(depth, sqrt), dt)
    {
      var nextSky := AdvanceSky(start, sky, step, depth, sqrt, dt);
      paths := RecordStep(start, nextSky, paths, step, BarnesHutLaw(depth, sqrt), dt);
      sky := nextSky;
      step := step + 1;
    }
  }

  /** One planet's path: its position appended when `targetIndex` names one. */
  method RecordOne(path: seq<Vec>, planets: seq<Orb>, targetIndex: int) returns (r: seq<Vec>)
    requires targetIndex < |planets|
    ensures r == if targetIndex >= 0 then path + [Position(planets[targetIndex])] else path
  {
    r := path;
    if targetIndex >= 0 {
      r := r + [Position(planets[targetIndex])];
    }
  }

  /**
   * predictOrbit for the planet at `targetIndex` (what `planets.indexOf`
   * returns: -1 when the target is not among the planets): the target's
   * track, the same path predictAllPlanetOrbits gives it, and no points
   * for a missing target. This loop updates the planets before the stars.
   */
  method PredictOrbit(targetIndex: int, planets: seq<Orb>, stars: seq<Orb>, steps: nat, dt: real,
                      depth: nat, sqrt: real -> real) returns (path: seq<Vec>)
    requires PositiveOnPositives(sqrt) && Massive(stars) && Massive(planets)
    requires -1 <= targetIndex < |planets|
    ensures targetIndex >= 0 ==>
      path == Track(Sky(stars, planets), targetIndex, steps, BarnesHutLaw(depth, sqrt), dt)
    ensures targetIndex < 0 ==> path == []
  {
    BarnesHutLawful(depth, sqrt);
    var start := Sky(stars, planets);
    path := [];
    var sky := start;
    var step := 0;
    while step < steps
      invariant 0 <= step <= steps
      invariant sky == After(start, step, BarnesHutLaw(depth, sqrt), dt)
      invariant targetIndex >= 0 ==> path == Track(start, targetIndex, step, BarnesHutLaw(depth, sqrt), dt)
      invariant targetIndex < 0 ==> path == []
    {
      sky, path := OrbitStep(start, sky, path, targetIndex, step, depth, sqrt, dt);
      step := step + 1;
    }
  }

  /** One turn of predictOrbit's loop: the planets advanced, then the stars,
      then, on an even step, the target's new position appended. */
  method OrbitStep(start: Sky, sky: Sky, path: seq<Vec>, targetIndex: int, step: nat, depth: nat,
                   sqrt: real -> real, dt: real) returns (nextSky: Sky, nextPath: seq<Vec>)
    requires PositiveOnPositives(sqrt) && Lawful(BarnesHutLaw(depth, sqrt))
    requires Massive(start.stars) && Massive(start.planets)
    requires -1 <= targetIndex < |start.planets|
    requires sky == After(start, step, BarnesHutLaw(depth, sqrt), dt)
    requires targetIndex >= 0 ==> path == Track(start, targetIndex, step, BarnesHutLaw(depth, sqrt), dt)
    requires targetIndex < 0 ==> path == []
    ensures nextSky == After(start, step + 1, BarnesHutLaw(depth, sqrt), dt)
    ensures targetIndex >= 0 ==> nextPath == Track(start, targetIndex, step + 1, BarnesHutLaw(depth, sqrt), dt)
    ensures targetIndex < 0 ==> nextPath == []
  {
    StillMassive(sky.stars, start.stars);
    StillMassive(sky.planets, start.planets);
    nextSky := StepPlanetsFirst(sky, depth, sqrt, dt);
    nextPath := path;
    if step % 2 == 0 {
      nextPath := RecordOne(path, nextSky.planets, targetIndex);
    }
    if targetIndex >= 0 {
      PlanetPositionsPush(start, targetIndex, step, BarnesHutLaw(depth, sqrt), dt);
      SampledPush(PlanetPositions(start, targetIndex, step, BarnesHutLaw(depth, sqrt), dt),
                  Position(nextSky.planets[targetIndex]), 2);
    }
  }
}
