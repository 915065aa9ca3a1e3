/**
 * The radar's ship trajectory (main.js, predictShipTrajectory): a copy of
 * the ship is pulled by every star and by every planet it is not touching,
 * then the planets are stepped under their own Barnes-Hut forces plus the
 * stars' pulls, then the stars one after another, each seeing the stars
 * already moved; every third step the ship's position is recorded.
 */
module Trajectory {
  import opened Numerics
  import opened Bodies
  import opened BarnesHut
  import opened Prediction

  /** A planet closer to the ship than its radius plus this does not pull. */
  const SHIP_CLEARANCE: real := 20.0

  /**
   * The softened pull of `src` at (px, py): G * mass / (d^2 + 1e-6) along
   * the unit direction towards `src`, with no contact cut-off.
   */
  function SoftPull(src: Orb, px: real, py: real, sqrt: real -> real): Vec
    requires PositiveOnPositives(sqrt)
  {
    var dx := src.x - px;
    var dy := src.y - py;
    var distSq := SquaredLength(dx, dy) + SOFTENING;
    Pull(dx, dy, sqrt(distSq), G * src.mass / distSq)
  }

  /** A soft pull points along the line to its source, and towards it for a
      non-negative mass. */
  lemma SoftPullAttracts(src: Orb, px: real, py: real, sqrt: real -> real)
    requires PositiveOnPositives(sqrt)
    ensures var f := SoftPull(src, px, py, sqrt);
      && f.x * (src.y - py) == f.y * (src.x - px)
      && (src.mass >= 0.0 ==> f.x * (src.x - px) + f.y * (src.y - py) >= 0.0)
  {
    var dx := src.x - px;
    var dy := src.y - py;
    var distSq := SquaredLength(dx, dy) + SOFTENING;
    assert src.mass >= 0.0 ==> G * src.mass / distSq >= 0.0;
    PullAlong(dx, dy, sqrt(distSq), G * src.mass / distSq);
  }

  /** The pulls of `srcs` at (px, py) added in order, skipping position
      `skip` (-1 skips nothing). */
  function Pulls(srcs: seq<Orb>, skip: int, px: real, py: real, sqrt: real -> real): Vec
    requires PositiveOnPositives(sqrt)
  {
    if srcs == [] then Zero
    else
      var n := |srcs| - 1;
      var rest := Pulls(srcs[..n], skip, px, py, sqrt);
      if n != skip then Add(rest, SoftPull(srcs[n], px, py, sqrt)) else rest
  }

  /** The skipped source plays no part: replacing it changes nothing. */
  lemma {:induction false} PullsIgnoreSkipped(srcs: seq<Orb>, skip: nat, o: Orb, px: real, py: real,
                                              sqrt: real -> real)
    requires PositiveOnPositives(sqrt) && skip < |srcs|
    ensures Pulls(srcs[skip := o], skip, px, py, sqrt) == Pulls(srcs, skip, px, py, sqrt)
    decreases |srcs|
  {
    var n := |srcs| - 1;
    var t := srcs[skip := o];
    if skip < n {
      assert t[..n] == srcs[..n][skip := o];
      PullsIgnoreSkipped(srcs[..n], skip, o, px, py, sqrt);
    } else {
      assert t[..n] == srcs[..n];
    }
  }

  /** Pulls with nothing skipped are those of every source. */
  lemma {:induction false} PullsOfNone(srcs: seq<Orb>, px: real, py: real, sqrt: real -> real)
    requires PositiveOnPositives(sqrt)
    ensures srcs == [] ==> Pulls(srcs, -1, px, py, sqrt) == Zero
    ensures |srcs| == 1 ==> Pulls(srcs, -1, px, py, sqrt) == SoftPull(srcs[0], px, py, sqrt)
  {
    if |srcs| == 1 {
      assert srcs[..0] == [];
    }
  }

  /** The planets' pull on the ship: a planet whose centre is no further than
      its radius plus SHIP_CLEARANCE is skipped. */
  function ShipPlanetPulls(planets: seq<Orb>, px: real, py: real, sqrt: real -> real): Vec
    requires PositiveOnPositives(sqrt)
  {
    if planets == [] then Zero
    else
      var n := |planets| - 1;
      var rest := ShipPlanetPulls(planets[..n], px, py, sqrt);
      if Touching(planets[n], px, py, sqrt) then rest else Add(rest, SoftPull(planets[n], px, py, sqrt))
  }

  /** The ship at (px, py) is within the clearance of planet `p`. */
  predicate Touching(p: Orb, px: real, py: real, sqrt: real -> real)
  {
    !(sqrt(SquaredLength(p.x - px, p.y - py) + SOFTENING) > p.radius + SHIP_CLEARANCE)
  }

  /** A planet the ship touches adds nothing to the ship's force; one it
      does not touches adds its soft pull. */
  lemma ShipPlanetPullsLast(planets: seq<Orb>, p: Orb, px: real, py: real, sqrt: real -> real)
    requires PositiveOnPositives(sqrt)
    ensures Touching(p, px, py, sqrt) ==>
      ShipPlanetPulls(planets + [p], px, py, sqrt) == ShipPlanetPulls(planets, px, py, sqrt)
    ensures !Touching(p, px, py, sqrt) ==>
      ShipPlanetPulls(planets + [p], px, py, sqrt) == Add(ShipPlanetPulls(planets, px, py, sqrt), SoftPull(p, px, py, sqrt))
  {
    assert (planets + [p])[..|planets|] == planets;
  }

  /** The force on the ship: every star, then every planet it is clear of. */
  function ShipForce(ship: Orb, sky: Sky, sqrt: real -> real): Vec
    requires PositiveOnPositives(sqrt)
  {
    Add(Pulls(sky.stars, -1, ship.x, ship.y, sqrt), ShipPlanetPulls(sky.planets, ship.x, ship.y, sqrt))
  }

  /** The planets advanced by the given Barnes-Hut forces plus the pulls of
      the (not yet moved) stars. */
  function PlanetsUnder(planets: seq<Orb>, stars: seq<Orb>, forces: seq<Vec>, dt: real, sqrt: real -> real)
    : (r: seq<Orb>)
    requires PositiveOnPositives(sqrt) && |planets| <= |forces|
    ensures SameBodies(r, planets)
  {
    seq(|planets|, i requires 0 <= i < |planets| =>
      Advance(planets[i], Add(forces[i], Pulls(stars, -1, planets[i].x, planets[i].y, sqrt)), dt))
  }

  /** The planets after their update: the force law is applied to the
      planets alone, and the stars pull on top of it. */
  function PlanetsStep(sky: Sky, law: seq<Body> -> seq<Vec>, dt: real, sqrt: real -> real): (r: seq<Orb>)
    requires Lawful(law) && PositiveOnPositives(sqrt)
    ensures SameBodies(r, sky.planets)
  {
    PlanetsUnder(sky.planets, sky.stars, law(AsBodies(sky.planets)), dt, sqrt)
  }

  /** The force on star `i` of `stars`: every other star, then every planet. */
  function StarForce(stars: seq<Orb>, i: nat, planets: seq<Orb>, sqrt: real -> real): Vec
    requires PositiveOnPositives(sqrt) && i < |stars|
  {
    Add(Pulls(stars, i, stars[i].x, stars[i].y, sqrt), Pulls(planets, -1, stars[i].x, stars[i].y, sqrt))
  }

  /**
   * The stars after the first `k` have been updated in turn, in place: star
   * i is advanced by the pull of the stars as they are at that moment (the
   * ones before it already moved) and of the planets.
   */
  function StarsInTurn(stars: seq<Orb>, planets: seq<Orb>, k: nat, dt: real, sqrt: real -> real): (r: seq<Orb>)
    requires PositiveOnPositives(sqrt) && k <= |stars|
    ensures SameBodies(r, stars)
    ensures forall j | k <= j < |stars| :: r[j] == stars[j]
  {
    if k == 0 then stars
    else
      var s := StarsInTurn(stars, planets, k - 1, dt, sqrt);
      s[k - 1 := Advance(s[k - 1], StarForce(s, k - 1, planets, sqrt), dt)]
  }

  /** Star k's turn, with the stars before it already moved. */
  lemma StarTurn(stars: seq<Orb>, planets: seq<Orb>, k: nat, before: seq<Orb>, after: seq<Orb>, dt: real,
                 sqrt: real -> real)
    requires PositiveOnPositives(sqrt) && k < |stars|
    requires before == StarsInTurn(stars, planets, k, dt, sqrt)
    requires after == before[k := Advance(before[k], StarForce(before, k, planets, sqrt), dt)]
    ensures after == StarsInTurn(stars, planets, k + 1, dt, sqrt)
  {
  }

  /** The ship copy and the sky copies of the trajectory prediction. */
  datatype Voyage = Voyage(ship: Orb, sky: Sky)

  /** One step: the ship, then the planets, then the stars in turn. */
  function VoyageStep(v: Voyage, law: seq<Body> -> seq<Vec>, dt: real, sqrt: real -> real): (r: Voyage)
    requires Lawful(law) && PositiveOnPositives(sqrt)
    ensures SameBodies(r.sky.stars, v.sky.stars) && SameBodies(r.sky.planets, v.sky.planets)
  {
    var ship := Advance(v.ship, ShipForce(v.ship, v.sky, sqrt), dt);
    var planets := PlanetsStep(v.sky, law, dt, sqrt);
    var stars := StarsInTurn(v.sky.stars, planets, |v.sky.stars|, dt, sqrt);
    Voyage(ship, Sky(stars, planets))
  }

  /** The copies after `n` steps. */
  function Flight(v: Voyage, n: nat, law: seq<Body> -> seq<Vec>, dt: real, sqrt: real -> real): (r: Voyage)
    requires Lawful(law) && PositiveOnPositives(sqrt)
    ensures SameBodies(r.sky.stars, v.sky.stars) && SameBodies(r.sky.planets, v.sky.planets)
  {
    if n == 0 then v else VoyageStep(Flight(v, n - 1, law, dt, sqrt), law, dt, sqrt)
  }

  /** In empty space the ship feels nothing and drifts. */
  lemma {:induction false} EmptySpaceDrift(ship: Orb, n: nat, law: seq<Body> -> seq<Vec>, dt: real,
                                           sqrt: real -> real)
    requires Lawful(law) && PositiveOnPositives(sqrt)
    ensures Flight(Voyage(ship, Sky([], [])), n, law, dt, sqrt).ship == Drifted(ship, dt, n)
  {
    if n > 0 {
      EmptySpaceDrift(ship, n - 1, law, dt, sqrt);
      var prev := Flight(Voyage(ship, Sky([], [])), n - 1, law, dt, sqrt);
      assert prev.sky.stars == [] && prev.sky.planets == [];
      PullsOfNone(prev.sky.stars, prev.ship.x, prev.ship.y, sqrt);
      assert ShipForce(prev.ship, prev.sky, sqrt) == Zero;
      DriftStep(ship, prev.ship, Flight(Voyage(ship, Sky([], [])), n, law, dt, sqrt).ship, dt, n - 1);
    }
  }

  /** The ship's positions after steps 1, 2, ..., n. */
  function ShipPositions(v: Voyage, n: nat, law: seq<Body> -> seq<Vec>, dt: real, sqrt: real -> real): (r: seq<Vec>)
    requires Lawful(law) && PositiveOnPositives(sqrt)
    ensures |r| == n
  {
    seq(n, k requires 0 <= k < n => Position(Flight(v, k + 1, law, dt, sqrt).ship))
  }

  /** One step more adds the position after it. */
  lemma ShipPositionsPush(v: Voyage, n: nat, law: seq<Body> -> seq<Vec>, dt: real, sqrt: real -> real)
    requires Lawful(law) && PositiveOnPositives(sqrt)
    ensures ShipPositions(v, n + 1, law, dt, sqrt) ==
            ShipPositions(v, n, law, dt, sqrt) + [Position(Flight(v, n + 1, law, dt, sqrt).ship)]
  {
  }

  /** Entry j is where the ship is after j + 1 steps. */
  lemma ShipPositionAt(v: Voyage, n: nat, j: nat, law: seq<Body> -> seq<Vec>, dt: real, sqrt: real -> real)
    requires Lawful(law) && PositiveOnPositives(sqrt) && j < n
    ensures ShipPositions(v, n, law, dt, sqrt)[j] == Position(Flight(v, j + 1, law, dt, sqrt).ship)
  {
  }

  /** The predicted path over `steps` steps: the ship's position after every
      step whose (0-based) number is a multiple of 3. */
  function ShipTrack(v: Voyage, steps: nat, law: seq<Body> -> seq<Vec>, dt: real, sqrt: real -> real): seq<Vec>
    requires Lawful(law) && PositiveOnPositives(sqrt)
  {
    Sampled(ShipPositions(v, steps, law, dt, sqrt), 3)
  }

  /** Every third element: one for each position that is a multiple of 3. */
  lemma {:induction false} EveryThird<T>(xs: seq<T>)
    ensures |Sampled(xs, 3)| == (|xs| + 2) / 3
    ensures forall k | 0 <= k < |Sampled(xs, 3)| :: Sampled(xs, 3)[k] == xs[3 * k]
  {
    if xs != [] {
      EveryThird(xs[..|xs| - 1]);
    }
  }

  /** A ship track has (steps + 2) / 3 points, point k being where the ship
      is after 3k + 1 steps. */
  lemma ShipTrackPoints(v: Voyage, steps: nat, law: seq<Body> -> seq<Vec>, dt: real, sqrt: real -> real)
    requires Lawful(law) && PositiveOnPositives(sqrt)
    ensures |ShipTrack(v, steps, law, dt, sqrt)| == (steps + 2) / 3
    ensures forall k | 0 <= k < (steps + 2) / 3 ::
      ShipTrack(v, steps, law, dt, sqrt)[k] == Position(Flight(v, 3 * k + 1, law, dt, sqrt).ship)
  {
    var xs := ShipPositions(v, steps, law, dt, sqrt);
    EveryThird(xs);
    forall k | 0 <= k < (steps + 2) / 3
      ensures Sampled(xs, 3)[k] == Position(Flight(v, 3 * k + 1, law, dt, sqrt).ship)
    {
      assert 3 * k < steps;
      assert Sampled(xs, 3)[k] == xs[3 * k];
      ShipPositionAt(v, steps, 3 * k, law, dt, sqrt);
    }
  }

  // ---------------------------------------------------------------------
  // The loops.

  /** A pull loop: the pulls of `srcs` at (px, py) added into (fx, fy) in
      order, skipping position `skip`. */
  method SumPulls(srcs: seq<Orb>, skip: int, px: real, py: real, sqrt: real -> real) returns (f: Vec)
    requires PositiveOnPositives(sqrt)
    ensures f == Pulls(srcs, skip, px, py, sqrt)
  {
    f := Zero;
    var j := 0;
    while j < |srcs|
      invariant 0 <= j <= |srcs|
      invariant f == Pulls(srcs[..j], skip, px, py, sqrt)
    {
      assert srcs[..j + 1][..j] == srcs[..j];
      if j != skip {
        var pull := SoftPull(srcs[j], px, py, sqrt);
        f := Vec(f.x + pull.x, f.y + pull.y);
      }
      j := j + 1;
    }
    assert srcs[..j] == srcs;
  }

  /** The ship's planet loop: the pull of every planet the ship is clear of. */
  method SumShipPlanetPulls(planets: seq<Orb>, px: real, py: real, sqrt: real -> real) returns (f: Vec)
    requires PositiveOnPositives(sqrt)
    ensures f == ShipPlanetPulls(planets, px, py, sqrt)
  {
    f := Zero;
    var i := 0;
    while i < |planets|
      invariant 0 <= i <= |planets|
      invariant f == ShipPlanetPulls(planets[..i], px, py, sqrt)
    {
      assert planets[..i + 1] == planets[..i] + [planets[i]];
      ShipPlanetPullsLast(planets[..i], planets[i], px, py, sqrt);
      var dist := sqrt(SquaredLength(planets[i].x - px, planets[i].y - py) + SOFTENING);
      if dist > planets[i].radius + SHIP_CLEARANCE {
        var pull := SoftPull(planets[i], px, py, sqrt);
        f := Vec(f.x + pull.x, f.y + pull.y);
      }
      i := i + 1;
    }
    assert planets[..i] == planets;
  }

  /** The planet update loop of one step, given the planets' forces. */
  method AdvancePlanets(planets: seq<Orb>, stars: seq<Orb>, forces: seq<Vec>, dt: real, sqrt: real -> real)
    returns (r: seq<Orb>)
    requires PositiveOnPositives(sqrt) && |planets| <= |forces|
    ensures r == PlanetsUnder(planets, stars, forces, dt, sqrt)
  {
    r := planets;
    var i := 0;
    while i < |r|
      invariant 0 <= i <= |r| == |planets|
      invariant forall k | 0 <= k < i :: r[k] == PlanetsUnder(planets, stars, forces, dt, sqrt)[k]
      invariant forall k | i <= k < |r| :: r[k] == planets[k]
    {
      var starForce := SumPulls(stars, -1, r[i].x, r[i].y, sqrt);
      r := r[i := Advance(r[i], Add(forces[i], starForce), dt)];
      i := i + 1;
    }
  }

  /** The planets' part of one step: their Barnes-Hut forces among
      themselves, then the update loop. */
  method MovePlanets(sky: Sky, depth: nat, sqrt: real -> real, dt: real) returns (planets: seq<Orb>)
    requires PositiveOnPositives(sqrt) && Lawful(BarnesHutLaw(depth, sqrt)) && Massive(sky.planets)
    ensures planets == PlanetsStep(sky, BarnesHutLaw(depth, sqrt), dt, sqrt)
  {
    MassiveBodies(sky.planets);
    var forces := CalculateBarnesHutForces(AsBodies(sky.planets), depth, sqrt);
    planets := AdvancePlanets(sky.planets, sky.stars, forces, dt, sqrt);
  }

  /** The star update loop of one step: each star in turn, in place. */
  method MoveStars(stars: seq<Orb>, planets: seq<Orb>, sqrt: real -> real, dt: real) returns (r: seq<Orb>)
    requires PositiveOnPositives(sqrt)
    ensures r == StarsInTurn(stars, planets, |stars|, dt, sqrt)
  {
    r := stars;
    var i := 0;
    while i < |r|
      invariant 0 <= i <= |r| == |stars|
      invariant r == StarsInTurn(stars, planets, i, dt, sqrt)
    {
      var fromStars := SumPulls(r, i, r[i].x, r[i].y, sqrt);
      var fromPlanets := SumPulls(planets, -1, r[i].x, r[i].y, sqrt);
      var moved := r[i := Advance(r[i], Add(fromStars, fromPlanets), dt)];
      StarTurn(stars, planets, i, r, moved, dt, sqrt);
      r, i := moved, i + 1;
    }
  }

  /** One turn of predictShipTrajectory's loop, recording on every third step. */
  method FlyStep(start: Voyage, v: Voyage, path: seq<Vec>, step: nat, depth: nat, sqrt: real -> real, dt: real)
    returns (next: Voyage, nextPath: seq<Vec>)
    requires PositiveOnPositives(sqrt) && Lawful(BarnesHutLaw(depth, sqrt))
    requires Massive(start.sky.planets)
    requires v == Flight(start, step, BarnesHutLaw(depth, sqrt), dt, sqrt)
    requires path == ShipTrack(start, step, BarnesHutLaw(depth, sqrt), dt, sqrt)
    ensures next == Flight(start, step + 1, BarnesHutLaw(depth, sqrt), dt, sqrt)
    ensures nextPath == ShipTrack(start, step + 1, BarnesHutLaw(depth, sqrt), dt, sqrt)
  {
    StillMassive(v.sky.planets, start.sky.planets);
    var fromStars := SumPulls(v.sky.stars, -1, v.ship.x, v.ship.y, sqrt);
    var fromPlanets := SumShipPlanetPulls(v.sky.planets, v.ship.x, v.ship.y, sqrt);
    var ship := Advance(v.ship, Add(fromStars, fromPlanets), dt);
    var planets := MovePlanets(v.sky, depth, sqrt, dt);
    var stars := MoveStars(v.sky.stars, planets, sqrt, dt);
    next := Voyage(ship, Sky(stars, planets));
    nextPath := path;
    if step % 3 == 0 {
      nextPath := path + [Position(ship)];
    }
    ShipPositionsPush(start, step, BarnesHutLaw(depth, sqrt), dt, sqrt);
    SampledPush(ShipPositions(start, step, BarnesHutLaw(depth, sqrt), dt, sqrt), Position(ship), 3);
  }

  /**
   * predictShipTrajectory for a ship at (x, y) moving at (vx, vy): the ship's
   * track over `steps` steps of `dt` among the given planets and stars, the
   * planets feeling Barnes-Hut forces with depth bound `depth`.
   */
  method PredictShipTrajectory(x: real, y: real, vx: real, vy: real, planets: seq<Orb>, stars: seq<Orb>,
                               steps: nat, dt: real, depth: nat, sqrt: real -> real) returns (path: seq<Vec>)
    requires PositiveOnPositives(sqrt) && Massive(planets)
    ensures path == ShipTrack(Voyage(Orb(x, y, vx, vy, 0.0, 0.0), Sky(stars, planets)), steps,
                              BarnesHutLaw(depth, sqrt), dt, sqrt)
  {
    BarnesHutLawful(depth, sqrt);
    var start := Voyage(Orb(x, y, vx, vy, 0.0, 0.0), Sky(stars, planets));
    var v := start;
    path := [];
    var step := 0;
    while step < steps
      invariant 0 <= step <= steps
      invariant v == Flight(start, step, BarnesHutLaw(depth, sqrt), dt, sqrt)
      invariant path == ShipTrack(start, step, BarnesHutLaw(depth, sqrt), dt, sqrt)
    {
      v, path := FlyStep(start, v, path, step, depth, sqrt, dt);
      step := step + 1;
    }
  }
}
