/**
 * Setting bodies on orbits: the velocities calculateOrbitalVelocity gives a
 * planet and its star, and the moon createMoonWithOrbit places around a
 * planet. Math.sqrt / Math.hypot are the parameter `sqrt`; Math.cos(angle)
 * and Math.sin(angle) are the parameters `cosA` and `sinA`.
 */
module Orbits {
  import opened Numerics
  import opened Bodies
  import BarnesHut
  import Collisions

  /** The four velocity components calculateOrbitalVelocity returns. */
  datatype OrbitVelocities = OrbitVelocities(planetVel: Vec, starVel: Vec)

  /**
   * calculateOrbitalVelocity: both bodies circle their common centre of
   * mass at right angles to the line between them, the planet with the
   * star's share of the orbital speed and the star with the planet's share,
   * in the opposite direction. JavaScript gives NaN for coincident bodies or
   * a zero total mass; the model requires neither to happen.
   */
  function OrbitalVelocity(planet: Vec, planetMass: real, star: Vec, starMass: real,
                           sqrt: real -> real): (r: OrbitVelocities)
    requires PositiveOnPositives(sqrt)
    requires planet != star
    requires starMass + planetMass != 0.0
    ensures MomentaCancel(planetMass, r.planetVel, starMass, r.starVel)
    ensures Perpendicular(r.planetVel, Sub(planet, star))
    ensures Perpendicular(r.starVel, Sub(planet, star))
  {
    var dx := planet.x - star.x;
    var dy := planet.y - star.y;
    SquaresPositive(dx, dy);
    var dist := Hypot(dx, dy, sqrt);
    var totalMass := starMass + planetMass;
    var orbitalSpeed := sqrt(BarnesHut.G * totalMass / dist);
    var r := Velocities(dx, dy, dist, orbitalSpeed, planetMass, starMass);
    OrbitFacts(dx, dy, dist, orbitalSpeed, planetMass, starMass, r);
    r
  }

  /**
   * With an exact square root and a positive total mass, the two bodies
   * move apart at the circular orbital speed: their relative velocity's
   * squared length times their distance is G (M + m). The planet takes the
   * star's share of it and the star the planet's share, the other way.
   */
  lemma OrbitalSpeed(planet: Vec, planetMass: real, star: Vec, starMass: real, sqrt: real -> real)
    requires IsSqrt(sqrt) && PositiveOnPositives(sqrt)
    requires planet != star && starMass + planetMass > 0.0
    ensures var r := OrbitalVelocity(planet, planetMass, star, starMass, sqrt);
      var rel := Sub(r.planetVel, r.starVel);
      var total := starMass + planetMass;
      && SquaredLength(rel.x, rel.y) * Hypot(planet.x - star.x, planet.y - star.y, sqrt) == BarnesHut.G * total
      && r.planetVel == Scale(rel, starMass / total)
      && r.starVel == Scale(rel, -(planetMass / total))
  {
    var dx := planet.x - star.x;
    var dy := planet.y - star.y;
    var dist := Hypot(dx, dy, sqrt);
    var total := starMass + planetMass;
    OrbitalVelocityIs(planet, planetMass, star, starMass, sqrt);
    Collisions.UnitNormal(dx, dy, sqrt);
    var q := BarnesHut.G * total / dist;
    QuotientPositive(BarnesHut.G * total, dist, q);
    var speed := sqrt(q);
    assert speed * speed == q;
    OrbitSpeedOf(dx, dy, dist, speed, planetMass, starMass, q, OrbitalVelocity(planet, planetMass, star, starMass, sqrt));
  }

  /** The velocities for the unit separation (dx, dy) / dist and a speed
      whose square is q. */
  lemma OrbitSpeedOf(dx: real, dy: real, dist: real, speed: real, planetMass: real, starMass: real, q: real,
                     r: OrbitVelocities)
    requires dist > 0.0 && starMass + planetMass > 0.0 && speed * speed == q
    requires q == BarnesHut.G * (starMass + planetMass) / dist
    requires Dot(Vec(dx / dist, dy / dist), Vec(dx / dist, dy / dist)) == 1.0
    requires r == Velocities(dx, dy, dist, speed, planetMass, starMass)
    ensures var rel := Sub(r.planetVel, r.starVel);
      var total := starMass + planetMass;
      && SquaredLength(rel.x, rel.y) * dist == BarnesHut.G * total
      && r.planetVel == Scale(rel, starMass / total)
      && r.starVel == Scale(rel, -(planetMass / total))
  {
    var total := starMass + planetMass;
    var u := -dy / dist;
    var w := dx / dist;
    UnitPerpendicular(dx, dy, dist, u, w);
    SharedSpeed(u, w, speed, starMass / total, planetMass / total, q, r);
    assert q * dist == BarnesHut.G * total;
  }

  /** calculateOrbitalVelocity's steps, with the distance and speed named. */
  lemma OrbitalVelocityIs(planet: Vec, planetMass: real, star: Vec, starMass: real, sqrt: real -> real)
    requires PositiveOnPositives(sqrt) && planet != star && starMass + planetMass != 0.0
    ensures var dist := Hypot(planet.x - star.x, planet.y - star.y, sqrt);
      dist != 0.0
      && OrbitalVelocity(planet, planetMass, star, starMass, sqrt)
         == Velocities(planet.x - star.x, planet.y - star.y, dist,
                       sqrt(BarnesHut.G * (starMass + planetMass) / dist), planetMass, starMass)
  {
    SquaresPositive(planet.x - star.x, planet.y - star.y);
  }

  /** (-dy/d, dx/d) is a unit vector when (dx/d, dy/d) is. */
  lemma UnitPerpendicular(dx: real, dy: real, dist: real, u: real, w: real)
    requires dist != 0.0 && Dot(Vec(dx / dist, dy / dist), Vec(dx / dist, dy / dist)) == 1.0
    requires u == -dy / dist && w == dx / dist
    ensures u * u + w * w == 1.0
  {
    assert u * u == (dy / dist) * (dy / dist);
  }

  lemma QuotientPositive(a: real, b: real, q: real)
    requires a > 0.0 && b > 0.0 && q == a / b
    ensures q > 0.0
  {
  }

  /** Two velocities along the unit vector (u, w), with shares pf and sf of
      one speed, differ by the whole speed along (u, w). */
  lemma SharedSpeed(u: real, w: real, speed: real, pf: real, sf: real, q: real, r: OrbitVelocities)
    requires pf + sf == 1.0 && u * u + w * w == 1.0 && speed * speed == q
    requires r == OrbitVelocities(Vec(u * speed * pf, w * speed * pf), Vec(-u * speed * sf, -w * speed * sf))
    ensures var rel := Sub(r.planetVel, r.starVel);
      SquaredLength(rel.x, rel.y) == q && r.planetVel == Scale(rel, pf) && r.starVel == Scale(rel, -sf)
  {
    var rel := Sub(r.planetVel, r.starVel);
    assert rel.x == u * speed * (pf + sf) == u * speed;
    assert rel.y == w * speed * (pf + sf) == w * speed;
    assert Square(u * speed) + Square(w * speed) == (u * u + w * w) * (speed * speed);
    assert -u * speed * sf == (u * speed) * -sf;
    assert -w * speed * sf == (w * speed) * -sf;
  }

  /** The four velocity components, for a separation (dx, dy) of length
      `dist` and the orbital speed of the pair. */
  function Velocities(dx: real, dy: real, dist: real, orbitalSpeed: real,
                      planetMass: real, starMass: real): OrbitVelocities
    requires dist != 0.0 && starMass + planetMass != 0.0
  {
    var totalMass := starMass + planetMass;
    var starVelFactor := planetMass / totalMass;
    var planetVelFactor := starMass / totalMass;
    var perpX := -dy / dist;
    var perpY := dx / dist;
    OrbitVelocities(Vec(perpX * orbitalSpeed * planetVelFactor, perpY * orbitalSpeed * planetVelFactor),
                    Vec(-perpX * orbitalSpeed * starVelFactor, -perpY * orbitalSpeed * starVelFactor))
  }

  /** Those velocities balance each other's momenta and are tangent to the separation. */
  lemma OrbitFacts(dx: real, dy: real, dist: real, orbitalSpeed: real,
                   planetMass: real, starMass: real, r: OrbitVelocities)
    requires dist != 0.0 && starMass + planetMass != 0.0
    requires r == Velocities(dx, dy, dist, orbitalSpeed, planetMass, starMass)
    ensures MomentaCancel(planetMass, r.planetVel, starMass, r.starVel)
    ensures Perpendicular(r.planetVel, Vec(dx, dy)) && Perpendicular(r.starVel, Vec(dx, dy))
  {
    var totalMass := starMass + planetMass;
    var starVelFactor := planetMass / totalMass;
    var planetVelFactor := starMass / totalMass;
    var perpX := -dy / dist;
    var perpY := dx / dist;
    OppositeMomenta(perpX, orbitalSpeed, planetMass, starMass, totalMass);
    OppositeMomenta(perpY, orbitalSpeed, planetMass, starMass, totalMass);
    Tangent(dx, dy, dist, orbitalSpeed * planetVelFactor);
    Tangent(dx, dy, dist, -orbitalSpeed * starVelFactor);
    assert perpX * orbitalSpeed * planetVelFactor == perpX * (orbitalSpeed * planetVelFactor);
    assert perpY * orbitalSpeed * planetVelFactor == perpY * (orbitalSpeed * planetVelFactor);
    assert -perpX * orbitalSpeed * starVelFactor == perpX * (-orbitalSpeed * starVelFactor);
    assert -perpY * orbitalSpeed * starVelFactor == perpY * (-orbitalSpeed * starVelFactor);
  }

  /** Speeds in the ratio of the other body's mass give opposite momenta. */
  lemma OppositeMomenta(perp: real, speed: real, pm: real, sm: real, total: real)
    requires total == sm + pm && total != 0.0
    ensures pm * (perp * speed * (sm / total)) + sm * (-perp * speed * (pm / total)) == 0.0
  {
    var a := perp * speed;
    var f := sm / total;
    var h := pm / total;
    assert f * total == sm && h * total == pm;
    assert pm * f * total == sm * h * total;
    assert pm * f == sm * h;
    assert -perp * speed == -a;
    assert pm * (a * f) == a * (pm * f);
    assert sm * (-a * h) == -(a * (sm * h));
  }

  /** (-dy/d, dx/d) scaled by k is perpendicular to (dx, dy). */
  lemma Tangent(dx: real, dy: real, dist: real, k: real)
    requires dist != 0.0
    ensures (-dy / dist) * k * dx + (dx / dist) * k * dy == 0.0
  {
    var u := dx / dist;
    var w := dy / dist;
    assert u * dist == dx && w * dist == dy;
    assert w * dx == w * u * dist;
    assert u * dy == u * w * dist;
    assert -dy / dist == -w;
    assert (-w * k) * dx == -(k * (w * dx));
    assert (u * k) * dy == k * (u * dy);
  }

  /** `b` is the centre of mass of masses pm at `p` and mm at `q`. */
  predicate IsBarycenter(b: Vec, p: Vec, pm: real, q: Vec, mm: real)
  {
    b.x * (pm + mm) == p.x * pm + q.x * mm && b.y * (pm + mm) == p.y * pm + q.y * mm
  }

  /** The mass-weighted mean of two positions. */
  function Barycenter(p: Vec, pm: real, q: Vec, mm: real): (b: Vec)
    requires pm + mm != 0.0
    ensures IsBarycenter(b, p, pm, q, mm)
  {
    var totalMass := pm + mm;
    Vec((p.x * pm + q.x * mm) / totalMass, (p.y * pm + q.y * mm) / totalMass)
  }

  /**
   * The velocity of a circular orbit around a body of mass `mass` at offset
   * `off` from it: the circular speed, at right angles to the offset.
   */
  function CircularVelocity(off: Vec, mass: real, sqrt: real -> real): (v: Vec)
    requires PositiveOnPositives(sqrt)
    requires off != Zero
    ensures Perpendicular(v, off)
  {
    SquaresPositive(off.x, off.y);
    var dist := Hypot(off.x, off.y, sqrt);
    var speed := sqrt(BarnesHut.G * mass / dist);
    Tangent(off.x, off.y, dist, speed);
    Vec(-off.y / dist * speed, off.x / dist * speed)
  }

  /** The barycentre of a planet and its moon, its velocity, and the two bodies' velocities. */
  datatype Motion = Motion(bary: Vec, baryVel: Vec, planetVel: Vec, moonVel: Vec)

  /** What createMoonWithOrbit promises of the motion it sets up. */
  ghost predicate Orbiting(r: Motion, p: Vec, pm: real, q: Vec, mm: real, dir: Vec, star: Vec, sqrt: real -> real)
  {
    && IsBarycenter(r.bary, p, pm, q, mm)
    && Perpendicular(r.baryVel, Sub(r.bary, star))
    && Perpendicular(Sub(r.planetVel, r.baryVel), dir)
    && Perpendicular(Sub(r.moonVel, r.baryVel), dir)
    && (IsSqrt(sqrt) ==> MomentaCancel(pm, Sub(r.planetVel, r.baryVel), mm, Sub(r.moonVel, r.baryVel)))
  }

  /**
   * The motion createMoonWithOrbit sets up for a planet at `p` and a moon
   * at `q`, `distance` away in the direction (cosA, sinA): the pair's
   * barycentre circles the star; planet and moon circle the barycentre in
   * opposite directions at right angles to the line between them, at speeds
   * that give them opposite momenta about the barycentre when `sqrt` is exact.
   */
  function PairMotion(p: Vec, planetMass: real, q: Vec, moonMass: real, distance: real,
                      cosA: real, sinA: real, star: Orb, sqrt: real -> real): (r: Motion)
    requires PositiveOnPositives(sqrt)
    requires planetMass > 0.0 && moonMass > 0.0 && distance > 0.0
    requires Barycenter(p, planetMass, q, moonMass) != Vec(star.x, star.y)
    ensures Orbiting(r, p, planetMass, q, moonMass, Vec(cosA, sinA), Vec(star.x, star.y), sqrt)
  {
    var totalMass := planetMass + moonMass;
    var bary := Barycenter(p, planetMass, q, moonMass);
    var baryVel := CircularVelocity(Sub(bary, Vec(star.x, star.y)), star.mass, sqrt);
    MulPos(totalMass, distance);
    var planetOrbitalSpeed := sqrt(BarnesHut.G * moonMass * moonMass / (totalMass * distance));
    var moonOrbitalSpeed := sqrt(BarnesHut.G * planetMass * planetMass / (totalMass * distance));
    var r := Motion(bary, baryVel, Vec(baryVel.x - -sinA * planetOrbitalSpeed, baryVel.y - cosA * planetOrbitalSpeed),
                    Vec(baryVel.x + -sinA * moonOrbitalSpeed, baryVel.y + cosA * moonOrbitalSpeed));
    Counterturn(baryVel, sinA, cosA, planetOrbitalSpeed, moonOrbitalSpeed, r.planetVel, r.moonVel);
    ExactBalance(baryVel, sinA, cosA, planetMass, moonMass, totalMass * distance,
                 planetOrbitalSpeed, moonOrbitalSpeed, r.planetVel, r.moonVel, sqrt);
    r
  }

  /** Subtracting `ps` and adding `ms` along (-sin, cos) changes a velocity
      at right angles to (cos, sin). */
  lemma Counterturn(v: Vec, sinA: real, cosA: real, ps: real, ms: real, planetVel: Vec, moonVel: Vec)
    requires planetVel == Vec(v.x - -sinA * ps, v.y - cosA * ps)
    requires moonVel == Vec(v.x + -sinA * ms, v.y + cosA * ms)
    ensures Perpendicular(Sub(planetVel, v), Vec(cosA, sinA))
    ensures Perpendicular(Sub(moonVel, v), Vec(cosA, sinA))
  {
    assert Sub(planetVel, v) == Vec(sinA * ps, -(cosA * ps));
    assert Sub(moonVel, v) == Vec(-(sinA * ms), cosA * ms);
  }

  /** Speeds in the inverse ratio of the masses give opposite momenta. */
  lemma Balance(v: Vec, sinA: real, cosA: real, pm: real, mm: real, ps: real, ms: real,
                planetVel: Vec, moonVel: Vec)
    requires pm * ps == mm * ms
    requires planetVel == Vec(v.x - -sinA * ps, v.y - cosA * ps)
    requires moonVel == Vec(v.x + -sinA * ms, v.y + cosA * ms)
    ensures MomentaCancel(pm, Sub(planetVel, v), mm, Sub(moonVel, v))
  {
    assert Sub(planetVel, v) == Vec(sinA * ps, -(cosA * ps));
    assert Sub(moonVel, v) == Vec(-(sinA * ms), cosA * ms);
    assert pm * (sinA * ps) == sinA * (pm * ps);
    assert mm * -(sinA * ms) == -(sinA * (mm * ms));
    assert pm * -(cosA * ps) == -(cosA * (pm * ps));
    assert mm * (cosA * ms) == cosA * (mm * ms);
  }

  /** With an exact square root, planet and moon have opposite momenta about the barycentre. */
  lemma ExactBalance(v: Vec, sinA: real, cosA: real, pm: real, mm: real, d: real, ps: real, ms: real,
                     planetVel: Vec, moonVel: Vec, sqrt: real -> real)
    requires pm > 0.0 && mm > 0.0 && d > 0.0
    requires ps == sqrt(BarnesHut.G * mm * mm / d) && ms == sqrt(BarnesHut.G * pm * pm / d)
    requires planetVel == Vec(v.x - -sinA * ps, v.y - cosA * ps)
    requires moonVel == Vec(v.x + -sinA * ms, v.y + cosA * ms)
    ensures IsSqrt(sqrt) ==> MomentaCancel(pm, Sub(planetVel, v), mm, Sub(moonVel, v))
  {
    if IsSqrt(sqrt) {
      BalancedSpeeds(pm, mm, d, ps, ms, sqrt);
      Balance(v, sinA, cosA, pm, mm, ps, ms, planetVel, moonVel);
    }
  }

  /**
   * With an exact square root, sqrt(G m^2 / D) and sqrt(G M^2 / D) are in
   * the ratio m : M, so M times the first equals m times the second.
   */
  lemma BalancedSpeeds(pm: real, mm: real, d: real, planetSpeed: real, moonSpeed: real, sqrt: real -> real)
    requires IsSqrt(sqrt) && pm > 0.0 && mm > 0.0 && d > 0.0
    requires planetSpeed == sqrt(BarnesHut.G * mm * mm / d)
    requires moonSpeed == sqrt(BarnesHut.G * pm * pm / d)
    ensures pm * planetSpeed == mm * moonSpeed
  {
    var c := BarnesHut.G / d;
    assert BarnesHut.G * mm * mm / d == mm * mm * c;
    assert BarnesHut.G * pm * pm / d == pm * pm * c;
    MulNonNeg(mm * mm, c);
    MulNonNeg(pm * pm, c);
    assert planetSpeed >= 0.0 && planetSpeed * planetSpeed == mm * mm * c;
    assert moonSpeed >= 0.0 && moonSpeed * moonSpeed == pm * pm * c;
    MulNonNeg(pm, planetSpeed);
    MulNonNeg(mm, moonSpeed);
    assert (pm * planetSpeed) * (pm * planetSpeed) == pm * pm * (planetSpeed * planetSpeed);
    assert (mm * moonSpeed) * (mm * moonSpeed) == mm * mm * (moonSpeed * moonSpeed);
    SquareInjective(pm * planetSpeed, mm * moonSpeed);
  }

  /**
   * createMoonWithOrbit: a new moon `distance` away from the planet in the
   * direction (cosA, sinA), weighing half its radius like every planet, with
   * the picture `moonImage` when one is given and otherwise one picked by
   * `draw`; the planet keeps its place and gets a new velocity, and the two
   * move as PairMotion says.
   */
  method CreateMoonWithOrbit(planet: Planet, moonRadius: real, distance: real, cosA: real, sinA: real,
                             moonImage: Option<Image>, star: Orb, g: Galleries, draw: real,
                             sqrt: real -> real)
    returns (moon: Planet, ghost motion: Motion)
    requires PositiveOnPositives(sqrt)
    requires 0.0 <= draw < 1.0 && distance > 0.0
    requires planet.mass > 0.0 && moonRadius > 0.0
    requires Barycenter(Vec(planet.x, planet.y), planet.mass,
                        Vec(planet.x + cosA * distance, planet.y + sinA * distance),
                        moonRadius * PLANET_DENSITY) != Vec(star.x, star.y)
    modifies planet
    ensures fresh(moon) && moon.Valid() && moon.trail == []
    ensures moon.x == planet.x + cosA * distance && moon.y == planet.y + sinA * distance
    ensures moon.radius == moonRadius && moon.mass == moonRadius * PLANET_DENSITY
    ensures moon.image == if moonImage.Some? then moonImage else Pick(GalleryFor(g, moonRadius), draw)
    ensures planet.x == old(planet.x) && planet.y == old(planet.y) && planet.mass == old(planet.mass)
    ensures planet.radius == old(planet.radius) && planet.image == old(planet.image)
    ensures motion.planetVel == Vec(planet.velocityX, planet.velocityY)
    ensures motion.moonVel == Vec(moon.velocityX, moon.velocityY)
    ensures Orbiting(motion, Vec(planet.x, planet.y), planet.mass, Vec(moon.x, moon.y), moon.mass,
                     Vec(cosA, sinA), Vec(star.x, star.y), sqrt)
  {
    var moonX := planet.x + cosA * distance;
    var moonY := planet.y + sinA * distance;
    moon := new Planet(moonX, moonY, moonRadius, g, draw);
    if moonImage.Some? {
      moon.image := moonImage;
    }
    var m := PairMotion(Vec(planet.x, planet.y), planet.mass, Vec(moonX, moonY), moon.mass,
                        distance, cosA, sinA, star, sqrt);
    planet.velocityX := m.planetVel.x;
    planet.velocityY := m.planetVel.y;
    moon.velocityX := m.moonVel.x;
    moon.velocityY := m.moonVel.y;
    motion := m;
  }
}
