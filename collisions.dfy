/**
 * Contact between bodies in the main game: the two overlap tests, the
 * ship's bounce off a planet, comets destroyed on impact, and planets that
 * merge when they touch. Math.hypot is the parameter `sqrt` applied to the
 * squared length.
 */
module Collisions {
  import opened Numerics
  import opened Bodies

  // ---------------------------------------------------------------------
  // Overlap tests.

  /** checkBodyCollision: the centres are closer than the sum of the radii. */
  predicate BodiesCollide(a: Orb, b: Orb, sqrt: real -> real)
  {
    Hypot(a.x - b.x, a.y - b.y, sqrt) < a.radius + b.radius
  }

  /** With an exact square root, two bodies collide exactly when their discs overlap. */
  lemma BodiesCollideExactly(a: Orb, b: Orb, sqrt: real -> real)
    requires IsSqrt(sqrt)
    ensures BodiesCollide(a, b, sqrt) <==>
      var reach := a.radius + b.radius;
      reach > 0.0 && SquaredLength(a.x - b.x, a.y - b.y) < reach * reach
  {
    SqrtBelow(sqrt, SquaredLength(a.x - b.x, a.y - b.y), a.radius + b.radius);
  }

  /** Whichever body comes first, the answer is the same, for any square root. */
  lemma BodiesCollideSymmetric(a: Orb, b: Orb, sqrt: real -> real)
    ensures BodiesCollide(a, b, sqrt) == BodiesCollide(b, a, sqrt)
  {
    var dx, dy := a.x - b.x, a.y - b.y;
    assert (-dx) * (-dx) == dx * dx && (-dy) * (-dy) == dy * dy;
    assert SquaredLength(b.x - a.x, b.y - a.y) == SquaredLength(dx, dy);
  }

  /** The ship's state in the collision code: world position, velocity and health. */
  datatype ShipState = ShipState(x: real, y: real, vx: real, vy: real, health: int)

  /** checkCollision: the ship, seen as a disc of half its width, overlaps the planet. */
  predicate ShipCollides(s: ShipState, width: real, p: Orb, sqrt: real -> real)
  {
    Hypot(s.x - p.x, s.y - p.y, sqrt) < width / 2.0 + p.radius
  }

  /** With an exact square root, the ship collides exactly when the discs overlap. */
  lemma ShipCollidesExactly(s: ShipState, width: real, p: Orb, sqrt: real -> real)
    requires IsSqrt(sqrt)
    ensures ShipCollides(s, width, p, sqrt) <==>
      var reach := width / 2.0 + p.radius;
      reach > 0.0 && SquaredLength(s.x - p.x, s.y - p.y) < reach * reach
  {
    SqrtBelow(sqrt, SquaredLength(s.x - p.x, s.y - p.y), width / 2.0 + p.radius);
  }

  // ---------------------------------------------------------------------
  // The ship bouncing off a planet.

  /** An impact faster than this costs health. */
  const DAMAGE_THRESHOLD: real := 7.5
  /** An impact faster than this destroys the ship. */
  const FATAL_THRESHOLD: real := 20.0
  /** Health lost in a damaging impact. */
  const DAMAGE: int := 10
  /** The share of the reflected relative velocity the ship keeps. */
  const BOUNCE: real := 0.3

  /** Health after an impact of speed `impact`. */
  function Damaged(health: int, impact: real): (h: int)
    ensures impact > FATAL_THRESHOLD ==> h == 0
    ensures DAMAGE_THRESHOLD < impact <= FATAL_THRESHOLD ==> h == health - DAMAGE
    ensures impact <= DAMAGE_THRESHOLD ==> h == health
  {
    var h := if impact > DAMAGE_THRESHOLD then health - DAMAGE else health;
    if impact > FATAL_THRESHOLD then 0 else h
  }

  /** The ship's velocity relative to the planet. */
  function RelativeVelocity(s: ShipState, p: Orb): Vec
  {
    Vec(s.vx - p.vx, s.vy - p.vy)
  }

  /** The component of `v` across the normal `n` (along its left-hand perpendicular). */
  function Cross(v: Vec, n: Vec): real
  {
    v.y * n.x - v.x * n.y
  }

  /** `rel` reflected about the line at right angles to `n`, given `dot`, its part along `n`. */
  function Reflect(rel: Vec, n: Vec, dot: real): Vec
  {
    Vec(rel.x - 2.0 * dot * n.x, rel.y - 2.0 * dot * n.y)
  }

  /**
   * The collision response for one planet: when the ship overlaps the
   * planet at a non-zero distance, the rebound along the unit normal from
   * the planet's centre to the ship.
   */
  function Bounce(s: ShipState, width: real, p: Orb, sqrt: real -> real, stopWhenFatal: bool): ShipState
  {
    if !ShipCollides(s, width, p, sqrt) then s
    else
      var dx := s.x - p.x;
      var dy := s.y - p.y;
      var dist := Hypot(dx, dy, sqrt);
      if dist == 0.0 then s
      else Rebound(s, width, p, Vec(dx / dist, dy / dist), stopWhenFatal)
  }

  /**
   * The ship loses health by the impact speed (its relative velocity along
   * the normal `n`), its relative velocity is reflected about the normal and
   * damped to BOUNCE, and it is put one unit outside the planet along the
   * normal. `stopWhenFatal` chooses between the code as written (false: the
   * bounce velocity replaces the stop of a fatal impact) and the intended
   * behaviour (true: a destroyed ship stays at rest).
   */
  function Rebound(s: ShipState, width: real, p: Orb, n: Vec, stopWhenFatal: bool): ShipState
  {
    var rel := RelativeVelocity(s, p);
    var dot := Dot(rel, n);
    var impact := Abs(dot);
    var reach := width / 2.0 + p.radius + 1.0;
    var v := if stopWhenFatal && impact > FATAL_THRESHOLD then Zero
             else Add(Vec(p.vx, p.vy), Scale(Reflect(rel, n, dot), BOUNCE));
    var pos := Add(Vec(p.x, p.y), Scale(n, reach));
    ShipState(pos.x, pos.y, v.x, v.y, Damaged(s.health, impact))
  }

  /** The response as the code is written. */
  function RespondAsWritten(s: ShipState, width: real, p: Orb, sqrt: real -> real): ShipState
  {
    Bounce(s, width, p, sqrt, false)
  }

  /** The response the model uses: a fatal impact leaves the ship stopped. */
  function Respond(s: ShipState, width: real, p: Orb, sqrt: real -> real): ShipState
  {
    Bounce(s, width, p, sqrt, true)
  }

  /** With an exact square root, a displacement divided by its length has length one. */
  lemma UnitNormal(dx: real, dy: real, sqrt: real -> real)
    requires IsSqrt(sqrt) && (dx != 0.0 || dy != 0.0)
    ensures var dist := Hypot(dx, dy, sqrt);
      dist > 0.0 && Dot(Vec(dx / dist, dy / dist), Vec(dx / dist, dy / dist)) == 1.0
  {
    SquaresPositive(dx, dy);
    var q := SquaredLength(dx, dy);
    var dist := Hypot(dx, dy, sqrt);
    assert dist >= 0.0 && dist * dist == q;
    Normalized(dx, dy, q, dist);
  }

  lemma Normalized(dx: real, dy: real, q: real, dist: real)
    requires q == SquaredLength(dx, dy) && q > 0.0 && dist >= 0.0 && dist * dist == q
    ensures dist > 0.0 && Dot(Vec(dx / dist, dy / dist), Vec(dx / dist, dy / dist)) == 1.0
  {
    assert dist != 0.0;
    QuotientSquare(dx, dist);
    QuotientSquare(dy, dist);
    assert Square(dist) == q;
    PartsOfOne(Square(dx), Square(dy), q);
    var n := Vec(dx / dist, dy / dist);
    assert Dot(n, n) == Square(dx / dist) + Square(dy / dist);
  }

  lemma PartsOfOne(a: real, b: real, q: real)
    requires q > 0.0 && a + b == q
    ensures a / q + b / q == 1.0
  {
    assert a / q + b / q == (a + b) / q;
  }

  /** A unit vector scaled by k has squared length k * k. */
  lemma ScaledUnit(n: Vec, k: real)
    requires Dot(n, n) == 1.0
    ensures SquaredLength(Scale(n, k).x, Scale(n, k).y) == k * k
  {
    assert (n.x * k) * (n.x * k) + (n.y * k) * (n.y * k) == (n.x * n.x + n.y * n.y) * (k * k);
  }

  /** When the ship's centre is not the planet's, the response is the
      rebound along the exact unit normal. */
  lemma RespondIsRebound(s: ShipState, width: real, p: Orb, sqrt: real -> real, stopWhenFatal: bool)
    requires IsSqrt(sqrt) && ShipCollides(s, width, p, sqrt) && (s.x != p.x || s.y != p.y)
    ensures var dist := Hypot(s.x - p.x, s.y - p.y, sqrt);
      dist > 0.0 &&
      var n := Vec((s.x - p.x) / dist, (s.y - p.y) / dist);
      Dot(n, n) == 1.0 && Bounce(s, width, p, sqrt, stopWhenFatal) == Rebound(s, width, p, n, stopWhenFatal)
  {
    UnitNormal(s.x - p.x, s.y - p.y, sqrt);
  }

  /**
   * A colliding ship ends up one unit outside the planet's reach, so it no
   * longer collides with it; a ship that does not collide is left as it is.
   */
  lemma RespondSeparates(s: ShipState, width: real, p: Orb, sqrt: real -> real, stopWhenFatal: bool)
    requires IsSqrt(sqrt)
    ensures !ShipCollides(s, width, p, sqrt) ==> Bounce(s, width, p, sqrt, stopWhenFatal) == s
    ensures s.x != p.x || s.y != p.y ==> !ShipCollides(Bounce(s, width, p, sqrt, stopWhenFatal), width, p, sqrt)
  {
    if ShipCollides(s, width, p, sqrt) && (s.x != p.x || s.y != p.y) {
      RespondIsRebound(s, width, p, sqrt, stopWhenFatal);
      var dist := Hypot(s.x - p.x, s.y - p.y, sqrt);
      var n := Vec((s.x - p.x) / dist, (s.y - p.y) / dist);
      var reach := width / 2.0 + p.radius + 1.0;
      assert reach > 1.0;
      ReboundPlaces(s, width, p, n, stopWhenFatal);
      var r := Rebound(s, width, p, n, stopWhenFatal);
      assert SquaredLength(r.x - p.x, r.y - p.y) == reach * reach;
      ExactRoot(sqrt, reach);
    }
  }

  /** An exact square root of k * k is k, for k >= 0. */
  lemma ExactRoot(sqrt: real -> real, k: real)
    requires IsSqrt(sqrt) && k >= 0.0
    ensures sqrt(k * k) == k
  {
    assert k * k >= 0.0;
    assert sqrt(k * k) >= 0.0 && sqrt(k * k) * sqrt(k * k) == k * k;
    SquareInjective(sqrt(k * k), k);
  }

  /** The rebound puts the ship `reach` away from the planet's centre. */
  lemma ReboundPlaces(s: ShipState, width: real, p: Orb, n: Vec, stopWhenFatal: bool)
    requires Dot(n, n) == 1.0
    ensures var r := Rebound(s, width, p, n, stopWhenFatal);
      var reach := width / 2.0 + p.radius + 1.0;
      SquaredLength(r.x - p.x, r.y - p.y) == reach * reach
  {
    var r := Rebound(s, width, p, n, stopWhenFatal);
    var reach := width / 2.0 + p.radius + 1.0;
    assert r.x - p.x == Scale(n, reach).x && r.y - p.y == Scale(n, reach).y;
    ScaledUnit(n, reach);
  }

  /**
   * After an impact, the relative velocity's part along the normal is
   * reversed and damped to BOUNCE and its part across the normal is damped
   * to BOUNCE, except that with the fatal stop a fatal impact leaves the
   * ship at rest. Health drops by DAMAGE on a damaging impact and to zero on
   * a fatal one.
   */
  lemma ReboundReflects(s: ShipState, width: real, p: Orb, n: Vec, stopWhenFatal: bool)
    requires Dot(n, n) == 1.0
    ensures var r := Rebound(s, width, p, n, stopWhenFatal);
      var dot := Dot(RelativeVelocity(s, p), n);
      && r.health == Damaged(s.health, Abs(dot))
      && (stopWhenFatal && Abs(dot) > FATAL_THRESHOLD ==> r.vx == 0.0 && r.vy == 0.0)
      && (!stopWhenFatal || Abs(dot) <= FATAL_THRESHOLD ==>
            && Dot(RelativeVelocity(r, p), n) == -BOUNCE * dot
            && Cross(RelativeVelocity(r, p), n) == BOUNCE * Cross(RelativeVelocity(s, p), n))
  {
    var rel := RelativeVelocity(s, p);
    var dot := Dot(rel, n);
    var r := Rebound(s, width, p, n, stopWhenFatal);
    if !stopWhenFatal || Abs(dot) <= FATAL_THRESHOLD {
      var out := Scale(Reflect(rel, n, dot), BOUNCE);
      assert RelativeVelocity(r, p) == out;
      Reflection(rel, n, out);
    }
  }

  /** Reflecting `rel` about the unit normal `n` and damping it to BOUNCE
      reverses and damps its normal part and damps its tangential part. */
  lemma Reflection(rel: Vec, n: Vec, out: Vec)
    requires Dot(n, n) == 1.0 && out == Scale(Reflect(rel, n, Dot(rel, n)), BOUNCE)
    ensures Dot(out, n) == -BOUNCE * Dot(rel, n)
    ensures Cross(out, n) == BOUNCE * Cross(rel, n)
  {
    var dot := Dot(rel, n);
    assert Dot(out, n) == BOUNCE * (dot - 2.0 * dot * Dot(n, n));
    assert Cross(out, n) == BOUNCE * Cross(rel, n) - 2.0 * BOUNCE * dot * (n.y * n.x - n.x * n.y);
  }

  /**
   * The code as written lets a destroyed ship fly on: a ship 10 units above
   * a resting planet of radius 50, falling onto it at 30 units per frame,
   * has its health set to 0 but leaves with vertical speed 9 instead of
   * standing still.
   */
  lemma FatalImpactKeepsMoving(s: ShipState, p: Orb, sqrt: real -> real)
    requires IsSqrt(sqrt) && Falling(s, p)
    ensures ShipCollides(s, 32.0, p, sqrt)
    ensures RespondAsWritten(s, 32.0, p, sqrt).health == 0
    ensures RespondAsWritten(s, 32.0, p, sqrt).vy == 9.0
    ensures Respond(s, 32.0, p, sqrt).vy == 0.0
  {
    BounceUpward(s, 32.0, p, sqrt, false);
    BounceUpward(s, 32.0, p, sqrt, true);
    FallingShipAsWritten(s, p);
    FallingShipStopped(s, p);
  }

  /** A ship 10 units straight above the centre of a planet it overlaps
      rebounds along the upward normal. */
  lemma BounceUpward(s: ShipState, width: real, p: Orb, sqrt: real -> real, stopWhenFatal: bool)
    requires IsSqrt(sqrt)
    requires s.x == 0.0 && s.y == 10.0 && p.x == 0.0 && p.y == 0.0
    requires width / 2.0 + p.radius > 10.0
    ensures ShipCollides(s, width, p, sqrt)
    ensures Bounce(s, width, p, sqrt, stopWhenFatal) == Rebound(s, width, p, Up, stopWhenFatal)
  {
    var dist := Hypot(s.x - p.x, s.y - p.y, sqrt);
    TenApart(s, p, sqrt, dist);
    assert Vec((s.x - p.x) / dist, (s.y - p.y) / dist) == Up;
  }

  /** The falling ship is 10 units from the planet's centre. */
  lemma TenApart(s: ShipState, p: Orb, sqrt: real -> real, dist: real)
    requires IsSqrt(sqrt)
    requires s.x == 0.0 && s.y == 10.0 && p.x == 0.0 && p.y == 0.0
    requires dist == Hypot(s.x - p.x, s.y - p.y, sqrt)
    ensures dist == 10.0
  {
    assert SquaredLength(s.x - p.x, s.y - p.y) == 10.0 * 10.0;
    ExactRoot(sqrt, 10.0);
  }

  /** The falling ship's rebound along the upward normal as the code is
      written: destroyed, yet moving up at 9. */
  lemma FallingShipAsWritten(s: ShipState, p: Orb)
    requires Falling(s, p)
    ensures Rebound(s, 32.0, p, Up, false).health == 0
    ensures Rebound(s, 32.0, p, Up, false).vy == 9.0
  {
    var r := Rebound(s, 32.0, p, Up, false);
    AlongUp(RelativeVelocity(s, p));
    AlongUp(RelativeVelocity(r, p));
    ReboundReflects(s, 32.0, p, Up, false);
  }

  /** The same rebound with the fatal stop: destroyed and at rest. */
  lemma FallingShipStopped(s: ShipState, p: Orb)
    requires Falling(s, p)
    ensures Rebound(s, 32.0, p, Up, true).health == 0
    ensures Rebound(s, 32.0, p, Up, true).vy == 0.0
  {
    AlongUp(RelativeVelocity(s, p));
    ReboundReflects(s, 32.0, p, Up, true);
  }

  /** The upward unit normal. */
  const Up: Vec := Vec(0.0, 1.0)

  /** A vector's part along the upward normal is its vertical part. */
  lemma AlongUp(v: Vec)
    ensures Dot(v, Up) == v.y
  {
  }

  /** A ship with full health 10 units above the centre of a resting planet
      of radius 50, falling onto it at 30 units per frame. */
  predicate Falling(s: ShipState, p: Orb)
  {
    && s.x == 0.0 && s.y == 10.0 && s.vx == 0.0 && s.vy == -30.0 && s.health == 100
    && p.x == 0.0 && p.y == 0.0 && p.vx == 0.0 && p.vy == 0.0 && p.radius == 50.0
  }

  /** The ship of the main game. */
  class Ship {
    var worldX: real
    var worldY: real
    var velocityX: real
    var velocityY: real
    var health: int
    const width: real

    /** The Ship constructor's world position, width and health. */
    constructor ()
      ensures State() == ShipState(0.0, 350.0, 0.0, 0.0, 100) && width == 32.0
    {
      worldX, worldY := 0.0, 350.0;
      velocityX, velocityY := 0.0, 0.0;
      health := 100;
      width := 32.0;
    }

    function State(): ShipState
      reads this
    {
      ShipState(worldX, worldY, velocityX, velocityY, health)
    }

    /** The collision response against one planet, as the code is written:
        the stop of a fatal impact is overwritten by the bounce. */
    method CollideWith(p: Orb, sqrt: real -> real)
      modifies this
      ensures State() == RespondAsWritten(old(State()), width, p, sqrt)
    {
      if !ShipCollides(State(), width, p, sqrt) {
        return;
      }
      var dx := worldX - p.x;
      var dy := worldY - p.y;
      var dist := Hypot(dx, dy, sqrt);
      if dist == 0.0 {
        return;
      }
      var n := Vec(dx / dist, dy / dist);
      var rel := RelativeVelocity(State(), p);
      var dot := Dot(rel, n);
      var impact := Abs(dot);
      health := Damaged(health, impact);
      if impact > FATAL_THRESHOLD {
        velocityX, velocityY := 0.0, 0.0;
      }
      var v := Add(Vec(p.vx, p.vy), Scale(Reflect(rel, n, dot), BOUNCE));
      velocityX, velocityY := v.x, v.y;
      var reach := width / 2.0 + p.radius + 1.0;
      var pos := Add(Vec(p.x, p.y), Scale(n, reach));
      worldX, worldY := pos.x, pos.y;
    }

    /** The collision pass over every planet, in order. */
    method CollideWithPlanets(planets: seq<Orb>, sqrt: real -> real)
      modifies this
      ensures State() == RespondAll(old(State()), width, planets, sqrt)
    {
      var k := 0;
      while k < |planets|
        invariant 0 <= k <= |planets|
        invariant State() == RespondAll(old(State()), width, planets[..k], sqrt)
      {
        CollideWith(planets[k], sqrt);
        RespondAllStep(old(State()), width, planets, k, sqrt);
        k := k + 1;
      }
      assert planets[..k] == planets;
    }
  }

  /** The ship's state after the responses (as written) to each planet in
      turn. */
  function RespondAll(s: ShipState, width: real, planets: seq<Orb>, sqrt: real -> real): ShipState
    decreases |planets|
  {
    if planets == [] then s
    else RespondAsWritten(RespondAll(s, width, planets[..|planets| - 1], sqrt), width, planets[|planets| - 1], sqrt)
  }

  lemma RespondAllStep(s: ShipState, width: real, planets: seq<Orb>, k: nat, sqrt: real -> real)
    requires k < |planets|
    ensures RespondAll(s, width, planets[..k + 1], sqrt)
         == RespondAsWritten(RespondAll(s, width, planets[..k], sqrt), width, planets[k], sqrt)
  {
    assert planets[..k + 1][..k] == planets[..k];
  }

  /** Once every response has run, a ship that did not start inside any
      planet's centre is outside the last planet it met. */
  lemma RespondAllSeparatesLast(s: ShipState, width: real, planets: seq<Orb>, sqrt: real -> real)
    requires IsSqrt(sqrt) && planets != []
    requires var before := RespondAll(s, width, planets[..|planets| - 1], sqrt);
             var last := planets[|planets| - 1];
             before.x != last.x || before.y != last.y
    ensures !ShipCollides(RespondAll(s, width, planets, sqrt), width, planets[|planets| - 1], sqrt)
  {
    RespondSeparates(RespondAll(s, width, planets[..|planets| - 1], sqrt), width, planets[|planets| - 1], sqrt, false);
  }

  // ---------------------------------------------------------------------
  // Comets.

  /** A comet is destroyed when it touches the star or any planet. */
  predicate Crashes(c: Orb, star: Orb, planets: seq<Orb>, sqrt: real -> real)
  {
    BodiesCollide(star, c, sqrt) || exists p | p in planets :: BodiesCollide(p, c, sqrt)
  }

  /** The comet filter: the comets that do not crash, in their order
      (SurvivingMembers and SurvivingInOrder say which and how). */
  function Surviving(comets: seq<Orb>, star: Orb, planets: seq<Orb>, sqrt: real -> real): (r: seq<Orb>)
    ensures |r| <= |comets|
  {
    if comets == [] then []
    else
      var rest := Surviving(comets[1..], star, planets, sqrt);
      if Crashes(comets[0], star, planets, sqrt) then rest else [comets[0]] + rest
  }

  /** Each surviving comet keeps every one of its copies and a crashing one
      keeps none. */
  lemma {:induction false} SurvivingMembers(comets: seq<Orb>, star: Orb, planets: seq<Orb>, sqrt: real -> real)
    ensures var r := Surviving(comets, star, planets, sqrt);
      && (forall c :: c in r <==> c in comets && !Crashes(c, star, planets, sqrt))
      && (forall c :: multiset(r)[c] == if Crashes(c, star, planets, sqrt) then 0 else multiset(comets)[c])
      && multiset(r) <= multiset(comets)
  {
    if comets != [] {
      SurvivingMembers(comets[1..], star, planets, sqrt);
      assert comets == [comets[0]] + comets[1..];
    }
  }

  /** The filter keeps the order: filtering a concatenation concatenates
      the filtered parts. */
  lemma {:induction false} SurvivingInOrder(a: seq<Orb>, b: seq<Orb>, star: Orb, planets: seq<Orb>,
                                            sqrt: real -> real)
    ensures Surviving(a + b, star, planets, sqrt) == Surviving(a, star, planets, sqrt) + Surviving(b, star, planets, sqrt)
  {
    if a == [] {
      assert a + b == b;
    } else {
      var ab := a + b;
      assert ab != [] && ab[0] == a[0] && ab[1..] == a[1..] + b;
      SurvivingInOrder(a[1..], b, star, planets, sqrt);
      var front := Surviving(a[1..], star, planets, sqrt);
      var back := Surviving(b, star, planets, sqrt);
      var head := if Crashes(a[0], star, planets, sqrt) then [] else [a[0]];
      assert Surviving(a, star, planets, sqrt) == head + front;
      assert Surviving(ab, star, planets, sqrt) == head + (front + back);
      assert head + (front + back) == (head + front) + back;
    }
  }

  /** A single comet is kept exactly when it does not crash; with
      SurvivingInOrder this fixes the filter on every list. */
  lemma SurvivingOne(c: Orb, star: Orb, planets: seq<Orb>, sqrt: real -> real)
    ensures Surviving([c], star, planets, sqrt) == if Crashes(c, star, planets, sqrt) then [] else [c]
  {
    assert [c][1..] == [];
  }

  /** Filtering twice removes nothing more. */
  lemma SurvivingIdempotent(comets: seq<Orb>, star: Orb, planets: seq<Orb>, sqrt: real -> real)
    ensures var r := Surviving(comets, star, planets, sqrt);
      Surviving(r, star, planets, sqrt) == r
  {
    if comets != [] {
      SurvivingIdempotent(comets[1..], star, planets, sqrt);
    }
  }

  // ---------------------------------------------------------------------
  // Merging planets.

  /** The summed mass of a list of bodies. */
  function TotalMass(s: seq<Orb>): real
  {
    if s == [] then 0.0 else TotalMass(s[..|s| - 1]) + s[|s| - 1].mass
  }

  /**
   * The planet two colliding planets become: at the midpoint, with the
   * summed mass (its radius is the mass over PLANET_DENSITY, and the Planet
   * constructor weighs it back to that sum) and the plain average of the
   * velocities.
   */
  function Merged(a: Orb, b: Orb): (m: Orb)
    ensures m.mass == a.mass + b.mass
    ensures m.radius * PLANET_DENSITY == a.mass + b.mass
  {
    var newRadius := PlanetRadiusOf(a.mass + b.mass);
    Orb((a.x + b.x) / 2.0, (a.y + b.y) / 2.0, (a.vx + b.vx) / 2.0, (a.vy + b.vy) / 2.0,
        newRadius * PLANET_DENSITY, newRadius)
  }

  /** The merged planet carries the pair's momentum exactly when the two
      masses are equal or the two velocities are. */
  lemma MergedMomentum(a: Orb, b: Orb)
    ensures var m := Merged(a, b);
      m.mass * m.vx == a.mass * a.vx + b.mass * b.vx <==> a.mass == b.mass || a.vx == b.vx
  {
    var m := Merged(a, b);
    assert m.mass * m.vx - (a.mass * a.vx + b.mass * b.vx) == -(a.mass - b.mass) * (a.vx - b.vx) / 2.0;
  }

  /** `s` without its element at `j` (`splice(j, 1)`). */
  function RemoveAt(s: seq<Orb>, j: nat): (r: seq<Orb>)
    requires j < |s|
    ensures |r| == |s| - 1
    ensures forall k | 0 <= k < j :: r[k] == s[k]
    ensures forall k | j <= k < |r| :: r[k] == s[k + 1]
  {
    s[..j] + s[j + 1..]
  }

  /** Planets i and j (i < j) replaced by their merger at position i. */
  function MergeAt(ps: seq<Orb>, i: nat, j: nat): (r: seq<Orb>)
    requires i < j < |ps|
    ensures |r| == |ps| - 1 && r[i] == Merged(ps[i], ps[j]) && r[..i] == ps[..i]
    ensures r[i + 1..] == ps[i + 1..j] + ps[j + 1..]
    ensures TotalMass(r) == TotalMass(ps)
  {
    var removed := RemoveAt(ps, j);
    MassWithout(ps, j);
    MassReplaced(removed, i, Merged(ps[i], ps[j]));
    removed[i := Merged(ps[i], ps[j])]
  }

  lemma {:induction false} MassWithout(s: seq<Orb>, j: nat)
    requires j < |s|
    ensures TotalMass(RemoveAt(s, j)) == TotalMass(s) - s[j].mass
    decreases |s|
  {
    var r := RemoveAt(s, j);
    if j == |s| - 1 {
      assert r == s[..|s| - 1];
    } else {
      var t := s[..|s| - 1];
      MassWithout(t, j);
      assert RemoveAt(t, j) == r[..|r| - 1];
    }
  }

  lemma {:induction false} MassReplaced(s: seq<Orb>, i: nat, v: Orb)
    requires i < |s|
    ensures TotalMass(s[i := v]) == TotalMass(s) - s[i].mass + v.mass
    decreases |s|
  {
    var r := s[i := v];
    if i == |s| - 1 {
      assert r[..|r| - 1] == s[..|s| - 1];
    } else {
      var t := s[..|s| - 1];
      MassReplaced(t, i, v);
      assert t[i := v] == r[..|r| - 1];
    }
  }

  /** The first j' >= j whose planet collides with planet i. */
  function FirstPartner(ps: seq<Orb>, i: nat, j: nat, sqrt: real -> real): (r: Option<nat>)
    requires i < |ps|
    ensures r.Some? ==> j <= r.value < |ps| && BodiesCollide(ps[i], ps[r.value], sqrt)
    ensures forall k | j <= k < |ps| && (r.None? || k < r.value) :: !BodiesCollide(ps[i], ps[k], sqrt)
    decreases |ps| - j
  {
    if j >= |ps| then None
    else if BodiesCollide(ps[i], ps[j], sqrt) then Some(j)
    else FirstPartner(ps, i, j + 1, sqrt)
  }

  /**
   * The merge pass from position i on: planet i merges with the first later
   * planet it collides with, if any, and the pass moves on to position i + 1
   * (the merged planet is not compared again in the same pass).
   */
  function MergePass(ps: seq<Orb>, i: nat, sqrt: real -> real): (r: seq<Orb>)
    ensures TotalMass(r) == TotalMass(ps)
    ensures |r| <= |ps|
    ensures i <= |ps| ==> |r| >= i && r[..i] == ps[..i]
    decreases |ps| - i
  {
    if i >= |ps| then ps
    else match FirstPartner(ps, i, i + 1, sqrt)
      case None => MergePass(ps, i + 1, sqrt)
      case Some(j) =>
        var merged := MergeAt(ps, i, j);
        var r := MergePass(merged, i + 1, sqrt);
        assert r[..i] == r[..i + 1][..i];
        r
  }

  /** A pass over planets none of which collide changes nothing. */
  lemma {:induction false} MergePassApart(ps: seq<Orb>, i: nat, sqrt: real -> real)
    requires forall a, b | 0 <= a < b < |ps| :: !BodiesCollide(ps[a], ps[b], sqrt)
    ensures MergePass(ps, i, sqrt) == ps
    decreases |ps| - i
  {
    if i < |ps| {
      var f := FirstPartner(ps, i, i + 1, sqrt);
      assert f.None?;
      MergePassApart(ps, i + 1, sqrt);
    }
  }

  /** The game's lists of bodies that the draw loop filters and merges. */
  class World {
    var star: Orb
    var planets: seq<Orb>
    var comets: seq<Orb>

    constructor (star0: Orb, planets0: seq<Orb>, comets0: seq<Orb>)
      ensures star == star0 && planets == planets0 && comets == comets0
    {
      star, planets, comets := star0, planets0, comets0;
    }

    /** The comet filter of the draw loop. */
    method RemoveCrashedComets(sqrt: real -> real)
      modifies this
      ensures comets == Surviving(old(comets), star, planets, sqrt)
      ensures star == old(star) && planets == old(planets)
    {
      comets := Surviving(comets, star, planets, sqrt);
    }

    /** The merge loop of the draw loop. */
    method MergePlanets(sqrt: real -> real)
      modifies this
      ensures planets == MergePass(old(planets), 0, sqrt)
      ensures star == old(star) && comets == old(comets)
    {
      var i := 0;
      while i < |planets|
        invariant 0 <= i <= |planets|
        invariant MergePass(planets, i, sqrt) == MergePass(old(planets), 0, sqrt)
        invariant star == old(star) && comets == old(comets)
        decreases |planets| - i
      {
        ghost var before := planets;
        var j := i + 1;
        while j < |planets|
          invariant i + 1 <= j <= |planets|
          invariant planets == before
          invariant FirstPartner(planets, i, i + 1, sqrt) == FirstPartner(planets, i, j, sqrt)
          decreases |planets| - j
        {
          if BodiesCollide(planets[i], planets[j], sqrt) {
            var merged := Merged(planets[i], planets[j]);
            planets := RemoveAt(planets, j);
            planets := planets[i := merged];
            assert planets == MergeAt(before, i, j);
            break;
          }
          j := j + 1;
        }
        i := i + 1;
      }
    }
  }
}
