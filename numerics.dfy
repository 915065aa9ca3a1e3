/**
 * Shared arithmetic of the game: vectors, axis-aligned boxes and their
 * quadrants, the square root the game takes through Math.sqrt and Math.hypot
 * (a parameter of every operation that needs one), JavaScript's `%` on
 * numbers, Math.round and Math.PI.
 */
module Numerics {

  /** A value that may be missing, as the game's `null`. */
  datatype Option<T> = None | Some(value: T)

  /** A 2-D vector or point, like the `{x, y}` / `{fx, fy}` records of the game. */
  datatype Vec = Vec(x: real, y: real)

  const Zero: Vec := Vec(0.0, 0.0)

  /** The difference of two vectors. */
  function Sub(a: Vec, b: Vec): (r: Vec)
    ensures Add(r, b) == a
  {
    Vec(a.x - b.x, a.y - b.y)
  }

  /** `v` scaled by `k`. */
  function Scale(v: Vec, k: real): Vec
  {
    Vec(v.x * k, v.y * k)
  }

  /** The dot product. */
  function Dot(a: Vec, b: Vec): real
  {
    a.x * b.x + a.y * b.y
  }

  /** `v` is at right angles to `w` (or one of them is zero). */
  predicate Perpendicular(v: Vec, w: Vec)
  {
    v.x * w.x + v.y * w.y == 0.0
  }

  /** Bodies of masses m1 and m2 moving at v1 and v2 have opposite momenta. */
  predicate MomentaCancel(m1: real, v1: Vec, m2: real, v2: Vec)
  {
    m1 * v1.x + m2 * v2.x == 0.0 && m1 * v1.y + m2 * v2.y == 0.0
  }

  function Add(a: Vec, b: Vec): (r: Vec)
    ensures r.x == a.x + b.x && r.y == a.y + b.y
  {
    Vec(a.x + b.x, a.y + b.y)
  }

  function Max(a: real, b: real): (r: real)
    ensures r >= a && r >= b && (r == a || r == b)
  {
    if a >= b then a else b
  }

  function Min(a: real, b: real): (r: real)
    ensures r <= a && r <= b && (r == a || r == b)
  {
    if a <= b then a else b
  }

  function Abs(a: real): (r: real)
    ensures r >= 0.0 && (r == a || r == -a)
  {
    if a >= 0.0 then a else -a
  }

  /** Math.PI as the double it denotes, written out in decimal. */
  const PI: real := 3.141592653589793
  const TWO_PI: real := 2.0 * PI

  /** The `{fx, fy}` record that both quadtrees' calculateForce add into. */
  class ForceAccumulator {
    var fx: real
    var fy: real

    constructor ()
      ensures Value() == Zero
    {
      fx := 0.0;
      fy := 0.0;
    }

    /** The accumulated force as a value. */
    function Value(): Vec
      reads this
    {
      Vec(fx, fy)
    }
  }

  // ---------------------------------------------------------------------
  // Square roots. The game only ever calls Math.sqrt / Math.hypot; the model
  // takes the function as a parameter and states what each proof needs of it.

  /** Enough for every division by a distance the game performs. */
  ghost predicate PositiveOnPositives(sqrt: real -> real)
  {
    forall x :: x > 0.0 ==> sqrt(x) > 0.0
  }

  /** The exact square root on non-negative reals. */
  ghost predicate IsSqrt(sqrt: real -> real)
  {
    forall x :: x >= 0.0 ==> sqrt(x) >= 0.0 && sqrt(x) * sqrt(x) == x
  }

  /** `a * a`, never negative. */
  function Square(a: real): (s: real)
    ensures s >= 0.0
  {
    SquareSign(a, a * a);
    a * a
  }

  lemma SquareSign(a: real, s: real)
    requires s == a * a
    ensures s >= 0.0
    ensures a != 0.0 ==> s > 0.0
  {
    if a < 0.0 {
      ProductPos(-a, -a, s);
    } else if a > 0.0 {
      ProductPos(a, a, s);
    }
  }

  /** The squared length of the displacement (dx, dy). */
  function SquaredLength(dx: real, dy: real): (q: real)
    ensures q >= 0.0
  {
    Square(dx) + Square(dy)
  }

  /** A displacement other than zero has a positive squared length. */
  lemma SquaresPositive(dx: real, dy: real)
    requires dx != 0.0 || dy != 0.0
    ensures SquaredLength(dx, dy) > 0.0
  {
    SquareSign(dx, Square(dx));
    SquareSign(dy, Square(dy));
  }

  /** `Math.hypot(dx, dy)`, the length of a displacement. */
  function Hypot(dx: real, dy: real, sqrt: real -> real): real
  {
    sqrt(SquaredLength(dx, dy))
  }

  /** A pull of strength `force` along (dx, dy), whose length is `dist`. */
  function Pull(dx: real, dy: real, dist: real, force: real): Vec
    requires dist > 0.0
  {
    Vec(dx / dist * force, dy / dist * force)
  }

  /** A pull points along (dx, dy), and away from it only for a negative
      strength. */
  lemma PullAlong(dx: real, dy: real, dist: real, force: real)
    requires dist > 0.0
    ensures Pull(dx, dy, dist, force).x * dy == Pull(dx, dy, dist, force).y * dx
    ensures force >= 0.0 ==>
      Pull(dx, dy, dist, force).x * dx + Pull(dx, dy, dist, force).y * dy >= 0.0
  {
    var k := force / dist;
    var p := Pull(dx, dy, dist, force);
    assert p.x == dx * k;
    assert p.y == dy * k;
    assert (dx * k) * dy == (dy * k) * dx;
    if force >= 0.0 {
      assert k >= 0.0;
      assert (dx * k) * dx + (dy * k) * dy == (dx * dx + dy * dy) * k;
      assert dx * dx + dy * dy >= 0.0;
      MulNonNeg(dx * dx + dy * dy, k);
    }
  }

  lemma ExactSqrtIsPositive(sqrt: real -> real)
    requires IsSqrt(sqrt)
    ensures PositiveOnPositives(sqrt)
  {
    forall x | x > 0.0
      ensures sqrt(x) > 0.0
    {
      assert sqrt(x) >= 0.0 && sqrt(x) * sqrt(x) == x;
    }
  }

  /** The square of a quotient is the quotient of the squares. */
  lemma QuotientSquare(d: real, m: real)
    requires m != 0.0
    ensures Square(m) > 0.0 && Square(d / m) == Square(d) / Square(m)
  {
    SquareSign(m, Square(m));
    var u := d / m;
    assert u * m == d;
    QuotientOfSquares(u, m, d, Square(u), Square(m), Square(d));
  }

  lemma QuotientOfSquares(u: real, m: real, d: real, su: real, sm: real, sd: real)
    requires u * m == d && su == u * u && sm == m * m && sd == d * d && sm > 0.0
    ensures su == sd / sm
  {
    assert su * sm == (u * m) * (u * m);
  }

  /** Non-negative numbers with equal squares are equal. */
  lemma SquareInjective(a: real, b: real)
    requires 0.0 <= a && 0.0 <= b && a * a == b * b
    ensures a == b
  {
    SquareMonotone(a, b);
  }

  lemma SquareMonotone(a: real, b: real)
    requires 0.0 <= a && 0.0 <= b
    ensures a < b <==> a * a < b * b
    ensures a <= b <==> a * a <= b * b
  {
    if a < b {
      SquareGrows(a, b);
    } else if b < a {
      SquareGrows(b, a);
    }
  }

  lemma SquareGrows(a: real, b: real)
    requires 0.0 <= a < b
    ensures a * a < b * b
  {
    var d := b - a;
    assert b * b == a * a + 2.0 * a * d + d * d;
    assert d * d > 0.0;
    assert a * d >= 0.0;
  }

  /** `sqrt(q) < c` holds exactly when `c` is positive and `q < c * c`. */
  lemma SqrtBelow(sqrt: real -> real, q: real, c: real)
    requires IsSqrt(sqrt) && q >= 0.0
    ensures sqrt(q) < c <==> c > 0.0 && q < c * c
  {
    var s := sqrt(q);
    assert s >= 0.0 && s * s == q;
    if c > 0.0 {
      SquareMonotone(s, c);
    }
  }

  /** `sqrt(q) <= c` holds exactly when `c` is non-negative and `q <= c * c`. */
  lemma SqrtAtMost(sqrt: real -> real, q: real, c: real)
    requires IsSqrt(sqrt) && q >= 0.0
    ensures sqrt(q) <= c <==> c >= 0.0 && q <= c * c
  {
    var s := sqrt(q);
    assert s >= 0.0 && s * s == q;
    if c >= 0.0 {
      SquareMonotone(s, c);
    }
  }

  // ---------------------------------------------------------------------
  // JavaScript number operators.

  /** Truncation toward zero. */
  function Trunc(r: real): (n: int)
    ensures r >= 0.0 ==> n as real <= r < n as real + 1.0
    ensures r < 0.0 ==> n as real - 1.0 < r <= n as real
  {
    if r >= 0.0 then r.Floor else -((-r).Floor)
  }

  /**
   * JavaScript's `a % b` on numbers: the remainder of the truncated quotient,
   * which has the sign of `a` (Dafny's own `%` is Euclidean).
   */
  function JsRem(a: real, b: real): (r: real)
    requires b > 0.0
    ensures a >= 0.0 ==> 0.0 <= r < b
    ensures a < 0.0 ==> -b < r <= 0.0
  {
    var q := Trunc(a / b);
    QuotientBounds(a, b, q);
    a - b * q as real
  }

  lemma QuotientBounds(a: real, b: real, q: int)
    requires b > 0.0
    requires a / b >= 0.0 ==> (q as real) <= a / b < (q as real) + 1.0
    requires a / b < 0.0 ==> (q as real) - 1.0 < a / b <= (q as real)
    ensures a >= 0.0 ==> 0.0 <= a - b * (q as real) < b
    ensures a < 0.0 ==> -b < a - b * (q as real) <= 0.0
  {
    var t := a / b;
    assert a == b * t;
    ScaledFraction(a, b, t, q as real);
  }

  /** a - b * q is b times the fractional part t - q of t = a / b. */
  lemma ScaledFraction(a: real, b: real, t: real, q: real)
    requires b > 0.0 && a == b * t
    requires t >= 0.0 ==> q <= t < q + 1.0
    requires t < 0.0 ==> q - 1.0 < t <= q
    ensures a >= 0.0 ==> 0.0 <= a - b * q < b
    ensures a < 0.0 ==> -b < a - b * q <= 0.0
  {
    SignOfProduct(a, b, t);
    if t >= 0.0 {
      FractionBelow(a, b, t, q);
    } else {
      FractionAbove(a, b, t, q);
    }
  }

  /** With b > 0, a = b * t has the sign of t. */
  lemma SignOfProduct(a: real, b: real, t: real)
    requires b > 0.0 && a == b * t
    ensures a >= 0.0 <==> t >= 0.0
  {
    if t >= 0.0 {
      MulNonNeg(b, t);
    } else {
      MulPos(b, -t);
    }
  }

  lemma FractionBelow(a: real, b: real, t: real, q: real)
    requires b > 0.0 && a == b * t && q <= t < q + 1.0
    ensures 0.0 <= a - b * q < b
  {
    var f := t - q;
    var g := q + 1.0 - t;
    MulNonNeg(b, f);
    MulPos(b, g);
    Distribute(b, f, t, q);
    DistributeStep(b, g, q, t);
    assert a - b * q == b * f;
    assert b - (a - b * q) == b * g;
  }

  lemma FractionAbove(a: real, b: real, t: real, q: real)
    requires b > 0.0 && a == b * t && q - 1.0 < t <= q
    ensures -b < a - b * q <= 0.0
  {
    var f := q - t;
    var g := t + 1.0 - q;
    MulNonNeg(b, f);
    MulPos(b, g);
    Distribute(b, f, q, t);
    DistributeStep(b, g, t, q);
    assert b * q - a == b * f;
    assert (a - b * q) + b == b * g;
  }

  lemma Distribute(b: real, f: real, t: real, q: real)
    requires f == t - q
    ensures b * f == b * t - b * q
  {
  }

  lemma DistributeStep(b: real, g: real, q: real, t: real)
    requires g == q + 1.0 - t
    ensures b * g == b * q + b - b * t
  {
  }

  /** A product of positives, named by the caller. */
  lemma ProductPos(x: real, y: real, p: real)
    requires x > 0.0 && y > 0.0 && p == x * y
    ensures p > 0.0
  {
  }

  lemma MulPos(x: real, y: real)
    requires x > 0.0 && y > 0.0
    ensures x * y > 0.0
  {
  }
  lemma MulNonNeg(x: real, y: real)
    requires x >= 0.0 && y >= 0.0
    ensures x * y >= 0.0
  {
  }

  /** JavaScript's `%` on integers, for a positive divisor. */
  function JsIntRem(a: int, b: int): (r: int)
    requires b > 0
    ensures a >= 0 ==> r == a % b
    ensures a < 0 ==> -b < r <= 0
  {
    if a >= 0 then a % b else -((-a) % b)
  }

  /** Math.round: the nearest integer, halves rounded up. */
  function Round(r: real): (n: int)
    ensures n as real - 0.5 <= r < n as real + 0.5
  {
    (r + 0.5).Floor
  }

  /** `((a % 2π) + 2π) % 2π`, the idiom the game uses to normalise angles. */
  function NormalizeAngle(a: real): (r: real)
    ensures 0.0 <= r < TWO_PI
    ensures 0.0 <= a < TWO_PI ==> r == a
  {
    JsRem(JsRem(a, TWO_PI) + TWO_PI, TWO_PI)
  }

  /** The number of whole turns NormalizeAngle takes off: the truncated
      quotients of its two remainders, less the turn it adds between them. */
  function Turns(a: real): int
  {
    Trunc(a / TWO_PI) + Trunc((JsRem(a, TWO_PI) + TWO_PI) / TWO_PI) - 1
  }

  /** Normalising only takes off whole turns: with the range stated by
      NormalizeAngle this is the angle's one representative in [0, 2 pi). */
  lemma NormalizeAngleTurns(a: real)
    ensures NormalizeAngle(a) == a - Turns(a) as real * TWO_PI
  {
    var j := JsRem(a, TWO_PI);
    assert j == a - TWO_PI * Trunc(a / TWO_PI) as real;
    assert NormalizeAngle(a) == (j + TWO_PI) - TWO_PI * Trunc((j + TWO_PI) / TWO_PI) as real;
  }

  // ---------------------------------------------------------------------
  // Boxes and quadrants.

  /** The `{x, y, width, height}` box of a quadtree node. */
  datatype Rect = Rect(x: real, y: real, width: real, height: real)

  /** Half-open membership: the left and top edges belong to the box. */
  predicate InRect(r: Rect, px: real, py: real)
  {
    r.x <= px < r.x + r.width && r.y <= py < r.y + r.height
  }

  /** The quadrants in the order both trees create them: NW, NE, SW, SE. */
  function Quadrant(r: Rect, k: nat): (q: Rect)
    requires k < 4
    ensures q.width == r.width / 2.0 && q.height == r.height / 2.0
    ensures q.x == if k % 2 == 0 then r.x else r.x + r.width / 2.0
    ensures q.y == if k < 2 then r.y else r.y + r.height / 2.0
  {
    var w := r.width / 2.0;
    var h := r.height / 2.0;
    if k == 0 then Rect(r.x, r.y, w, h)
    else if k == 1 then Rect(r.x + w, r.y, w, h)
    else if k == 2 then Rect(r.x, r.y + h, w, h)
    else Rect(r.x + w, r.y + h, w, h)
  }

  /** The quadrant index chosen by comparing with the box's midpoint. */
  function ChildIndex(r: Rect, px: real, py: real): (k: nat)
    ensures k < 4
    ensures k % 2 == 1 <==> px >= r.x + r.width / 2.0
    ensures k >= 2 <==> py >= r.y + r.height / 2.0
  {
    var midX := r.x + r.width / 2.0;
    var midY := r.y + r.height / 2.0;
    (if px >= midX then 1 else 0) + (if py >= midY then 2 else 0)
  }

  /** The four quadrants tile the box: a point of the box lies in exactly one
      of them, the one `ChildIndex` names, and a point outside lies in none. */
  lemma QuadrantsTile(r: Rect, px: real, py: real)
    ensures InRect(r, px, py) ==> InRect(Quadrant(r, ChildIndex(r, px, py)), px, py)
    ensures forall k | 0 <= k < 4 && InRect(Quadrant(r, k), px, py) ::
              InRect(r, px, py) && k == ChildIndex(r, px, py)
  {
  }

  /** `w` halved `d` times. */
  function Halvings(w: real, d: nat): real
    decreases d
  {
    if d == 0 then w else Halvings(w / 2.0, d - 1)
  }

  /**
   * The box `d` levels below `r` on the way to a point: the quadrant
   * ChildIndex picks, taken `d` times. A point of `r` lies in its own box at
   * every depth (BoxAtSize gives the box's sides).
   */
  function BoxAt(r: Rect, px: real, py: real, d: nat): (b: Rect)
    ensures InRect(r, px, py) ==> InRect(b, px, py)
    decreases d
  {
    if d == 0 then r
    else
      QuadrantsTile(r, px, py);
      BoxAt(Quadrant(r, ChildIndex(r, px, py)), px, py, d - 1)
  }

  /** The box at depth `d` has the sides of `r` halved `d` times. */
  lemma {:induction false} BoxAtSize(r: Rect, px: real, py: real, d: nat)
    ensures var b := BoxAt(r, px, py, d);
      b.width == Halvings(r.width, d) && b.height == Halvings(r.height, d)
    decreases d
  {
    if d > 0 {
      BoxAtSize(Quadrant(r, ChildIndex(r, px, py)), px, py, d - 1);
    }
  }

  /** Any m with m * (p + q) == u * p + v * q lies between u and v. */
  lemma MeanBetween(u: real, p: real, v: real, q: real, m: real)
    requires p >= 0.0 && q >= 0.0 && p + q > 0.0
    requires m * (p + q) == u * p + v * q
    ensures Min(u, v) <= m <= Max(u, v)
  {
    var s := p + q;
    assert (m - u) * s == (v - u) * q;
    assert (v - m) * s == (v - u) * p;
    if u <= v {
      MulNonNeg(v - u, q);
      MulNonNeg(v - u, p);
      NonNegFactor(m - u, s);
      NonNegFactor(v - m, s);
    } else {
      MulNonNeg(u - v, q);
      MulNonNeg(u - v, p);
      assert (u - m) * s == (u - v) * q;
      assert (m - v) * s == (u - v) * p;
      NonNegFactor(u - m, s);
      NonNegFactor(m - v, s);
    }
  }

  /** A product with a positive factor is non-negative only if the other
      factor is. */
  lemma NonNegFactor(d: real, s: real)
    requires s > 0.0 && d * s >= 0.0
    ensures d >= 0.0
  {
    if d < 0.0 {
      MulPos(-d, s);
    }
  }

  /** The prefix of length `k` is the one of length `k - 1` with the next
      element appended. */
  lemma PrefixStep<T>(s: seq<T>, k: nat)
    requires 0 < k <= |s|
    ensures s[..k] == s[..k - 1] + [s[k - 1]]
  {
  }
}
