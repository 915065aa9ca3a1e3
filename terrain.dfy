/**
 * The terrain of the planet-exploration view (planetExploration.js): the
 * seeded random numbers, the Perlin permutation table and gradient, the
 * number of terrain points and rendering resolution, the classification of
 * terrain kinds, the smoothing pass and the mountain/crater features. The
 * exploration state that owns a terrain is in the Exploration module.
 */
module Terrain {
  import opened Numerics

  /** The terrain kinds, the strings 'storm', 'cloud', ... of the source. */
  datatype Kind = Storm | Cloud | Atmosphere | Mountain | Hill | Crater | Plain | Peak | Rock

  /** A terrain sample: its angle around the planet, its height from the
      planet's core and its kind. */
  datatype TerrainPoint = TerrainPoint(angle: real, height: real, kind: Kind)

  /** The three planet classes the terrain rules distinguish by radius. */
  datatype PlanetClass = GasGiant | Terrestrial | Moon

  function ClassOf(radius: real): PlanetClass
  {
    if radius > 120.0 then GasGiant else if radius > 50.0 then Terrestrial else Moon
  }

  // ---------------------------------------------------------------------
  // Seeded randomness.

  /**
   * The terrain's seeded random number: the fractional part of
   * sin(seed + index) * 10000. Math.sin is the parameter `sin`.
   */
  function SeededRandom(seed: real, sin: real -> real, index: int): (r: real)
    ensures 0.0 <= r < 1.0
  {
    var x := sin(seed + index as real) * 10000.0;
    x - x.Floor as real
  }

  // ---------------------------------------------------------------------
  // Rendering resolution and point counts.

  /** calculateTerrainResolution: the stride between rendered terrain points
      for a terrain of n points. */
  function TerrainResolution(n: nat): nat
  {
    if n <= 240 then 2
    else if n <= 480 then 3
    else if n <= 720 then 4
    else if n / 180 > 4 then n / 180 else 4
  }

  /** How many points a stride-r walk over n points draws: 0, r, 2r, ... */
  function RenderedCount(n: nat, r: nat): nat
    requires r > 0
  {
    (n + r - 1) / r
  }

  /**
   * The resolution is at least 2 and grows with the terrain, and it keeps
   * the number of points drawn at 225 or fewer whatever the terrain's size.
   */
  lemma ResolutionBounds(n: nat, m: nat)
    ensures TerrainResolution(n) >= 2
    ensures n <= m ==> TerrainResolution(n) <= TerrainResolution(m)
    ensures RenderedCount(n, TerrainResolution(n)) <= 225
  {
    var r := TerrainResolution(n);
    if n > 720 {
      assert r == n / 180;
      assert n < 180 * r + 180;
      assert n + r - 1 < 226 * r;
      QuotientBelow(n + r - 1, r, 226);
    } else {
      assert n + r - 1 < 226 * r;
      QuotientBelow(n + r - 1, r, 226);
    }
  }

  /** a < k * r gives a / r < k. */
  lemma QuotientBelow(a: nat, r: nat, k: nat)
    requires r > 0 && a < k * r
    ensures a / r < k
  {
    var q := a / r;
    assert q * r <= a;
  }

  /** Math.max(lo, Math.min(hi, v)). */
  function ClampInt(v: int, lo: int, hi: int): (r: int)
  {
    if hi < v then (if lo > hi then lo else hi) else (if lo > v then lo else v)
  }

  /** The bounds generateTerrain keeps the point count within. */
  function PointBounds(c: PlanetClass): (int, int)
  {
    match c
    case GasGiant => (480, 1080)
    case Terrestrial => (360, 720)
    case Moon => (180, 360)
  }

  /**
   * generateTerrain's number of terrain points for a planet of the given
   * radius: 6 points per unit of radius (8 for terrestrial planets), scaled
   * by the planet's own variation (the sine/cosine mix of the source is the
   * parameter), then clamped to its class's bounds.
   */
  function TerrainPointCount(radius: real, variation: real): (n: int)
  {
    var basePoints := (radius * (if ClassOf(radius) == Terrestrial then 8.0 else 6.0)).Floor;
    var points := (basePoints as real * (1.0 + variation)).Floor;
    var (lo, hi) := PointBounds(ClassOf(radius));
    ClampInt(points, lo, hi)
  }

  /** Gas giants get 480-1080 points, terrestrial planets 360-720 and moons
      180-360; a count already inside its bounds is kept. */
  lemma PointCountBands(radius: real, variation: real)
    ensures var n := TerrainPointCount(radius, variation);
      && 180 <= n <= 1080
      && (radius > 120.0 ==> 480 <= n <= 1080)
      && (50.0 < radius <= 120.0 ==> 360 <= n <= 720)
      && (radius <= 50.0 ==> 180 <= n <= 360)
    ensures var basePoints := (radius * (if ClassOf(radius) == Terrestrial then 8.0 else 6.0)).Floor;
      var points := (basePoints as real * (1.0 + variation)).Floor;
      PointBounds(ClassOf(radius)).0 <= points <= PointBounds(ClassOf(radius)).1 ==>
        TerrainPointCount(radius, variation) == points
  {
  }

  // ---------------------------------------------------------------------
  // Terrain kinds.

  /** getTerrainType: the kind of a point of the given height, from its
      height relative to the base (in units of half the base) and, below the
      hills, a random draw. */
  function TerrainType(height: real, base: real, radius: real, random: real): Kind
    requires base > 0.0
  {
    var relative := (height - base) / (base * 0.5);
    match ClassOf(radius)
    case GasGiant => if relative > 0.7 then Storm else if relative > 0.3 then Cloud else Atmosphere
    case Terrestrial =>
      if relative > 0.8 then Mountain
      else if relative > 0.4 then Hill
      else if random < 0.3 then Crater
      else Plain
    case Moon => if relative > 0.6 then Peak else if random < 0.4 then Crater else Rock
  }

  /** How high a kind sits within its class. */
  function Rank(k: Kind): nat
  {
    match k
    case Storm => 2
    case Cloud => 1
    case Atmosphere => 0
    case Mountain => 2
    case Hill => 1
    case Crater => 0
    case Plain => 0
    case Peak => 1
    case Rock => 0
  }

  /**
   * The kinds in absolute heights: gas giants are storms above 1.35 times the
   * base and clouds above 1.15 times; terrestrial planets are mountains above
   * 1.4 times and hills above 1.2 times; moons are peaks above 1.3 times. Each
   * class only has its own kinds, and a higher point never has a lower kind.
   */
  lemma TerrainTypeBands(height: real, other: real, base: real, radius: real, random: real)
    requires base > 0.0
    ensures var k := TerrainType(height, base, radius, random);
      match ClassOf(radius)
      case GasGiant =>
        && (k == Storm <==> height > 1.35 * base)
        && (k == Cloud <==> 1.15 * base < height <= 1.35 * base)
        && (k == Atmosphere <==> height <= 1.15 * base)
      case Terrestrial =>
        && (k == Mountain <==> height > 1.4 * base)
        && (k == Hill <==> 1.2 * base < height <= 1.4 * base)
        && (k == Crater <==> height <= 1.2 * base && random < 0.3)
        && (k == Plain <==> height <= 1.2 * base && random >= 0.3)
      case Moon =>
        && (k == Peak <==> height > 1.3 * base)
        && (k == Crater <==> height <= 1.3 * base && random < 0.4)
        && (k == Rock <==> height <= 1.3 * base && random >= 0.4)
    ensures height <= other ==>
      Rank(TerrainType(height, base, radius, random)) <= Rank(TerrainType(other, base, radius, random))
  {
    var half := base * 0.5;
    RelativeAbove(height, base, half, 0.7);
    RelativeAbove(height, base, half, 0.3);
    RelativeAbove(height, base, half, 0.8);
    RelativeAbove(height, base, half, 0.4);
    RelativeAbove(height, base, half, 0.6);
    RelativeAbove(other, base, half, 0.7);
    RelativeAbove(other, base, half, 0.3);
    RelativeAbove(other, base, half, 0.8);
    RelativeAbove(other, base, half, 0.4);
    RelativeAbove(other, base, half, 0.6);
  }

  /** (h - base) / half > c exactly when h > base + c * half. */
  lemma RelativeAbove(h: real, base: real, half: real, c: real)
    requires half > 0.0 && half == base * 0.5
    ensures (h - base) / half > c <==> h > base + c * half
  {
    var q := (h - base) / half;
    assert q * half == h - base;
    if q > c {
      assert (q - c) * half > 0.0;
    } else {
      assert (c - q) * half >= 0.0;
    }
  }

  // ---------------------------------------------------------------------
  // Perlin noise.

  /** The numbers 0, 1, ..., n - 1. */
  function Iota(n: nat): (r: seq<int>)
    ensures |r| == n && forall i | 0 <= i < n :: r[i] == i
  {
    if n == 0 then [] else Iota(n - 1) + [n - 1]
  }

  /** The Fisher-Yates swap partner of position i: floor(draw * (i + 1)),
      which lies in 0..i for a draw in [0, 1). */
  function SwapIndex(draw: real, i: nat): (j: int)
    requires 0.0 <= draw < 1.0
    ensures 0 <= j <= i
  {
    var x := draw * (i as real + 1.0);
    assert 0.0 <= x < i as real + 1.0 by {
      MulNonNeg(draw, i as real + 1.0);
      MulPos(1.0 - draw, i as real + 1.0);
    }
    x.Floor
  }

  /** The entries of a table holding a permutation of 0..255 are bytes. */
  lemma PermutedBytes(s: seq<int>)
    requires multiset(s) == multiset(Iota(256))
    ensures forall i | 0 <= i < |s| :: 0 <= s[i] < 256
  {
    forall i | 0 <= i < |s| ensures 0 <= s[i] < 256 {
      assert s[i] in multiset(s);
      assert s[i] in Iota(256);
    }
  }

  /**
   * The permutation table of generatePerlinNoise: 0..255 shuffled by
   * Fisher-Yates with the seeded random numbers, then repeated once so that
   * entry 256 + i equals entry i.
   */
  method PermutationTable(seed: real, sin: real -> real) returns (p: array<int>)
    ensures p.Length == 512
    ensures multiset(p[..256]) == multiset(Iota(256))
    ensures forall i | 0 <= i < 256 :: p[256 + i] == p[i]
    ensures forall i | 0 <= i < 512 :: 0 <= p[i] < 256
  {
    p := new int[512];
    FillIdentity(p);
    Shuffle(p, seed, sin);
    RepeatTable(p);
  }

  /** The fill loop: entry i becomes i for i below 256. */
  method FillIdentity(p: array<int>)
    requires p.Length == 512
    modifies p
    ensures p[..256] == Iota(256)
  {
    var i := 0;
    while i < 256
      invariant 0 <= i <= 256
      invariant p[..i] == Iota(i)
    {
      p[i] := i;
      assert p[..i + 1] == p[..i] + [i];
      i := i + 1;
    }
  }

  /** The doubling loop: entry 256 + i becomes entry i. */
  method RepeatTable(p: array<int>)
    requires p.Length == 512 && multiset(p[..256]) == multiset(Iota(256))
    modifies p
    ensures p[..256] == old(p[..256])
    ensures forall i | 0 <= i < 256 :: p[256 + i] == p[i]
    ensures forall i | 0 <= i < 512 :: 0 <= p[i] < 256
  {
    PermutedBytes(p[..256]);
    var i := 0;
    while i < 256
      invariant 0 <= i <= 256
      invariant p[..256] == old(p[..256])
      invariant forall k | 0 <= k < i :: p[256 + k] == p[k]
    {
      p[256 + i] := p[i];
      i := i + 1;
    }
    forall k | 0 <= k < 512 ensures 0 <= p[k] < 256 {
      if k >= 256 {
        assert p[k] == p[..256][k - 256];
      } else {
        assert p[k] == p[..256][k];
      }
    }
  }

  /** The shuffle loop: for i from 255 down to 1, swap entry i with entry
      SwapIndex(random(i + 1000), i). */
  method Shuffle(p: array<int>, seed: real, sin: real -> real)
    requires p.Length == 512
    modifies p
    ensures multiset(p[..256]) == multiset(old(p[..256]))
    ensures p[256..] == old(p[256..])
  {
    var i := 255;
    while i > 0
      invariant 0 <= i <= 255
      invariant multiset(p[..256]) == multiset(old(p[..256]))
      invariant p[256..] == old(p[256..])
    {
      var j := SwapIndex(SeededRandom(seed, sin, i + 1000), i);
      SwapKeeps(p, i, j);
      i := i - 1;
    }
  }

  /** One swap of two entries below 256. */
  method SwapKeeps(p: array<int>, i: nat, j: nat)
    requires p.Length == 512 && i < 256 && j < 256
    modifies p
    ensures multiset(p[..256]) == multiset(old(p[..256]))
    ensures p[256..] == old(p[256..])
    ensures p[i] == old(p[j]) && p[j] == old(p[i])
  {
    ghost var s := p[..256];
    p[i], p[j] := p[j], p[i];
    assert p[..256] == s[i := s[j]][j := s[i]];
  }

  /** Perlin's fade curve 6t^5 - 15t^4 + 10t^3. */
  function Fade(t: real): real
  {
    t * t * t * (t * (t * 6.0 - 15.0) + 10.0)
  }

  /** Linear interpolation from a (t = 0) to b (t = 1). */
  function Lerp(a: real, b: real, t: real): real
  {
    a + t * (b - a)
  }

  /** The fade curve runs from 0 to 1, and Lerp from its first to its second
      end. */
  lemma FadeAndLerpEnds(a: real, b: real)
    ensures Fade(0.0) == 0.0 && Fade(1.0) == 1.0
    ensures Lerp(a, b, 0.0) == a && Lerp(a, b, 1.0) == b
  {
  }

  /**
   * grad(hash, x): the low four bits h of the hash pick a slope 1 + (h & 7)
   * and, with bit 8, a sign. On two's-complement integers `hash & 15` is the
   * Euclidean remainder `hash % 16`, Dafny's `%`; `h & 7` is `h % 8` and
   * `h & 8` is set exactly when h >= 8.
   */
  function Grad(hash: int, x: real): real
  {
    var h := hash % 16;
    var slope := 1 + h % 8;
    if h >= 8 then -(slope as real) * x else (slope as real) * x
  }

  /**
   * A gradient is a line through the origin of slope 1..8 in magnitude:
   * it depends only on the hash's low four bits, flips sign with bit 8 and
   * is odd in x.
   */
  lemma GradShape(hash: int, x: real)
    ensures var slope := 1 + hash % 16 % 8;
      && 1 <= slope <= 8
      && Abs(Grad(hash, x)) == slope as real * Abs(x)
    ensures Grad(hash + 16, x) == Grad(hash, x)
    ensures hash % 16 < 8 ==> Grad(hash + 8, x) == -Grad(hash, x)
    ensures Grad(hash, -x) == -Grad(hash, x)
  {
    assert (hash + 16) % 16 == hash % 16;
    if hash % 16 < 8 {
      assert (hash + 8) % 16 == hash % 16 + 8;
    }
    var slope := (1 + hash % 16 % 8) as real;
    if x >= 0.0 {
      MulNonNeg(slope, x);
    } else {
      MulPos(slope, -x);
    }
  }

  /** A table with bytes in every one of its 512 entries. */
  predicate ByteTable(perm: seq<int>)
  {
    |perm| == 512 && forall i | 0 <= i < 512 :: 0 <= perm[i] < 256
  }

  /** The one-dimensional Perlin noise at x for a permutation table. */
  function Noise(perm: seq<int>, x: real): real
    requires ByteTable(perm)
  {
    var cell := x.Floor % 256;
    var f := x - x.Floor as real;
    var u := Fade(f);
    var a := perm[cell];
    var b := perm[cell + 1];
    Lerp(Grad(perm[a], f), Grad(perm[b], f - 1.0), u)
  }

  /** Perlin noise vanishes at every integer. */
  lemma NoiseAtIntegers(perm: seq<int>, k: int)
    requires ByteTable(perm)
    ensures Noise(perm, k as real) == 0.0
  {
    assert (k as real).Floor == k;
  }

  /** Perlin noise repeats every 256 units. */
  lemma NoisePeriodic(perm: seq<int>, x: real)
    requires ByteTable(perm)
    ensures Noise(perm, x + 256.0) == Noise(perm, x)
  {
    assert (x + 256.0).Floor == x.Floor + 256;
    assert (x.Floor + 256) % 256 == x.Floor % 256;
    assert (x + 256.0) - (x + 256.0).Floor as real == x - x.Floor as real;
  }

  // ---------------------------------------------------------------------
  // Smoothing.

  /** The neighbours of point i on a closed ring of n points. */
  function Prev(i: nat, n: nat): nat
    requires i < n
  {
    (i - 1 + n) % n
  }

  function Next(i: nat, n: nat): nat
    requires i < n
  {
    (i + 1) % n
  }

  /** The heights of a terrain. */
  function Heights(t: seq<TerrainPoint>): (hs: seq<real>)
    ensures |hs| == |t| && forall i | 0 <= i < |t| :: hs[i] == t[i].height
  {
    seq(|t|, i requires 0 <= i < |t| => t[i].height)
  }

  /** A terrain with new heights and its angles and kinds kept. */
  function WithHeights(t: seq<TerrainPoint>, hs: seq<real>): (r: seq<TerrainPoint>)
    requires |hs| == |t|
    ensures |r| == |t| && Heights(r) == hs
    ensures forall i | 0 <= i < |t| :: r[i].angle == t[i].angle && r[i].kind == t[i].kind
  {
    seq(|t|, i requires 0 <= i < |t| => t[i].(height := hs[i]))
  }

  /** One smoothing of point i: half its own height and a quarter of each
      neighbour's, but never below the floor. */
  function SmoothedHeight(hs: seq<real>, i: nat, floor: real): real
    requires i < |hs|
  {
    Max(hs[i] * 0.5 + hs[Prev(i, |hs|)] * 0.25 + hs[Next(i, |hs|)] * 0.25, floor)
  }

  /** One smoothing pass: every point smoothed from the heights before the
      pass. */
  function SmoothPass(hs: seq<real>, floor: real): (r: seq<real>)
    ensures |r| == |hs|
  {
    seq(|hs|, i requires 0 <= i < |hs| => SmoothedHeight(hs, i, floor))
  }

  /** `passes` smoothing passes. */
  function Smoothed(hs: seq<real>, floor: real, passes: nat): (r: seq<real>)
    ensures |r| == |hs|
  {
    if passes == 0 then hs else SmoothPass(Smoothed(hs, floor, passes - 1), floor)
  }

  /** All heights lie in [lo, hi]. */
  predicate Within(hs: seq<real>, lo: real, hi: real)
  {
    forall i | 0 <= i < |hs| :: lo <= hs[i] <= hi
  }

  /** A pass keeps the heights between the floor (or the lowest point, if
      higher) and the highest point (or the floor, if higher). */
  lemma SmoothPassBounds(hs: seq<real>, floor: real, lo: real, hi: real)
    requires Within(hs, lo, hi)
    ensures Within(SmoothPass(hs, floor), Max(lo, floor), Max(hi, floor))
  {
  }

  /** A level terrain at or above the floor is left as it is. */
  lemma SmoothPassLevel(hs: seq<real>, floor: real, c: real)
    requires c >= floor && forall i | 0 <= i < |hs| :: hs[i] == c
    ensures SmoothPass(hs, floor) == hs
  {
  }

  /** After at least one pass every height is at least the floor, and
      smoothing never raises the highest point above the old one (or the
      floor). */
  lemma {:induction false} SmoothedBounds(hs: seq<real>, floor: real, passes: nat, lo: real, hi: real)
    requires Within(hs, lo, hi)
    ensures Within(Smoothed(hs, floor, passes), if passes == 0 then lo else Max(lo, floor), Max(hi, floor))
  {
    if passes > 0 {
      SmoothedBounds(hs, floor, passes - 1, lo, hi);
      var before := Smoothed(hs, floor, passes - 1);
      if passes == 1 {
        assert Within(before, lo, Max(hi, floor));
        SmoothPassBounds(before, floor, lo, Max(hi, floor));
      } else {
        SmoothPassBounds(before, floor, Max(lo, floor), Max(hi, floor));
      }
    }
  }

  // ---------------------------------------------------------------------
  // Features.

  /** The index a feature is centred on: its random angle as a fraction of
      the circle, times the number of points, rounded down. */
  function FeatureIndex(draw: real, n: nat): (c: int)
    requires 0.0 <= draw < 1.0 && n > 0
    ensures 0 <= c < n
  {
    var featureAngle := draw * PI * 2.0;
    var x := (featureAngle / (PI * 2.0)) * (n as real);
    assert 0.0 <= x < n as real by {
      Unscale(draw, PI * 2.0, featureAngle);
      assert x == draw * (n as real);
      MulNonNeg(draw, n as real);
      MulPos(1.0 - draw, n as real);
      assert (1.0 - draw) * (n as real) == n as real - draw * (n as real);
    }
    x.Floor
  }

  /** Dividing out the factor a value was scaled by. */
  lemma Unscale(d: real, c: real, v: real)
    requires c != 0.0 && v == d * PI * 2.0 && c == PI * 2.0
    ensures v / c == d
  {
    assert v == d * c;
  }

  /** A feature's half-width: 5 to 24 points. */
  function FeatureSize(draw: real): (s: int)
    requires 0.0 <= draw < 1.0
    ensures 5 <= s <= 24
  {
    (draw * 20.0).Floor + 5
  }

  /** The point `offset` away from `center` on a ring of n points, through
      `(center + offset + n) % n`. */
  function Target(center: int, offset: int, n: nat): (k: int)
    requires n > 0
  {
    JsIntRem(center + offset + n, n)
  }

  /** For a centre on the ring and an offset of at least -n, the target is
      on the ring. */
  lemma TargetOnRing(center: int, offset: int, n: nat)
    requires n > 0 && 0 <= center < n && offset + n >= 0
    ensures 0 <= Target(center, offset, n) < n
  {
  }

  /** The strength of a feature `offset` points from its centre: 1 at the
      centre, falling linearly to 0 at the edge. */
  function Impact(offset: int, size: int): (m: real)
    requires size > 0
    ensures 0.0 <= m <= 1.0
    ensures offset == 0 ==> m == 1.0
    ensures (offset >= size || offset <= -size) ==> m == 0.0
  {
    var distance := if offset < 0 then -offset else offset;
    Max(0.0, 1.0 - distance as real / size as real)
  }

  /** A mountain point: raised by the impact times half the base, and marked
      a mountain (a peak on moons). */
  function Raise(p: TerrainPoint, impact: real, base: real, radius: real): TerrainPoint
  {
    p.(height := p.height + impact * base * 0.5, kind := if radius > 50.0 then Mountain else Peak)
  }

  /** A crater point: lowered by the impact times 0.3 of the base, but not
      below 0.3 of the base, and marked a crater. */
  function Dig(p: TerrainPoint, impact: real, base: real): TerrainPoint
  {
    p.(height := Max(p.height - impact * base * 0.3, base * 0.3), kind := Crater)
  }

  /** The draws of feature i: its angle, size and whether it is a mountain. */
  function Mound(seed: real, sin: real -> real, i: int): bool
  {
    SeededRandom(seed, sin, i + 700) > 0.5
  }

  /**
   * Feature i applied to offsets -size .. -size + k - 1 of its range (the
   * inner loop after k turns).
   */
  function Sweep(t: seq<TerrainPoint>, i: int, k: nat, seed: real, sin: real -> real, base: real, radius: real)
    : (r: seq<TerrainPoint>)
    requires |t| >= 24 && k <= 2 * FeatureSize(SeededRandom(seed, sin, i + 600)) + 1
    ensures |r| == |t| && forall q | 0 <= q < |t| :: r[q].angle == t[q].angle
  {
    if k == 0 then t
    else
      var r := Sweep(t, i, k - 1, seed, sin, base, radius);
      var size := FeatureSize(SeededRandom(seed, sin, i + 600));
      var offset := k - 1 - size;
      var target := Target(FeatureIndex(SeededRandom(seed, sin, i + 500), |t|), offset, |t|);
      TargetOnRing(FeatureIndex(SeededRandom(seed, sin, i + 500), |t|), offset, |t|);
      var impact := Impact(offset, size);
      r[target := if Mound(seed, sin, i) then Raise(r[target], impact, base, radius) else Dig(r[target], impact, base)]
  }

  /** Feature i applied over its whole range -size .. size. */
  function Feature(t: seq<TerrainPoint>, i: int, seed: real, sin: real -> real, base: real, radius: real)
    : (r: seq<TerrainPoint>)
    requires |t| >= 24
    ensures |r| == |t| && forall q | 0 <= q < |t| :: r[q].angle == t[q].angle
  {
    Sweep(t, i, 2 * FeatureSize(SeededRandom(seed, sin, i + 600)) + 1, seed, sin, base, radius)
  }

  /** addTerrainFeatures: features 0 .. count - 1 applied in turn. */
  function Features(t: seq<TerrainPoint>, count: nat, seed: real, sin: real -> real, base: real, radius: real)
    : (r: seq<TerrainPoint>)
    requires |t| >= 24
    ensures |r| == |t|
  {
    if count == 0 then t else Feature(Features(t, count - 1, seed, sin, base, radius), count - 1, seed, sin, base, radius)
  }

  /** Every height is at least `floor`. */
  predicate Above(t: seq<TerrainPoint>, floor: real)
  {
    forall q | 0 <= q < |t| :: t[q].height >= floor
  }

  /** generateTerrain's layout: point i of n sits at angle i / n of a full
      turn. */
  predicate EvenlyLaid(t: seq<TerrainPoint>)
  {
    forall i | 0 <= i < |t| :: t[i].angle == (i as real / |t| as real) * PI * 2.0
  }

  /** Features move heights only: every point keeps its angle. */
  lemma {:induction false} FeaturesKeepAngles(t: seq<TerrainPoint>, count: nat, seed: real, sin: real -> real,
                                              base: real, radius: real)
    requires |t| >= 24
    ensures var r := Features(t, count, seed, sin, base, radius);
      forall q | 0 <= q < |t| :: r[q].angle == t[q].angle
  {
    if count > 0 {
      var before := Features(t, count - 1, seed, sin, base, radius);
      FeaturesKeepAngles(t, count - 1, seed, sin, base, radius);
      var r := Feature(before, count - 1, seed, sin, base, radius);
      forall q | 0 <= q < |t| ensures r[q].angle == t[q].angle {
        assert r[q].angle == before[q].angle;
      }
    }
  }

  /** Points that keep their angles keep an even layout. */
  lemma LaidAlike(t: seq<TerrainPoint>, r: seq<TerrainPoint>)
    requires |r| == |t| && forall q | 0 <= q < |t| :: r[q].angle == t[q].angle
    requires EvenlyLaid(t)
    ensures EvenlyLaid(r)
  {
  }

  /** A feature sweep keeps the angles and never takes a height that was at
      least 0.3 of the base below it. */
  lemma {:induction false} SweepKeepsFloor(t: seq<TerrainPoint>, i: int, k: nat, seed: real, sin: real -> real,
                                           base: real, radius: real)
    requires |t| >= 24 && k <= 2 * FeatureSize(SeededRandom(seed, sin, i + 600)) + 1
    requires base >= 0.0 && Above(t, base * 0.3)
    ensures Above(Sweep(t, i, k, seed, sin, base, radius), base * 0.3)
  {
    if k > 0 {
      SweepKeepsFloor(t, i, k - 1, seed, sin, base, radius);
      var size := FeatureSize(SeededRandom(seed, sin, i + 600));
      var impact := Impact(k - 1 - size, size);
      MulNonNeg(impact, base);
      MulNonNeg(impact * base, 0.5);
    }
  }

  /** Features keep every height at or above 0.3 of the base when it was
      there before. */
  lemma {:induction false} FeaturesKeepFloor(t: seq<TerrainPoint>, count: nat, seed: real, sin: real -> real,
                                             base: real, radius: real, r: seq<TerrainPoint>)
    requires |t| >= 24 && base >= 0.0 && Above(t, base * 0.3)
    requires r == Features(t, count, seed, sin, base, radius)
    ensures Above(r, base * 0.3)
  {
    if count > 0 {
      var before := Features(t, count - 1, seed, sin, base, radius);
      FeaturesKeepFloor(t, count - 1, seed, sin, base, radius, before);
      FeatureKeepsFloor(before, r, count - 1, seed, sin, base, radius);
    }
  }

  /** One feature keeps the floor. */
  lemma FeatureKeepsFloor(before: seq<TerrainPoint>, after: seq<TerrainPoint>, i: int, seed: real,
                          sin: real -> real, base: real, radius: real)
    requires |before| >= 24 && base >= 0.0 && Above(before, base * 0.3)
    requires after == Feature(before, i, seed, sin, base, radius)
    ensures Above(after, base * 0.3)
  {
    SweepKeepsFloor(before, i, 2 * FeatureSize(SeededRandom(seed, sin, i + 600)) + 1, seed, sin, base, radius);
  }

  /** The number of features by planet class. */
  function FeatureCount(radius: real): nat
  {
    match ClassOf(radius)
    case GasGiant => 6
    case Terrestrial => 10
    case Moon => 5
  }
}
