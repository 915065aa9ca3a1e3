/**
 * The game's celestial bodies: the physical state the simulation reads and
 * copies, planets with their radar trail and picture, stars, and the
 * picture bookkeeping of saved games.
 */
module Bodies {
  import opened Numerics

  /**
   * The physical state of a planet, star or comet as the simulation sees it:
   * position, velocity, mass and radius (the `{x, y, vx, vy, mass, radius}`
   * copies the prediction code makes).
   */
  datatype Orb = Orb(x: real, y: real, vx: real, vy: real, mass: real, radius: real)

  /** A planet weighs half its radius. */
  const PLANET_DENSITY: real := 0.5
  /** A star weighs twice its radius. */
  const STAR_DENSITY: real := 2.0
  /** Radii above this make a giant planet. */
  const GIANT_RADIUS: real := 120.0
  /** Radii above this (and up to GIANT_RADIUS) make a terrestrial planet. */
  const TERRESTRIAL_RADIUS: real := 50.0
  /** The radar trail keeps at most this many points. */
  const MAX_TRAIL: nat := 1000
  /** A trail point is recorded on every this-many-th update. */
  const TRAIL_INTERVAL: nat := 3

  /** The radius a planet of mass `m` has, as the merge computes it. */
  function PlanetRadiusOf(m: real): (r: real)
    ensures r * PLANET_DENSITY == m
  {
    m / PLANET_DENSITY
  }

  /** The Star constructor: at rest, weighing twice its radius. */
  function NewStar(x: real, y: real, radius: real): (s: Orb)
    ensures s.x == x && s.y == y && s.radius == radius
    ensures s.vx == 0.0 && s.vy == 0.0
    ensures s.mass == STAR_DENSITY * radius
  {
    Orb(x, y, 0.0, 0.0, radius * STAR_DENSITY, radius)
  }

  // ---------------------------------------------------------------------
  // Pictures.

  /** A picture, identified by number. */
  type Image = nat

  /** The three picture lists a planet's picture is drawn from. */
  datatype Galleries = Galleries(giants: seq<Image>, terrestrials: seq<Image>, moons: seq<Image>)

  /** The list a new planet of radius `radius` draws its picture from. */
  function GalleryFor(g: Galleries, radius: real): seq<Image>
  {
    if radius > GIANT_RADIUS then g.giants
    else if radius > TERRESTRIAL_RADIUS then g.terrestrials
    else g.moons
  }

  /** `list[Math.floor(draw * list.length)]`, missing for an empty list. */
  function Pick(list: seq<Image>, draw: real): (r: Option<Image>)
    requires 0.0 <= draw < 1.0
    ensures list == [] <==> r == None
    ensures r.Some? ==> r.value in list
  {
    if list == [] then None
    else
      var n := |list| as real;
      MulPos(1.0 - draw, n);
      MulNonNeg(draw, n);
      Some(list[(draw * n).Floor])
  }

  /** Where a picture is kept in a save: a list name and a position in it. */
  datatype ImageIndex = ImageIndex(kind: string, index: int)

  const GIANTS: string := "giants"
  const TERRESTRIALS: string := "terrestrials"
  const MOONS: string := "moons"

  /** The picture an index names, missing when the position is out of range. */
  function At(list: seq<Image>, i: int): Option<Image>
  {
    if 0 <= i < |list| then Some(list[i]) else None
  }

  /** Whether the picture is in one of the lists. */
  predicate InGalleries(g: Galleries, image: Image)
  {
    image in g.giants || image in g.terrestrials || image in g.moons
  }

  /** The first position of `image` in `list`, by linear search. */
  method IndexIn(list: seq<Image>, image: Option<Image>) returns (i: int)
    ensures -1 <= i < |list|
    ensures i >= 0 ==> image == Some(list[i])
    ensures i >= 0 ==> forall k | 0 <= k < i :: Some(list[k]) != image
    ensures i == -1 <==> image.None? || image.value !in list
  {
    i := 0;
    while i < |list|
      invariant 0 <= i <= |list|
      invariant forall k | 0 <= k < i :: Some(list[k]) != image
    {
      if image == Some(list[i]) {
        return;
      }
      i := i + 1;
    }
    i := -1;
  }

  // ---------------------------------------------------------------------
  // Planets.

  class Planet {
    var x: real
    var y: real
    var velocityX: real
    var velocityY: real
    var radius: real
    var mass: real
    var image: Option<Image>
    /** The radar trail, oldest point first. */
    var trail: seq<Vec>
    var trailCounter: nat
    /** Every point ever recorded, and the number of updates so far. */
    ghost var recorded: seq<Vec>
    ghost var updates: nat

    /**
     * The trail is the newest MAX_TRAIL recorded points, and a point has been
     * recorded on every TRAIL_INTERVAL-th update; the counter says how far
     * into the current interval the planet is.
     */
    ghost predicate Valid()
      reads this
    {
      && trail == Newest(recorded, MAX_TRAIL)
      && |recorded| == updates / TRAIL_INTERVAL
      && trailCounter == updates % TRAIL_INTERVAL
    }

    /** The physical state. */
    function State(): Orb
      reads this
    {
      Orb(x, y, velocityX, velocityY, mass, radius)
    }

    /** The Planet constructor; `draw` is the Math.random() that picks the picture. */
    constructor (x0: real, y0: real, r: real, g: Galleries, draw: real)
      requires 0.0 <= draw < 1.0
      ensures Valid() && recorded == [] && updates == 0
      ensures State() == Orb(x0, y0, 0.0, 0.0, r * PLANET_DENSITY, r)
      ensures image == Pick(GalleryFor(g, r), draw)
    {
      radius := r;
      mass := r * PLANET_DENSITY;
      x, y := x0, y0;
      velocityX, velocityY := 0.0, 0.0;
      trail := [];
      trailCounter := 0;
      image := Pick(GalleryFor(g, r), draw);
      recorded := [];
      updates := 0;
    }

    /**
     * update: on every TRAIL_INTERVAL-th call the position is appended to
     * the trail, dropping the oldest point once the trail is too long.
     */
    method Update()
      requires Valid()
      modifies this
      ensures Valid() && updates == old(updates) + 1 && |trail| <= MAX_TRAIL
      ensures old(trailCounter) + 1 >= TRAIL_INTERVAL ==> recorded == old(recorded) + [Vec(x, y)]
      ensures old(trailCounter) + 1 < TRAIL_INTERVAL ==> recorded == old(recorded) && trail == old(trail)
      ensures State() == old(State()) && image == old(image)
    {
      trailCounter := trailCounter + 1;
      updates := updates + 1;
      if trailCounter >= TRAIL_INTERVAL {
        NewestStep(recorded, Vec(x, y), MAX_TRAIL);
        trail := trail + [Vec(x, y)];
        if |trail| > MAX_TRAIL {
          trail := trail[1..];
        }
        trailCounter := 0;
        recorded := recorded + [Vec(x, y)];
      }
    }
  }

  /** The newest `n` elements of `s`, in order. */
  function Newest<T>(s: seq<T>, n: nat): (r: seq<T>)
    ensures |r| == if |s| > n then n else |s|
    ensures forall i | 0 <= i < |r| :: r[i] == s[|s| - |r| + i]
  {
    if |s| > n then s[|s| - n..] else s
  }

  /** Appending a point and then dropping the oldest when over the limit keeps
      the trail equal to the newest points of all those recorded. */
  lemma NewestStep<T>(s: seq<T>, v: T, n: nat)
    requires n > 0
    ensures var t := Newest(s, n) + [v];
      (if |t| > n then t[1..] else t) == Newest(s + [v], n)
  {
    var t := Newest(s, n) + [v];
    if |s| >= n {
      assert t[1..] == (s + [v])[|s| + 1 - n..];
    } else {
      assert t == s + [v];
    }
  }

  // ---------------------------------------------------------------------
  // Saved pictures.

  /**
   * getImageIndex: the first list, in the order giants, terrestrials,
   * moons, that holds the planet's picture, and its first position there;
   * `terrestrials` 0 when no list holds it.
   */
  method GetImageIndex(p: Planet, g: Galleries) returns (r: ImageIndex)
    ensures r.kind == GIANTS ==> At(g.giants, r.index) == p.image
    ensures r.kind == TERRESTRIALS && p.image.Some? && InGalleries(g, p.image.value) ==>
              At(g.terrestrials, r.index) == p.image
    ensures r.kind == MOONS ==> At(g.moons, r.index) == p.image
    ensures r.kind == GIANTS ==> forall k | 0 <= k < r.index :: At(g.giants, k) != p.image
    ensures r.kind == TERRESTRIALS ==> forall k | 0 <= k < r.index :: At(g.terrestrials, k) != p.image
    ensures r.kind == MOONS ==> forall k | 0 <= k < r.index :: At(g.moons, k) != p.image
    ensures r.kind == GIANTS || r.kind == TERRESTRIALS || r.kind == MOONS
    ensures p.image.Some? && p.image.value in g.giants ==> r.kind == GIANTS
    ensures p.image.Some? && p.image.value !in g.giants && p.image.value in g.terrestrials ==> r.kind == TERRESTRIALS
    ensures (p.image.None? || !InGalleries(g, p.image.value)) ==> r == ImageIndex(TERRESTRIALS, 0)
  {
    var i := IndexIn(g.giants, p.image);
    if i >= 0 {
      return ImageIndex(GIANTS, i);
    }
    i := IndexIn(g.terrestrials, p.image);
    if i >= 0 {
      return ImageIndex(TERRESTRIALS, i);
    }
    i := IndexIn(g.moons, p.image);
    if i >= 0 {
      return ImageIndex(MOONS, i);
    }
    return ImageIndex(TERRESTRIALS, 0);
  }

  /** The picture setImageFromIndex gives a planet whose picture was `old`. */
  function Restored(g: Galleries, r: ImageIndex, prev: Option<Image>): Option<Image>
  {
    if r.kind == GIANTS then At(g.giants, r.index)
    else if r.kind == TERRESTRIALS then At(g.terrestrials, r.index)
    else if r.kind == MOONS then At(g.moons, r.index)
    else prev
  }

  /** setImageFromIndex: the named list's picture at the position (missing
      when out of range); an unknown list name changes nothing. */
  method SetImageFromIndex(p: Planet, g: Galleries, r: ImageIndex)
    modifies p
    ensures p.image == Restored(g, r, old(p.image))
    ensures p.State() == old(p.State()) && p.trail == old(p.trail)
  {
    if r.kind == GIANTS {
      p.image := At(g.giants, r.index);
    } else if r.kind == TERRESTRIALS {
      p.image := At(g.terrestrials, r.index);
    } else if r.kind == MOONS {
      p.image := At(g.moons, r.index);
    }
  }

  /** Saving and restoring a picture gives it back whenever it is in one of
      the lists; otherwise the first terrestrial picture comes back. */
  method SaveAndRestore(p: Planet, g: Galleries)
    modifies p
    ensures old(p.image).Some? && InGalleries(g, old(p.image).value) ==> p.image == old(p.image)
    ensures (old(p.image).None? || !InGalleries(g, old(p.image).value)) ==> p.image == At(g.terrestrials, 0)
  {
    var r := GetImageIndex(p, g);
    SetImageFromIndex(p, g, r);
  }
}
