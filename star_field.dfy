/**
 * The quadtree behind the animated star background. A node holds at most one
 * star, takes itself to be empty exactly when its total mass is zero, sends a
 * star to the child picked by comparing it with the node's midpoint, and uses
 * a star's radius as its mass. The game builds one tree over all background
 * stars and asks it for the force on each of them.
 */
module StarField {
  import opened Numerics

  /** Gravitational constant of the star background. */
  const G: real := 0.1
  /** Opening angle of the approximation. */
  const THETA: real := 0.5
  /** Added to the squared distance in the force law. */
  const SOFTENING: real := 1.0

  /** A background star; `id` stands for the object's identity. */
  datatype Star = Star(id: nat, x: real, y: real, radius: real)

  /**
   * A QuadTreeNode. `star` is the star of a leaf; `children` is empty until
   * the node is subdivided (the game's four `null`s) and then holds the NW,
   * NE, SW, SE quadrants. The game updates nodes in place; here every
   * operation returns the updated node.
   */
  datatype StarNode = StarNode(bounds: Rect, star: Option<Star>, centerOfMass: Vec,
                               totalMass: real, children: seq<StarNode>, isLeaf: bool)

  /** The node after an insert, and whether the star was stored. */
  datatype Placed = Placed(node: StarNode, ok: bool)

  /** The stars stored at or below a node, and the sum of their radii. */
  datatype Load = Load(stars: multiset<Star>, mass: real)

  function AddStar(l: Load, s: Star): Load
  {
    Load(l.stars + multiset{s}, l.mass + s.radius)
  }

  /** The load after `s` was stored when `ok`, and unchanged otherwise. */
  function AddStarIf(l: Load, s: Star, ok: bool): Load
  {
    if ok then AddStar(l, s) else l
  }

  /** The loads of four subtrees together. */
  function Sum4(ls: seq<Load>): Load
    requires |ls| == 4
  {
    Load(ls[0].stars + ls[1].stars + ls[2].stars + ls[3].stars,
         ls[0].mass + ls[1].mass + ls[2].mass + ls[3].mass)
  }

  /** What a node stores: its own star for a leaf, its children's stars for
      a subdivided node. */
  function Content(n: StarNode): Load
    decreases n
  {
    if !n.isLeaf && |n.children| == 4 then
      Sum4([Content(n.children[0]), Content(n.children[1]), Content(n.children[2]), Content(n.children[3])])
    else if n.star.Some? then Load(multiset{n.star.value}, n.star.value.radius)
    else Load(multiset{}, 0.0)
  }

  function Loads(cs: seq<StarNode>): seq<Load>
    requires |cs| == 4
  {
    [Content(cs[0]), Content(cs[1]), Content(cs[2]), Content(cs[3])]
  }

  /** The recorded masses of four children, added up. */
  function SumMass(cs: seq<StarNode>): real
    requires |cs| == 4
  {
    cs[0].totalMass + cs[1].totalMass + cs[2].totalMass + cs[3].totalMass
  }

  /** Four valid children whose boxes are the quadrants of `bounds`. */
  ghost predicate QuadrantChildren(cs: seq<StarNode>, bounds: Rect)
    decreases cs, 0
  {
    |cs| == 4 && forall k | 0 <= k < 4 :: cs[k].bounds == Quadrant(bounds, k) && Valid(cs[k])
  }

  /**
   * The invariant. A leaf has no children; an empty leaf has no mass, and a
   * leaf with a star records that star's radius and position. A subdivided
   * node has no star of its own, four quadrant children, and records the
   * sum of their masses, which is positive.
   */
  ghost predicate Valid(n: StarNode)
    decreases n, 1
  {
    if n.isLeaf then
      && n.children == []
      && (n.star.None? ==> n.totalMass == 0.0)
      && (n.star.Some? ==>
            var s := n.star.value;
            s.radius > 0.0 && n.totalMass == s.radius && n.centerOfMass == Vec(s.x, s.y))
    else
      && n.star.None?
      && QuadrantChildren(n.children, n.bounds)
      && n.totalMass == SumMass(n.children)
      && n.totalMass > 0.0
  }

  /** The QuadTreeNode constructor: an empty leaf. */
  function NewStarNode(bounds: Rect): (n: StarNode)
    ensures Valid(n) && Content(n) == Load(multiset{}, 0.0)
  {
    StarNode(bounds, None, Zero, 0.0, [], true)
  }

  /** The first branch of insert: an empty node takes the star, its position
      and its radius as mass. */
  function Store(n: StarNode, s: Star): (r: StarNode)
    requires n.isLeaf && n.children == [] && s.radius > 0.0
    ensures Valid(r) && r.bounds == n.bounds
    ensures r.star == Some(s) && r.centerOfMass == Vec(s.x, s.y) && r.totalMass == s.radius
    ensures Content(r) == Load(multiset{s}, s.radius)
  {
    n.(star := Some(s), centerOfMass := Vec(s.x, s.y), totalMass := s.radius)
  }

  /** subdivide: the four empty NW, NE, SW, SE quadrants. */
  function Subdivide(bounds: Rect): (cs: seq<StarNode>)
    ensures QuadrantChildren(cs, bounds)
    ensures forall k | 0 <= k < 4 :: cs[k] == NewStarNode(Quadrant(bounds, k))
  {
    [NewStarNode(Quadrant(bounds, 0)), NewStarNode(Quadrant(bounds, 1)),
     NewStarNode(Quadrant(bounds, 2)), NewStarNode(Quadrant(bounds, 3))]
  }

  /**
   * subdivide followed by moving a leaf's star `e` down: the star goes into
   * the quadrant insertIntoChild picks, which is empty, so it simply stores it.
   */
  function MoveDown(bounds: Rect, e: Star): (cs: seq<StarNode>)
    requires e.radius > 0.0
    ensures QuadrantChildren(cs, bounds) && SumMass(cs) == e.radius
    ensures Sum4(Loads(cs)) == Load(multiset{e}, e.radius)
  {
    var quads := Subdivide(bounds);
    var k := ChildIndex(bounds, e.x, e.y);
    var cs := quads[k := Store(quads[k], e)];
    assert forall j | 0 <= j < 4 :: cs[j].bounds == Quadrant(bounds, j) && Valid(cs[j]);
    MoveDownLoads(Loads(quads), Loads(cs), k, e);
    cs
  }

  lemma MoveDownLoads(ls: seq<Load>, ms: seq<Load>, k: nat, e: Star)
    requires |ls| == 4 && |ms| == 4 && k < 4
    requires forall j | 0 <= j < 4 :: ls[j] == Load(multiset{}, 0.0)
    requires forall j | 0 <= j < 4 && j != k :: ms[j] == ls[j]
    requires ms[k] == Load(multiset{e}, e.radius)
    ensures Sum4(ms) == Load(multiset{e}, e.radius)
  {
    LoadStep(ls, ms, k, e, true);
    assert Sum4(ls) == Load(multiset{}, 0.0);
  }

  /**
   * The first subdivision of a leaf holding a star: the four quadrants are
   * created, the star is moved into one of them, and the node becomes
   * internal with no star of its own. Its mass and centre stay as they
   * were, and it stores the same star as before.
   */
  function Split(n: StarNode): (r: StarNode)
    requires Valid(n) && n.isLeaf && n.star.Some?
    ensures Valid(r) && r.bounds == n.bounds
    ensures !r.isLeaf && r.star == None && |r.children| == 4
    ensures forall k | 0 <= k < 4 :: r.children[k].bounds == Quadrant(n.bounds, k)
    ensures r.totalMass == n.totalMass && r.centerOfMass == n.centerOfMass
    ensures Content(r) == Content(n)
  {
    n.(children := MoveDown(n.bounds, n.star.value), star := None, isLeaf := false)
  }

  /**
   * updateCenterOfMass: the mass grows by the star's radius and the centre
   * moves to the radius-weighted mean of the old centre and the star. The
   * game divides by the new mass without a check; it is positive wherever
   * insert calls this.
   */
  function UpdateCenterOfMass(n: StarNode, s: Star): (r: StarNode)
    requires n.totalMass + s.radius > 0.0
    ensures r == n.(centerOfMass := r.centerOfMass, totalMass := r.totalMass)
    ensures r.totalMass == n.totalMass + s.radius
    ensures r.centerOfMass.x * r.totalMass == n.centerOfMass.x * n.totalMass + s.x * s.radius
    ensures r.centerOfMass.y * r.totalMass == n.centerOfMass.y * n.totalMass + s.y * s.radius
  {
    var total := n.totalMass + s.radius;
    n.(centerOfMass := Vec((n.centerOfMass.x * n.totalMass + s.x * s.radius) / total,
                           (n.centerOfMass.y * n.totalMass + s.y * s.radius) / total),
       totalMass := total)
  }

  /** With a non-negative old mass, the new centre lies between the old
      centre and the star on each axis. */
  lemma CenterBetween(n: StarNode, s: Star)
    requires n.totalMass >= 0.0 && s.radius > 0.0
    ensures var r := UpdateCenterOfMass(n, s);
      && Min(n.centerOfMass.x, s.x) <= r.centerOfMass.x <= Max(n.centerOfMass.x, s.x)
      && Min(n.centerOfMass.y, s.y) <= r.centerOfMass.y <= Max(n.centerOfMass.y, s.y)
  {
    var r := UpdateCenterOfMass(n, s);
    MeanBetween(n.centerOfMass.x, n.totalMass, s.x, s.radius, r.centerOfMass.x);
    MeanBetween(n.centerOfMass.y, n.totalMass, s.y, s.radius, r.centerOfMass.y);
  }

  /**
   * insert. An empty node stores the star; a leaf holding a star is first
   * split; the star then goes into the child insertIntoChild picks and the
   * node's mass and centre are updated. `fuel` bounds the depth: the game
   * recurses without end when two stars share a point, and the model gives
   * up (returns false, having stored nothing) when a non-empty node is
   * reached with no fuel left.
   */
  function InsertStar(n: StarNode, s: Star, fuel: nat): (r: Placed)
    requires Valid(n) && s.radius > 0.0
    decreases fuel, 0
    ensures Valid(r.node) && r.node.bounds == n.bounds
    ensures r.ok ==> r.node.totalMass == n.totalMass + s.radius
    ensures !r.ok ==> r.node.totalMass == n.totalMass
    ensures n.totalMass == 0.0 ==>
      r.ok && r.node.star == Some(s) && r.node.centerOfMass == Vec(s.x, s.y) && r.node.totalMass == s.radius
  {
    if n.totalMass == 0.0 then Placed(Store(n, s), true)
    else if fuel == 0 then Placed(n, false)
    else
      var m := if n.isLeaf then Split(n) else n;
      var c := InsertIntoChild(m, s, fuel - 1);
      if c.ok then Placed(UpdateCenterOfMass(c.node, s), true) else c
  }

  /**
   * insertIntoChild: the child whose index has +1 when the star is east of
   * the midpoint and +2 when it is south of it receives the star. The node's
   * own mass is not touched here.
   */
  function InsertIntoChild(m: StarNode, s: Star, fuel: nat): (r: Placed)
    requires Valid(m) && !m.isLeaf && s.radius > 0.0
    decreases fuel, 1
    ensures r.node == m.(children := r.node.children)
    ensures QuadrantChildren(r.node.children, m.bounds)
    ensures SumMass(r.node.children) == SumMass(m.children) + (if r.ok then s.radius else 0.0)
  {
    var k := ChildIndex(m.bounds, s.x, s.y);
    assert QuadrantChildren(m.children, m.bounds);
    assert Valid(m.children[k]);
    var p := InsertStar(m.children[k], s, fuel);
    var cs := m.children[k := p.node];
    assert forall j | 0 <= j < 4 :: cs[j].bounds == Quadrant(m.bounds, j) && Valid(cs[j]);
    Placed(m.(children := cs), p.ok)
  }

  // ---------------------------------------------------------------------
  // What insert stores.

  /** The recorded mass is the sum of the radii of the stars stored below,
      and a node is empty (mass zero) exactly when it stores no star. */
  lemma {:induction false} MassIsRadii(n: StarNode)
    requires Valid(n)
    decreases n
    ensures n.totalMass == Content(n).mass
    ensures n.totalMass >= 0.0
    ensures n.totalMass == 0.0 <==> Content(n).stars == multiset{}
  {
    if !n.isLeaf {
      var cs := n.children;
      assert Valid(cs[0]) && Valid(cs[1]) && Valid(cs[2]) && Valid(cs[3]);
      MassIsRadii(cs[0]);
      MassIsRadii(cs[1]);
      MassIsRadii(cs[2]);
      MassIsRadii(cs[3]);
    }
  }

  /** Content does not look at a node's recorded mass and centre. */
  lemma ContentIgnoresWeights(n: StarNode, c: Vec, t: real)
    ensures Content(n.(centerOfMass := c, totalMass := t)) == Content(n)
  {
  }

  /** insert stores exactly the star when it returns true, and nothing when
      it returns false. */
  lemma {:induction false} InsertContent(n: StarNode, s: Star, fuel: nat, r: Placed)
    requires Valid(n) && s.radius > 0.0 && r == InsertStar(n, s, fuel)
    decreases fuel, 0
    ensures Content(r.node) == AddStarIf(Content(n), s, r.ok)
  {
    if n.totalMass == 0.0 {
      MassIsRadii(n);
    } else if fuel > 0 {
      var m := if n.isLeaf then Split(n) else n;
      var c := InsertIntoChild(m, s, fuel - 1);
      InsertIntoChildContent(m, s, fuel - 1, c);
      if c.ok {
        ContentIgnoresWeights(c.node, r.node.centerOfMass, r.node.totalMass);
      }
    }
  }

  lemma {:induction false} InsertIntoChildContent(m: StarNode, s: Star, fuel: nat, r: Placed)
    requires Valid(m) && !m.isLeaf && s.radius > 0.0 && r == InsertIntoChild(m, s, fuel)
    decreases fuel, 1
    ensures Content(r.node) == AddStarIf(Content(m), s, r.ok)
  {
    var k := ChildIndex(m.bounds, s.x, s.y);
    assert QuadrantChildren(m.children, m.bounds);
    assert Valid(m.children[k]);
    var p := InsertStar(m.children[k], s, fuel);
    InsertContent(m.children[k], s, fuel, p);
    assert r.node.children == m.children[k := p.node];
    LoadStep(Loads(m.children), Loads(r.node.children), k, s, p.ok);
  }

  /** Four loads, one of which may grow by `s`: together they grow by `s`
      exactly when that one does. */
  lemma LoadStep(ls: seq<Load>, ms: seq<Load>, k: nat, s: Star, ok: bool)
    requires |ls| == 4 && |ms| == 4 && k < 4
    requires forall j | 0 <= j < 4 && j != k :: ms[j] == ls[j]
    requires ms[k] == AddStarIf(ls[k], s, ok)
    ensures Sum4(ms) == AddStarIf(Sum4(ls), s, ok)
  {
    if ok {
      assert ms == ls[k := AddStar(ls[k], s)];
      SumGrowsStars(ls, k, s);
      SumGrowsMass(ls, k, s);
    } else {
      assert ms == ls;
    }
  }

  lemma SumGrowsStars(ls: seq<Load>, k: nat, s: Star)
    requires |ls| == 4 && k < 4
    ensures Sum4(ls[k := AddStar(ls[k], s)]).stars == Sum4(ls).stars + multiset{s}
  {
  }

  lemma SumGrowsMass(ls: seq<Load>, k: nat, s: Star)
    requires |ls| == 4 && k < 4
    ensures Sum4(ls[k := AddStar(ls[k], s)]).mass == Sum4(ls).mass + s.radius
  {
  }

  // ---------------------------------------------------------------------
  // calculateForce.

  /** Whether the approximation may be used: `s / dist < THETA`, where a zero
      distance gives an infinite (or NaN) quotient. */
  predicate FarEnough(size: real, dist: real)
  {
    if dist == 0.0 then size < 0.0 else size / dist < THETA
  }

  /** dx^2 + dy^2 for the offset from `s` to the node's centre of mass. */
  function SquaredOffset(n: StarNode, s: Star): (q: real)
    ensures q >= 0.0
  {
    var dx := n.centerOfMass.x - s.x;
    var dy := n.centerOfMass.y - s.y;
    assert dx * dx >= 0.0 && dy * dy >= 0.0;
    dx * dx + dy * dy
  }

  /**
   * The force calculateForce adds for star `s`: nothing from an empty node
   * or from the leaf holding `s` itself; the pull of the node's mass at its
   * centre for a leaf or a far node (nothing at distance zero); otherwise the
   * children with positive mass, in order.
   */
  function ForceOn(n: StarNode, s: Star, sqrt: real -> real): Vec
    decreases n, 1, 0
  {
    if n.totalMass == 0.0 then Zero
    else if n.isLeaf && n.star.Some? && n.star.value.id == s.id then Zero
    else
      var distSq := SquaredOffset(n, s);
      var dist := sqrt(distSq);
      if n.isLeaf || FarEnough(Max(n.bounds.width, n.bounds.height), dist) then
        if dist > 0.0 then
          Pull(n.centerOfMass.x - s.x, n.centerOfMass.y - s.y, dist, G * n.totalMass / (distSq + SOFTENING))
        else Zero
      else ChildForces(n, s, sqrt, |n.children|)
  }

  /** The forces of a node's first `k` children, skipping those with no mass. */
  function ChildForces(n: StarNode, s: Star, sqrt: real -> real, k: nat): Vec
    requires k <= |n.children|
    decreases n, 0, k
  {
    if k == 0 then Zero
    else
      var child := n.children[k - 1];
      Add(ChildForces(n, s, sqrt, k - 1), if child.totalMass > 0.0 then ForceOn(child, s, sqrt) else Zero)
  }

  /** calculateForce: adds the force of the subtree `n` on `s` into `acc`. */
  method CalculateForce(n: StarNode, s: Star, acc: ForceAccumulator, sqrt: real -> real)
    modifies acc
    decreases n, 1
    ensures acc.Value() == Add(old(acc.Value()), ForceOn(n, s, sqrt))
  {
    if n.totalMass == 0.0 {
      return;
    }
    var dx := n.centerOfMass.x - s.x;
    var dy := n.centerOfMass.y - s.y;
    var distSq := SquaredOffset(n, s);
    var dist := sqrt(distSq);
    if n.isLeaf && n.star.Some? && n.star.value.id == s.id {
      return;
    }
    var size := Max(n.bounds.width, n.bounds.height);
    if n.isLeaf || FarEnough(size, dist) {
      if dist > 0.0 {
        AddPull(acc, Pull(dx, dy, dist, G * n.totalMass / (distSq + SOFTENING)));
      }
    } else {
      ChildLoop(n, s, acc, sqrt);
    }
  }

  /** Adds one force into the accumulator. */
  method AddPull(acc: ForceAccumulator, f: Vec)
    modifies acc
    ensures acc.Value() == Add(old(acc.Value()), f)
  {
    acc.fx := acc.fx + f.x;
    acc.fy := acc.fy + f.y;
  }

  /** The loop of calculateForce over the children, skipping those with no
      mass. */
  method ChildLoop(n: StarNode, s: Star, acc: ForceAccumulator, sqrt: real -> real)
    modifies acc
    decreases n, 0
    ensures acc.Value() == Add(old(acc.Value()), ChildForces(n, s, sqrt, |n.children|))
  {
    var k := 0;
    while k < |n.children|
      invariant 0 <= k <= |n.children|
      invariant acc.Value() == Add(old(acc.Value()), ChildForces(n, s, sqrt, k))
    {
      var child := n.children[k];
      if child.totalMass > 0.0 {
        CalculateForce(child, s, acc, sqrt);
      }
      k := k + 1;
    }
  }

  /** A leaf holding another star pulls `s` along the line towards that star. */
  lemma LeafPullsTowardsStar(n: StarNode, s: Star, sqrt: real -> real)
    requires Valid(n) && n.isLeaf && n.star.Some? && n.star.value.id != s.id
    ensures var f := ForceOn(n, s, sqrt);
            var o := n.star.value;
      && f.x * (o.y - s.y) == f.y * (o.x - s.x)
      && f.x * (o.x - s.x) + f.y * (o.y - s.y) >= 0.0
  {
    var distSq := SquaredOffset(n, s);
    var dist := sqrt(distSq);
    if dist > 0.0 {
      PullAlong(n.centerOfMass.x - s.x, n.centerOfMass.y - s.y, dist, G * n.totalMass / (distSq + SOFTENING));
    }
  }

  // ---------------------------------------------------------------------
  // When insert succeeds.

  /** Every star in the leaves of `c` is one insertIntoChild, at a node with
      box `r`, sends to index `k`. */
  ghost predicate SentTo(c: StarNode, r: Rect, k: nat)
    decreases c
  {
    if !c.isLeaf && |c.children| == 4 then forall j | 0 <= j < 4 :: SentTo(c.children[j], r, k)
    else c.star.Some? ==> ChildIndex(r, c.star.value.x, c.star.value.y) == k
  }

  /** The routing invariant: at every subdivided node, each child stores
      only the stars insertIntoChild sends to it. */
  ghost predicate Routed(n: StarNode)
    decreases n
  {
    !n.isLeaf && |n.children| == 4 ==>
      forall k | 0 <= k < 4 :: SentTo(n.children[k], n.bounds, k) && Routed(n.children[k])
  }

  /** `a` and `b` take the same path down from a node with box `r` for `d`
      levels: they fall in the same box of sides width / 2^d and height / 2^d. */
  predicate SameBox(r: Rect, a: Star, b: Star, d: nat)
  {
    BoxAt(r, a.x, a.y, d) == BoxAt(r, b.x, b.y, d)
  }

  /**
   * insert below a non-empty node with depth left, one level down: the node
   * is split first when it is a leaf, and then the star is inserted into
   * the child with index `k`, with one level less, and into no other child.
   */
  lemma Descent(n: StarNode, s: Star, fuel: nat) returns (m: StarNode, k: nat, p: Placed, x: Placed)
    ensures Valid(n) && s.radius > 0.0 && n.totalMass != 0.0 && fuel > 0 ==>
      && Valid(m) && !m.isLeaf && m.bounds == n.bounds && QuadrantChildren(m.children, m.bounds)
      && (n.isLeaf ==> n.star.Some? && m == Split(n)) && (!n.isLeaf ==> m == n)
      && Content(m) == Content(n)
      && k == ChildIndex(n.bounds, s.x, s.y) && k < 4
      && p == InsertStar(m.children[k], s, fuel - 1)
      && x == InsertStar(n, s, fuel)
      && x.ok == p.ok && !x.node.isLeaf && x.node.bounds == n.bounds
      && x.node.children == m.children[k := p.node]
  {
    m, k, p, x := n, 0, Placed(n, false), Placed(n, false);
    if Valid(n) && s.radius > 0.0 && n.totalMass != 0.0 && fuel > 0 {
      m := if n.isLeaf then Split(n) else n;
      k := ChildIndex(n.bounds, s.x, s.y);
      assert QuadrantChildren(m.children, m.bounds);
      p := InsertStar(m.children[k], s, fuel - 1);
      x := InsertStar(n, s, fuel);
    }
  }

  /** Every star stored below a node sent to `k` is sent to `k`. */
  lemma {:induction false} SentToContent(c: StarNode, r: Rect, k: nat)
    decreases c
    ensures SentTo(c, r, k) ==> forall t | t in Content(c).stars :: ChildIndex(r, t.x, t.y) == k
  {
    if SentTo(c, r, k) && !c.isLeaf && |c.children| == 4 {
      SentToContent(c.children[0], r, k);
      SentToContent(c.children[1], r, k);
      SentToContent(c.children[2], r, k);
      SentToContent(c.children[3], r, k);
    }
  }

  /** A leaf split by insert is routed: the moved star sits in the child
      insertIntoChild picks for it, and the other children are empty. The
      split node is sent wherever the leaf was. */
  lemma SplitRouted(n: StarNode, r: Rect, k: nat)
    ensures Valid(n) && n.isLeaf && n.star.Some? ==>
      Routed(Split(n)) && (SentTo(n, r, k) ==> SentTo(Split(n), r, k))
  {
    if Valid(n) && n.isLeaf && n.star.Some? {
      var e := n.star.value;
      var m := Split(n);
      var i := ChildIndex(n.bounds, e.x, e.y);
      var quads := Subdivide(n.bounds);
      assert m.children == quads[i := Store(quads[i], e)];
      assert forall j | 0 <= j < 4 :: m.children[j].isLeaf;
      assert forall j | 0 <= j < 4 && j != i :: m.children[j].star.None?;
    }
  }

  /** A subdivided node whose children are those of `m` with child `k`
      replaced by `q` is routed when `m` is and `q` is a routed node sent to
      `k`. */
  lemma RoutedAbove(m: StarNode, k: nat, q: StarNode, y: StarNode)
    ensures (&& Routed(m) && !m.isLeaf && |m.children| == 4 && k < 4 && SentTo(q, m.bounds, k) && Routed(q)
             && !y.isLeaf && y.bounds == m.bounds && y.children == m.children[k := q])
        ==> Routed(y)
  {
    if && Routed(m) && !m.isLeaf && |m.children| == 4 && k < 4
       && !y.isLeaf && y.bounds == m.bounds && y.children == m.children[k := q]
    {
      forall j | 0 <= j < 4 && j != k
        ensures y.children[j] == m.children[j]
      {
      }
    }
  }

  /** The same for a node sent to index `i` by a node with box `r`. */
  lemma SentToAbove(m: StarNode, k: nat, q: StarNode, y: StarNode, r: Rect, i: nat)
    ensures (&& SentTo(m, r, i) && !m.isLeaf && |m.children| == 4 && k < 4 && SentTo(q, r, i)
             && !y.isLeaf && y.children == m.children[k := q])
        ==> SentTo(y, r, i)
  {
    if && SentTo(m, r, i) && !m.isLeaf && |m.children| == 4 && k < 4
       && !y.isLeaf && y.children == m.children[k := q]
    {
      forall j | 0 <= j < 4 && j != k
        ensures y.children[j] == m.children[j]
      {
      }
    }
  }

  /** Each child of a routed subdivided node is routed and sent to its index. */
  lemma RoutedChild(m: StarNode, k: nat)
    ensures Routed(m) && !m.isLeaf && |m.children| == 4 && k < 4 ==>
      SentTo(m.children[k], m.bounds, k) && Routed(m.children[k])
  {
  }

  /** Inserting a star of quadrant `k` into a node sent to quadrant `k`
      leaves it sent there. */
  lemma {:induction false} InsertSentTo(c: StarNode, s: Star, fuel: nat, r: Rect, k: nat)
    decreases fuel
    ensures Valid(c) && s.radius > 0.0 && SentTo(c, r, k) && ChildIndex(r, s.x, s.y) == k ==>
      SentAfter(c, s, fuel, r, k)
  {
    if Valid(c) && s.radius > 0.0 && SentTo(c, r, k) && ChildIndex(r, s.x, s.y) == k && c.totalMass != 0.0 && fuel > 0 {
      var child := SentToOneLevelDown(c, s, fuel, r, k);
      InsertSentTo(child, s, fuel - 1, r, k);
    }
  }

  /** One level of InsertSentTo. */
  lemma SentToOneLevelDown(c: StarNode, s: Star, fuel: nat, r: Rect, k: nat) returns (child: StarNode)
    ensures Valid(c) && s.radius > 0.0 && SentTo(c, r, k) && ChildIndex(r, s.x, s.y) == k && c.totalMass != 0.0 && fuel > 0 ==>
      && Valid(child) && SentTo(child, r, k)
      && (SentAfter(child, s, fuel - 1, r, k) ==> SentAfter(c, s, fuel, r, k))
  {
    var m, i, p, x := Descent(c, s, fuel);
    SplitRouted(c, r, k);
    child := if i < |m.children| then m.children[i] else c;
    SentToAbove(m, i, p.node, x.node, r, k);
  }

  /** insert keeps the routing invariant. */
  /** `n` is still routed after `s` is inserted into it. */
  ghost predicate RoutedAfter(n: StarNode, s: Star, fuel: nat)
    requires Valid(n) && s.radius > 0.0
  {
    Routed(InsertStar(n, s, fuel).node)
  }

  /** After `s` is inserted into `c`, every star below `c` still lies in
      quadrant `k` of `r`. */
  ghost predicate SentAfter(c: StarNode, s: Star, fuel: nat, r: Rect, k: nat)
    requires Valid(c) && s.radius > 0.0
  {
    SentTo(InsertStar(c, s, fuel).node, r, k)
  }

  lemma {:induction false} InsertRouted(n: StarNode, s: Star, fuel: nat)
    decreases fuel
    ensures Valid(n) && s.radius > 0.0 && Routed(n) ==> RoutedAfter(n, s, fuel)
  {
    if n.totalMass != 0.0 && fuel > 0 {
      var child, k := RoutedOneLevelDown(n, s, fuel);
      InsertRouted(child, s, fuel - 1);
      InsertSentTo(child, s, fuel - 1, n.bounds, k);
    } else {
      RoutedWithoutDescent(n, s, fuel);
    }
  }

  /** An insert that stops at `n` itself leaves it routed. */
  lemma RoutedWithoutDescent(n: StarNode, s: Star, fuel: nat)
    ensures Valid(n) && s.radius > 0.0 && Routed(n) && (n.totalMass == 0.0 || fuel == 0) ==> RoutedAfter(n, s, fuel)
  {
  }

  /** One level of insert below a non-empty node: the node stays routed when
      the child the star goes to, quadrant `k`, stays routed and keeps only
      stars of that quadrant. */
  lemma RoutedOneLevelDown(n: StarNode, s: Star, fuel: nat) returns (child: StarNode, k: nat)
    ensures Valid(n) && s.radius > 0.0 && Routed(n) && n.totalMass != 0.0 && fuel > 0 ==>
      && Valid(child) && Routed(child) && SentTo(child, n.bounds, k)
      && ChildIndex(n.bounds, s.x, s.y) == k
      && (RoutedAfter(child, s, fuel - 1) && SentAfter(child, s, fuel - 1, n.bounds, k) ==> RoutedAfter(n, s, fuel))
  {
    var m, i, p, x := Descent(n, s, fuel);
    k := i;
    child := if i < |m.children| then m.children[i] else n;
    if Valid(n) && s.radius > 0.0 && Routed(n) && n.totalMass != 0.0 && fuel > 0 {
      SplitRouted(n, n.bounds, 0);
      RoutedChild(m, i);
      RoutedAbove(m, i, p.node, x.node);
    }
  }

  /** An insert of `s` into `n`, a routed node of the invariant, that fails
      with `fuel` levels left. */
  ghost predicate StarFails(n: StarNode, s: Star, fuel: nat)
  {
    Valid(n) && s.radius > 0.0 && Routed(n) && !InsertStar(n, s, fuel).ok
  }

  /** `t` is stored at or below `n` and shares the box of `s` `d` levels down. */
  predicate StarBlocks(n: StarNode, t: Star, s: Star, d: nat)
  {
    t in Content(n).stars && SameBox(n.bounds, t, s, d)
  }

  /**
   * insert returns false only when the depth bound ran out: some star
   * already stored below the node takes the same path as `s` for `fuel`
   * levels, that is, lies in the same box of sides width / 2^fuel and
   * height / 2^fuel.
   */
  lemma StarInsertFails(n: StarNode, s: Star, fuel: nat)
    ensures Valid(n) && s.radius > 0.0 && Routed(n) && !InsertStar(n, s, fuel).ok ==>
      exists t | t in Content(n).stars :: SameBox(n.bounds, t, s, fuel)
  {
    var t := BlockingStar(n, s, fuel);
  }

  /** The star behind a failed insert, found by following the insert down. */
  lemma {:induction false} BlockingStar(n: StarNode, s: Star, fuel: nat) returns (t: Star)
    decreases fuel
    ensures StarFails(n, s, fuel) ==> StarBlocks(n, t, s, fuel)
  {
    t := s;
    if fuel == 0 {
      if StarFails(n, s, fuel) {
        MassIsRadii(n);
        t :| t in Content(n).stars;
      }
    } else {
      var child := StarOneLevelDown(n, s, fuel);
      t := BlockingStar(child, s, fuel - 1);
    }
  }

  /** One level of a failing insert: insert into the child the star is sent
      to fails too, and a star blocking it there blocks it here. */
  lemma StarOneLevelDown(n: StarNode, s: Star, fuel: nat) returns (child: StarNode)
    requires fuel > 0
    ensures StarFails(n, s, fuel) ==>
      && StarFails(child, s, fuel - 1)
      && forall t | StarBlocks(child, t, s, fuel - 1) :: StarBlocks(n, t, s, fuel)
  {
    child := n;
    if StarFails(n, s, fuel) {
      var m := if n.isLeaf then Split(n) else n;
      SplitRouted(n, n.bounds, 0);
      var k := ChildIndex(m.bounds, s.x, s.y);
      assert QuadrantChildren(m.children, m.bounds);
      child := m.children[k];
      SentToContent(child, m.bounds, k);
      assert !InsertIntoChild(m, s, fuel - 1).ok;
      forall t | StarBlocks(child, t, s, fuel - 1)
        ensures StarBlocks(n, t, s, fuel)
      {
        assert ChildIndex(m.bounds, t.x, t.y) == k;
      }
    }
  }

  /** The tree after inserting the first `k` stars, in order, into a fresh
      QuadTree over `bounds`. */
  function InsertAll(stars: seq<Star>, bounds: Rect, fuel: nat, k: nat): (n: StarNode)
    requires k <= |stars| && forall t | t in stars :: t.radius > 0.0
    ensures Valid(n) && n.bounds == bounds
  {
    if k == 0 then NewStarNode(bounds)
    else InsertStar(InsertAll(stars, bounds, fuel, k - 1), stars[k - 1], fuel).node
  }

  /** No two stars share a box `depth` levels below `bounds`. */
  predicate StarsApart(stars: seq<Star>, bounds: Rect, depth: nat)
  {
    forall i, j {:trigger SameBox(bounds, stars[i], stars[j], depth)} | 0 <= i < j < |stars| ::
      !SameBox(bounds, stars[i], stars[j], depth)
  }

  /**
   * When no two stars share a box at the depth bound, every insert
   * succeeds: the tree of the first `k` stars is routed and stores exactly
   * those stars.
   */
  lemma StarsAllStored(stars: seq<Star>, bounds: Rect, fuel: nat, k: nat)
    requires k <= |stars| && forall t | t in stars :: t.radius > 0.0
    requires StarsApart(stars, bounds, fuel)
    ensures Routed(InsertAll(stars, bounds, fuel, k))
    ensures Content(InsertAll(stars, bounds, fuel, k)).stars == multiset(stars[..k])
  {
    var i := 0;
    while i < k
      invariant i <= k
      invariant Routed(InsertAll(stars, bounds, fuel, i))
      invariant Content(InsertAll(stars, bounds, fuel, i)).stars == multiset(stars[..i])
    {
      i := i + 1;
      StarsStoredNext(stars, bounds, fuel, i);
    }
  }

  /** The step of StarsAllStored: from the first `k - 1` stars to the first `k`. */
  lemma StarsStoredNext(stars: seq<Star>, bounds: Rect, fuel: nat, k: nat)
    requires 0 < k <= |stars| && forall t | t in stars :: t.radius > 0.0
    requires StarsApart(stars, bounds, fuel)
    requires Routed(InsertAll(stars, bounds, fuel, k - 1))
    requires Content(InsertAll(stars, bounds, fuel, k - 1)).stars == multiset(stars[..k - 1])
    ensures Routed(InsertAll(stars, bounds, fuel, k))
    ensures Content(InsertAll(stars, bounds, fuel, k)).stars == multiset(stars[..k])
  {
    var done := stars[..k - 1];
    assert forall i | 0 <= i < |done| :: done[i] == stars[i];
    assert stars[k - 1] in stars;
    PrefixStep(stars, k);
    StarStores(InsertAll(stars, bounds, fuel, k - 1), InsertAll(stars, bounds, fuel, k),
               stars[k - 1], fuel, done, stars[..k]);
  }

  /** One insert of a star that shares no box with the stars already stored:
      it succeeds, the tree stays routed and it stores one star more. */
  lemma StarStores(t: StarNode, next: StarNode, s: Star, fuel: nat, done: seq<Star>, now: seq<Star>)
    ensures
      (&& Valid(t) && Routed(t) && Content(t).stars == multiset(done) && s.radius > 0.0
       && (forall i | 0 <= i < |done| :: !SameBox(t.bounds, done[i], s, fuel))
       && next == InsertStar(t, s, fuel).node && now == done + [s])
      ==> Routed(next) && Content(next).stars == multiset(now)
  {
    if && Valid(t) && Routed(t) && Content(t).stars == multiset(done) && s.radius > 0.0
       && (forall i | 0 <= i < |done| :: !SameBox(t.bounds, done[i], s, fuel))
       && next == InsertStar(t, s, fuel).node && now == done + [s]
    {
      var r := InsertStar(t, s, fuel);
      InsertRouted(t, s, fuel);
      InsertContent(t, s, fuel, r);
      var b := BlockingStar(t, s, fuel);
      if !r.ok {
        assert false;
      }
    }
  }

  // ---------------------------------------------------------------------
  // The QuadTree wrapper.

  /** The QuadTree object: a root node that insert replaces. */
  class StarTree {
    var root: StarNode

    /** The root is a well-formed node and every star sits in the quadrant
        insertIntoChild sends it to. */
    ghost predicate Invariant()
      reads this
    {
      Valid(root) && Routed(root)
    }

    /** The stars stored in the tree. */
    function Stars(): multiset<Star>
      reads this
    {
      Content(root).stars
    }

    constructor (x: real, y: real, width: real, height: real)
      ensures Invariant() && Stars() == multiset{}
      ensures root == NewStarNode(Rect(x, y, width, height))
    {
      root := NewStarNode(Rect(x, y, width, height));
    }

    /** insert: the star is added to the tree; `stored` is false only when
        the depth bound stopped it, which happens only when a star already
        stored shares its box at that depth, and then the tree stores the
        same stars. */
    method Insert(s: Star, fuel: nat) returns (stored: bool)
      requires Invariant() && s.radius > 0.0
      modifies this
      ensures Invariant()
      ensures root.bounds == old(root.bounds)
      ensures Content(root) == AddStarIf(old(Content(root)), s, stored)
      ensures root.totalMass == Content(root).mass
      ensures !stored ==> exists t | t in old(Stars()) :: SameBox(root.bounds, t, s, fuel)
    {
      var r := InsertStar(root, s, fuel);
      InsertContent(root, s, fuel, r);
      InsertRouted(root, s, fuel);
      StarInsertFails(root, s, fuel);
      MassIsRadii(r.node);
      root := r.node;
      stored := r.ok;
    }

    /** calculateForceOnStar: a fresh accumulator with the whole tree's
        force on `s` added in. */
    method CalculateForceOnStar(s: Star, sqrt: real -> real) returns (force: Vec)
      ensures force == ForceOn(root, s, sqrt)
    {
      var acc := new ForceAccumulator();
      CalculateForce(root, s, acc, sqrt);
      force := acc.Value();
    }
  }

  // ---------------------------------------------------------------------
  // getSpectrumColor.

  /** An `rgb(r, g, b)` colour, as its three channels. */
  datatype Rgb = Rgb(r: int, g: int, b: int)

  /** Clamps the progress to [0, 1]. */
  function Clamp01(p: real): (c: real)
    ensures 0.0 <= c <= 1.0
    ensures 0.0 <= p <= 1.0 ==> c == p
  {
    Min(1.0, Max(0.0, p))
  }

  /**
   * getSpectrumColor: light blue (150, 200, 230) at progress 0 brightening
   * to white at 0.5, then white fading to light orange (255, 200, 150) at 1,
   * each channel rounded.
   */
  function SpectrumColor(progress: real): (c: Rgb)
    ensures 150 <= c.r <= 255 && 150 <= c.g <= 255 && 150 <= c.b <= 255
    ensures Clamp01(progress) >= 0.5 ==> c.r == 255
    ensures progress == 0.5 ==> c == Rgb(255, 255, 255)
    ensures progress <= 0.0 ==> c == Rgb(150, 200, 230)
    ensures progress >= 1.0 ==> c == Rgb(255, 200, 150)
  {
    var p := Clamp01(progress);
    if p < 0.5 then
      var t := p / 0.5;
      Rgb(Round(150.0 + (255.0 - 150.0) * t), Round(200.0 + (255.0 - 200.0) * t), Round(230.0 + (255.0 - 230.0) * t))
    else
      var t := (p - 0.5) / 0.5;
      Rgb(Round(255.0), Round(255.0 - (255.0 - 200.0) * t), Round(255.0 - (255.0 - 150.0) * t))
  }
}
