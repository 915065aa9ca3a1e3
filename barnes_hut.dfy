/**
 * The Barnes-Hut quadtree of the main simulation (main.js, class QuadTree and
 * calculateBarnesHutForces): bodies are inserted into a tree of boxes that
 * keeps, in every node, the total mass and centre of mass of what lies below
 * it; the force on a body is then summed exactly from nearby leaves and
 * approximated by a node's centre of mass when the node looks small from the
 * body (size / distance < THETA).
 */
module BarnesHut {
  import opened Numerics

  /** Gravitational constant of the main simulation. */
  const G: real := 20.0
  /** Opening angle of the approximation. */
  const THETA: real := 0.5
  /** Added to every squared distance before dividing by it. */
  const SOFTENING: real := 0.000001
  /** Gap added to the sum of the radii below which no force is applied. */
  const CONTACT_GAP: real := 5.0
  /** Margin added on every side of the bodies' bounding box. */
  const PADDING: real := 1000.0

  /**
   * Anything with a position, a mass and a radius (planets, stars and the
   * pseudo-bodies that stand for a node's centre of mass). `id` stands for the
   * object's identity: two entries with the same id are the same object.
   */
  datatype Body = Body(id: nat, x: real, y: real, mass: real, radius: real)

  // ---------------------------------------------------------------------
  // Mass.

  /** The total mass of a list of bodies. */
  function MassOf(s: seq<Body>): real
  {
    if s == [] then 0.0 else MassOf(s[..|s| - 1]) + s[|s| - 1].mass
  }

  /**
   * updateCenterOfMass on one coordinate: the first body of an empty node
   * gives it its position; later bodies move it to the mass-weighted mean of
   * the old centre `u` (weighing the old mass `p`) and the body `v` (weighing
   * its mass `q`).
   */
  function MergedCoordinate(u: real, p: real, v: real, q: real): real
    requires p >= 0.0 && q >= 0.0
  {
    if p == 0.0 then v else (u * p + v * q) / (p + q)
  }

  function MergedCenter(center: Vec, total: real, b: Body): Vec
    requires total >= 0.0 && b.mass >= 0.0
  {
    Vec(MergedCoordinate(center.x, total, b.x, b.mass),
        MergedCoordinate(center.y, total, b.y, b.mass))
  }

  /**
   * The merged coordinate is a weighted mean: times the new mass it gives the
   * sum of the two first moments, and once the node had mass it lies between
   * the old centre and the body.
   */
  lemma MergedCoordinateIsWeightedMean(u: real, p: real, v: real, q: real)
    requires p >= 0.0 && q >= 0.0
    ensures MergedCoordinate(u, p, v, q) * (p + q) == u * p + v * q
    ensures p > 0.0 ==> Min(u, v) <= MergedCoordinate(u, p, v, q) <= Max(u, v)
  {
    var m := MergedCoordinate(u, p, v, q);
    if p > 0.0 {
      assert m == (u * p + v * q) / (p + q);
      assert m * (p + q) == u * p + v * q;
      MeanBetween(u, p, v, q, m);
    } else {
      assert m == v;
      assert u * p == 0.0;
    }
  }

  /** Both coordinates of the merged centre are weighted means. */
  lemma MergedCenterIsWeightedMean(center: Vec, total: real, b: Body)
    requires total >= 0.0 && b.mass >= 0.0
    ensures var c := MergedCenter(center, total, b);
      && c.x * (total + b.mass) == center.x * total + b.x * b.mass
      && c.y * (total + b.mass) == center.y * total + b.y * b.mass
      && (total > 0.0 ==> Min(center.x, b.x) <= c.x <= Max(center.x, b.x))
      && (total > 0.0 ==> Min(center.y, b.y) <= c.y <= Max(center.y, b.y))
  {
    MergedCoordinateIsWeightedMean(center.x, total, b.x, b.mass);
    MergedCoordinateIsWeightedMean(center.y, total, b.y, b.mass);
  }

  // ---------------------------------------------------------------------
  // Forces.

  /** Whether the approximation may be used: `nodeSize / distance < THETA`,
      where a zero distance gives an infinite (or NaN) quotient. */
  predicate FarEnough(nodeSize: real, distance: real)
  {
    if distance == 0.0 then nodeSize < 0.0 else nodeSize / distance < THETA
  }

  /**
   * applyForce: the pull of `b` on `a`, G * b.mass / d^2 along the direction
   * from `a` to `b`; nothing when the bodies are closer than their radii plus
   * the contact gap.
   */
  function PairForce(a: Body, b: Body, sqrt: real -> real): Vec
    requires PositiveOnPositives(sqrt)
  {
    var distSq := SquaredDistance(a, b);
    var dist := sqrt(distSq);
    if dist < a.radius + b.radius + CONTACT_GAP then Zero
    else Pull(b.x - a.x, b.y - a.y, dist, G * b.mass / distSq)
  }

  /** dx^2 + dy^2 plus the softening term, which keeps it away from zero. */
  function SquaredDistance(a: Body, b: Body): (r: real)
    ensures r >= SOFTENING
  {
    var dx := b.x - a.x;
    var dy := b.y - a.y;
    assert dx * dx >= 0.0 && dy * dy >= 0.0;
    dx * dx + dy * dy + SOFTENING
  }

  /** The pull of `b` on `a` points along the line from `a` to `b` and, for a
      non-negative mass, towards `b`. */
  lemma PairForceAttracts(a: Body, b: Body, sqrt: real -> real)
    requires PositiveOnPositives(sqrt)
    ensures var f := PairForce(a, b, sqrt);
      && f.x * (b.y - a.y) == f.y * (b.x - a.x)
      && (b.mass >= 0.0 ==> f.x * (b.x - a.x) + f.y * (b.y - a.y) >= 0.0)
  {
    var distSq := SquaredDistance(a, b);
    var dist := sqrt(distSq);
    if dist >= a.radius + b.radius + CONTACT_GAP {
      var force := G * b.mass / distSq;
      assert b.mass >= 0.0 ==> force >= 0.0;
      PullAlong(b.x - a.x, b.y - a.y, dist, force);
    }
  }

  /** The leaf loop: every other body of the leaf pulls on `body`, the body
      itself (the same object) is skipped. */
  function LeafForce(body: Body, others: seq<Body>, sqrt: real -> real): Vec
    requires PositiveOnPositives(sqrt)
  {
    if others == [] then Zero
    else
      var rest := LeafForce(body, others[..|others| - 1], sqrt);
      var last := others[|others| - 1];
      if last.id != body.id then Add(rest, PairForce(body, last, sqrt)) else rest
  }

  /** The bodies of `others` that are not `body` itself. */
  function Others(body: Body, others: seq<Body>): (r: seq<Body>)
    ensures forall o | o in r :: o in others && o.id != body.id
    ensures forall o | o in others && o.id != body.id :: o in r
  {
    if others == [] then []
    else
      var rest := Others(body, others[..|others| - 1]);
      var last := others[|others| - 1];
      assert forall o | o in others :: o in others[..|others| - 1] || o == last;
      if last.id != body.id then rest + [last] else rest
  }

  /** Sum of the pulls of a list of bodies, none of them skipped. */
  function SumOfPulls(body: Body, others: seq<Body>, sqrt: real -> real): Vec
    requires PositiveOnPositives(sqrt)
  {
    if others == [] then Zero
    else Add(SumOfPulls(body, others[..|others| - 1], sqrt), PairForce(body, others[|others| - 1], sqrt))
  }

  /** Skipping the body itself in the leaf loop is the same as summing the
      pulls of the other bodies only: a body never pulls on itself. */
  lemma {:induction false} LeafForceExcludesSelf(body: Body, others: seq<Body>, sqrt: real -> real)
    requires PositiveOnPositives(sqrt)
    ensures LeafForce(body, others, sqrt) == SumOfPulls(body, Others(body, others), sqrt)
    decreases |others|
  {
    if others != [] {
      var init := others[..|others| - 1];
      var last := others[|others| - 1];
      LeafForceExcludesSelf(body, init, sqrt);
      if last.id != body.id {
        var r := Others(body, init);
        assert (r + [last])[..|r + [last]| - 1] == r;
      }
    }
  }

  /** A leaf holding only the body itself exerts no force on it. */
  lemma LoneBodyFeelsNothing(body: Body, sqrt: real -> real)
    requires PositiveOnPositives(sqrt)
    ensures LeafForce(body, [body], sqrt) == Zero
  {
    assert [body][..0] == [];
  }

  /** applyForce: adds the pull of `b` on `a` into `acc` (the early return
      for bodies in contact is the `Zero` case of `PairForce`). */
  method ApplyForce(a: Body, b: Body, acc: ForceAccumulator, sqrt: real -> real)
    requires PositiveOnPositives(sqrt)
    modifies acc
    ensures acc.Value() == Add(old(acc.Value()), PairForce(a, b, sqrt))
  {
    var f := PairForce(a, b, sqrt);
    acc.fx := acc.fx + f.x;
    acc.fy := acc.fy + f.y;
  }


  // ---------------------------------------------------------------------
  // What a subtree holds: its bodies and their mass.

  datatype Summary = Summary(items: multiset<Body>, mass: real)

  /** The summary after one more body has been stored. */
  function Grow(s: Summary, b: Body): Summary
  {
    Summary(s.items + multiset{b}, s.mass + b.mass)
  }

  /** The summary of four subtrees together. */
  function Total4(s: seq<Summary>): Summary
    requires |s| == 4
  {
    Summary(s[0].items + s[1].items + s[2].items + s[3].items,
            s[0].mass + s[1].mass + s[2].mass + s[3].mass)
  }

  /** The summary of a list of bodies. */
  function SummaryOf(s: seq<Body>): Summary
  {
    Summary(multiset(s), MassOf(s))
  }

  /** One body stored in any one of four subtrees is one body stored in the
      four together. */
  lemma TotalGrow(s: seq<Summary>, k: nat, b: Body)
    requires |s| == 4 && k < 4
    ensures Total4(s[k := Grow(s[k], b)]) == Grow(Total4(s), b)
  {
    TotalGrowItems(s, k, b);
    TotalGrowMass(s, k, b);
  }

  lemma TotalGrowItems(s: seq<Summary>, k: nat, b: Body)
    requires |s| == 4 && k < 4
    ensures Total4(s[k := Grow(s[k], b)]).items == Grow(Total4(s), b).items
  {
  }

  lemma TotalGrowMass(s: seq<Summary>, k: nat, b: Body)
    requires |s| == 4 && k < 4
    ensures Total4(s[k := Grow(s[k], b)]).mass == Grow(Total4(s), b).mass
  {
  }

  /** Appending a body to a list grows its summary by that body. */
  lemma SummaryOfPush(s: seq<Body>, b: Body)
    ensures SummaryOf(s + [b]) == Grow(SummaryOf(s), b)
  {
    assert (s + [b])[..|s|] == s;
  }

  /** The summary of a non-empty list is that of all but its last body,
      grown by the last body. */
  lemma SummaryOfLast(s: seq<Body>)
    requires s != []
    ensures SummaryOf(s) == Grow(SummaryOf(s[..|s| - 1]), s[|s| - 1])
  {
    assert s == s[..|s| - 1] + [s[|s| - 1]];
    SummaryOfPush(s[..|s| - 1], s[|s| - 1]);
  }

  // ---------------------------------------------------------------------
  // The tree.

  /**
   * A node of the tree, with the fields of the game's QuadTree objects. The
   * game updates nodes in place; here every operation returns the updated
   * node.
   */
  datatype Node = Node(bounds: Rect, capacity: nat, bodies: seq<Body>, divided: bool,
                       children: seq<Node>, centerOfMass: Vec, totalMass: real)

  /** What insert returns: the updated node and insert's boolean. */
  datatype Placed = Placed(node: Node, ok: bool)

  /** What the children loop of insert returns. */
  datatype ChildrenPlaced = ChildrenPlaced(children: seq<Node>, ok: bool)

  /** The same box and capacity: the parts of a node that never change. */
  predicate SameShell(a: Node, b: Node)
  {
    a.bounds == b.bounds && a.capacity == b.capacity
  }

  /** The bodies stored at or below a node and their total mass, added up
      from the leaves. */
  function Content(n: Node): Summary
    decreases n
  {
    if n.divided && |n.children| == 4 then
      Total4([Content(n.children[0]), Content(n.children[1]), Content(n.children[2]), Content(n.children[3])])
    else SummaryOf(n.bodies)
  }

  function ChildContents(cs: seq<Node>): seq<Summary>
    requires |cs| == 4
  {
    [Content(cs[0]), Content(cs[1]), Content(cs[2]), Content(cs[3])]
  }

  /**
   * The shape invariant. A leaf holds at most `capacity` bodies, all in its
   * box and of non-negative mass, and no children; a divided node holds no
   * bodies and exactly four children, the NW, NE, SW, SE quadrants of its
   * box, with the same capacity.
   */
  ghost predicate Shaped(n: Node)
    decreases n
  {
    && n.totalMass >= 0.0
    && (!n.divided ==>
          && n.children == [] && |n.bodies| <= n.capacity
          && forall b | b in n.bodies :: Contains(n, b) && b.mass >= 0.0)
    && (n.divided ==>
          && n.bodies == [] && |n.children| == 4
          && forall k | 0 <= k < 4 ::
               && n.children[k].bounds == Quadrant(n.bounds, k)
               && n.children[k].capacity == n.capacity
               && Shaped(n.children[k]))
  }

  /**
   * The mass invariant, at every node: the recorded mass is the mass of the
   * bodies stored below.
   */
  ghost predicate Weighed(n: Node)
    decreases n
  {
    && n.totalMass == Content(n).mass
    && (n.divided && |n.children| == 4 ==> forall k | 0 <= k < 4 :: Weighed(n.children[k]))
  }

  /** Every node of a list satisfies the mass invariant. */
  ghost predicate WeighedChildren(cs: seq<Node>)
  {
    forall k | 0 <= k < |cs| :: Weighed(cs[k])
  }

  /** The whole invariant of a node. */
  ghost predicate Valid(n: Node)
  {
    Shaped(n) && Weighed(n)
  }

  /** Four well-shaped children, each with the box and capacity of `shells`. */
  ghost predicate ShapedChildren(cs: seq<Node>, shells: seq<Node>)
  {
    |cs| == 4 && |shells| == 4 && forall k | 0 <= k < 4 :: Shaped(cs[k]) && SameShell(cs[k], shells[k])
  }

  /** The QuadTree constructor: an empty leaf. */
  function NewNode(bounds: Rect, capacity: nat): (n: Node)
    ensures Valid(n) && Content(n) == SummaryOf([])
    ensures n.bounds == bounds && n.capacity == capacity && !n.divided && n.bodies == []
  {
    Node(bounds, capacity, [], false, [], Zero, 0.0)
  }

  /** contains: the half-open box test. */
  predicate Contains(n: Node, body: Body)
  {
    InRect(n.bounds, body.x, body.y)
  }

  /**
   * updateCenterOfMass: the mass grows by exactly the body's mass; an empty
   * node takes the body's position, any other moves to the mass-weighted
   * mean of its old centre and the body.
   */
  function UpdateCenterOfMass(n: Node, body: Body): (r: Node)
    requires n.totalMass >= 0.0 && body.mass >= 0.0
    ensures r == n.(centerOfMass := r.centerOfMass, totalMass := r.totalMass)
    ensures r.totalMass == n.totalMass + body.mass
    ensures r.centerOfMass == MergedCenter(n.centerOfMass, n.totalMass, body)
  {
    n.(centerOfMass := MergedCenter(n.centerOfMass, n.totalMass, body),
       totalMass := n.totalMass + body.mass)
  }

  /**
   * insert. `fuel` bounds the depth of subdivision below this node: the game
   * recurses without end when more bodies than the capacity share a point,
   * and the model gives up instead (returns false) when a full node is
   * reached with no fuel left.
   */
  function Insert(n: Node, body: Body, fuel: nat): (r: Placed)
    requires Shaped(n) && body.mass >= 0.0
    decreases fuel, 2, 0
    ensures Shaped(r.node) && SameShell(r.node, n)
  {
    if !Contains(n, body) then Placed(n, false)
    else if |n.bodies| < n.capacity && !n.divided then
      Placed(UpdateCenterOfMass(n.(bodies := n.bodies + [body]), body), true)
    else if fuel == 0 then Placed(n, false)
    else if n.divided then Descend(n, body, fuel)
    else Descend(Subdivide(n), body, fuel)
  }

  /** The rest of insert once the node is divided: the children loop, then
      updateCenterOfMass when a child took the body. */
  function Descend(m: Node, body: Body, fuel: nat): (r: Placed)
    requires Shaped(m) && m.divided && fuel > 0 && body.mass >= 0.0
    decreases fuel, 1, 0
    ensures Shaped(r.node) && SameShell(r.node, m) && r.node.divided
  {
    var c := InsertIntoChildren(m.children, body, fuel - 1);
    var m' := m.(children := c.children);
    if c.ok then Placed(UpdateCenterOfMass(m', body), true) else Placed(m', false)
  }

  /**
   * The `for (let child of this.children)` loop of insert, over the four
   * children: the body goes to the first child that accepts it. A child that
   * refuses may still have been subdivided on the way.
   */
  function InsertIntoChildren(cs: seq<Node>, body: Body, fuel: nat): (r: ChildrenPlaced)
    requires |cs| == 4 && body.mass >= 0.0
    requires forall i | 0 <= i < 4 :: Shaped(cs[i])
    decreases fuel, 3, 0
    ensures ShapedChildren(r.children, cs)
  {
    var p0 := Insert(cs[0], body, fuel);
    if p0.ok then ChildrenPlaced([p0.node, cs[1], cs[2], cs[3]], true) else
    var p1 := Insert(cs[1], body, fuel);
    if p1.ok then ChildrenPlaced([p0.node, p1.node, cs[2], cs[3]], true) else
    var p2 := Insert(cs[2], body, fuel);
    if p2.ok then ChildrenPlaced([p0.node, p1.node, p2.node, cs[3]], true) else
    var p3 := Insert(cs[3], body, fuel);
    ChildrenPlaced([p0.node, p1.node, p2.node, p3.node], p3.ok)
  }

  /** The four empty quadrant children subdivide creates. */
  function EmptyQuadrants(bounds: Rect, capacity: nat): (cs: seq<Node>)
    ensures |cs| == 4
    ensures forall k | 0 <= k < 4 :: cs[k] == NewNode(Quadrant(bounds, k), capacity)
  {
    [NewNode(Quadrant(bounds, 0), capacity), NewNode(Quadrant(bounds, 1), capacity),
     NewNode(Quadrant(bounds, 2), capacity), NewNode(Quadrant(bounds, 3), capacity)]
  }

  /** subdivide's loop: the bodies, in order, each go to the first quadrant
      that takes it. */
  function Distribute(bounds: Rect, capacity: nat, bodies: seq<Body>): (cs: seq<Node>)
    requires forall b | b in bodies :: b.mass >= 0.0
    decreases 0, 4, |bodies|
    ensures ShapedChildren(cs, EmptyQuadrants(bounds, capacity))
  {
    if bodies == [] then EmptyQuadrants(bounds, capacity)
    else
      var init := bodies[..|bodies| - 1];
      assert forall b | b in init :: b in bodies;
      InsertIntoChildren(Distribute(bounds, capacity, init), bodies[|bodies| - 1], 0).children
  }

  /** subdivide: four empty quadrants and the node's bodies moved into them;
      the node's mass and centre of mass are left as they were. */
  function Subdivide(n: Node): (r: Node)
    requires Shaped(n) && !n.divided
    decreases 0, 5, 0
    ensures Shaped(r) && SameShell(r, n) && r.divided
    ensures r.centerOfMass == n.centerOfMass && r.totalMass == n.totalMass
  {
    n.(children := Distribute(n.bounds, n.capacity, n.bodies), divided := true, bodies := [])
  }

  // ---------------------------------------------------------------------
  // What insert stores.

  /** The summary after `b` was stored when `ok`, and unchanged otherwise. */
  function GrowIf(s: Summary, b: Body, ok: bool): Summary
  {
    if ok then Grow(s, b) else s
  }

  /** insert stores exactly `body` more when it returns true, and nothing
      more when it returns false. */
  lemma {:induction false} InsertContent(n: Node, body: Body, fuel: nat)
    requires Shaped(n) && body.mass >= 0.0
    decreases fuel, 2, 0
    ensures var r := Insert(n, body, fuel); Content(r.node) == GrowIf(Content(n), body, r.ok)
  {
    if !Contains(n, body) {
    } else if |n.bodies| < n.capacity && !n.divided {
      SummaryOfPush(n.bodies, body);
    } else if fuel > 0 {
      if n.divided {
        DescendContent(n, body, fuel);
      } else {
        SubdivideContent(n);
        DescendContent(Subdivide(n), body, fuel);
      }
    }
  }

  /** Content does not look at a node's recorded mass and centre. */
  lemma ContentIgnoresWeights(n: Node, c: Vec, t: real)
    ensures Content(n.(centerOfMass := c, totalMass := t)) == Content(n)
  {
  }

  lemma {:induction false} DescendContent(m: Node, body: Body, fuel: nat)
    requires Shaped(m) && m.divided && fuel > 0 && body.mass >= 0.0
    decreases fuel, 1, 0
    ensures var r := Descend(m, body, fuel); Content(r.node) == GrowIf(Content(m), body, r.ok)
  {
    var c := InsertIntoChildren(m.children, body, fuel - 1);
    InsertIntoChildrenContent(m.children, body, fuel - 1, c);
    ReplacedChildrenContent(m, c, body, Descend(m, body, fuel));
  }

  /** A divided node whose children now store `body` more stores `body`
      more, whatever updateCenterOfMass then records. */
  lemma ReplacedChildrenContent(m: Node, c: ChildrenPlaced, body: Body, r: Placed)
    requires m.divided && |m.children| == 4 && |c.children| == 4
    requires m.totalMass >= 0.0 && body.mass >= 0.0
    requires r == if c.ok then Placed(UpdateCenterOfMass(m.(children := c.children), body), true)
                  else Placed(m.(children := c.children), false)
    requires Total4(ChildContents(c.children)) == GrowIf(Total4(ChildContents(m.children)), body, c.ok)
    ensures Content(r.node) == GrowIf(Content(m), body, r.ok)
  {
    var m' := m.(children := c.children);
    if c.ok {
      var u := UpdateCenterOfMass(m', body);
      ContentIgnoresWeights(m', u.centerOfMass, u.totalMass);
    }
  }

  lemma {:induction false} InsertIntoChildrenContent(cs: seq<Node>, body: Body, fuel: nat, r: ChildrenPlaced)
    requires |cs| == 4 && body.mass >= 0.0
    requires forall i | 0 <= i < 4 :: Shaped(cs[i])
    requires r == InsertIntoChildren(cs, body, fuel)
    decreases fuel, 3, 0
    ensures Total4(ChildContents(r.children)) == GrowIf(Total4(ChildContents(cs)), body, r.ok)
  {
    var p0 := Insert(cs[0], body, fuel);
    InsertContent(cs[0], body, fuel);
    if p0.ok {
      ChildrenStep(cs, [p0.node, cs[1], cs[2], cs[3]], body, true, false, false, false);
      return;
    }
    var p1 := Insert(cs[1], body, fuel);
    InsertContent(cs[1], body, fuel);
    if p1.ok {
      ChildrenStep(cs, [p0.node, p1.node, cs[2], cs[3]], body, false, true, false, false);
      return;
    }
    var p2 := Insert(cs[2], body, fuel);
    InsertContent(cs[2], body, fuel);
    if p2.ok {
      ChildrenStep(cs, [p0.node, p1.node, p2.node, cs[3]], body, false, false, true, false);
      return;
    }
    var p3 := Insert(cs[3], body, fuel);
    InsertContent(cs[3], body, fuel);
    ChildrenStep(cs, [p0.node, p1.node, p2.node, p3.node], body, false, false, false, p3.ok);
  }

  /** Four children, at most one of which stores `body` more: together they
      store `body` more exactly when one of them does. */
  lemma ChildrenStep(cs: seq<Node>, ds: seq<Node>, body: Body, okA: bool, okB: bool, okC: bool, okD: bool)
    requires |cs| == 4 && |ds| == 4
    requires Content(ds[0]) == GrowIf(Content(cs[0]), body, okA)
    requires Content(ds[1]) == GrowIf(Content(cs[1]), body, okB)
    requires Content(ds[2]) == GrowIf(Content(cs[2]), body, okC)
    requires Content(ds[3]) == GrowIf(Content(cs[3]), body, okD)
    requires okA ==> !okB && !okC && !okD
    requires okB ==> !okC && !okD
    requires okC ==> !okD
    ensures Total4(ChildContents(ds)) == GrowIf(Total4(ChildContents(cs)), body, okA || okB || okC || okD)
  {
    Total4Step(ChildContents(cs), ChildContents(ds), body, okA, okB, okC, okD);
  }

  /** Four summaries, at most one of which grows by `body`: their total grows
      by `body` exactly when one of them does. */
  lemma Total4Step(s: seq<Summary>, t: seq<Summary>, body: Body, okA: bool, okB: bool, okC: bool, okD: bool)
    requires |s| == 4 && |t| == 4
    requires t[0] == GrowIf(s[0], body, okA) && t[1] == GrowIf(s[1], body, okB)
    requires t[2] == GrowIf(s[2], body, okC) && t[3] == GrowIf(s[3], body, okD)
    requires okA ==> !okB && !okC && !okD
    requires okB ==> !okC && !okD
    requires okC ==> !okD
    ensures Total4(t) == GrowIf(Total4(s), body, okA || okB || okC || okD)
  {
    if okA {
      assert t == s[0 := Grow(s[0], body)];
      TotalGrow(s, 0, body);
    } else if okB {
      assert t == s[1 := Grow(s[1], body)];
      TotalGrow(s, 1, body);
    } else if okC {
      assert t == s[2 := Grow(s[2], body)];
      TotalGrow(s, 2, body);
    } else if okD {
      assert t == s[3 := Grow(s[3], body)];
      TotalGrow(s, 3, body);
    } else {
      assert t == s;
    }
  }

  /** Every child is a leaf with room for one more body. */
  predicate RoomInEveryChild(cs: seq<Node>)
  {
    forall i | 0 <= i < |cs| :: !cs[i].divided && |cs[i].bodies| < cs[i].capacity
  }

  /** When every child is a leaf with room, the children loop places the body
      exactly when one of the children's boxes contains it, and no child is
      subdivided. */
  lemma RoomyChildren(cs: seq<Node>, body: Body, fuel: nat, r: ChildrenPlaced)
    requires |cs| == 4 && body.mass >= 0.0
    requires forall i | 0 <= i < 4 :: Shaped(cs[i])
    requires RoomInEveryChild(cs)
    requires r == InsertIntoChildren(cs, body, fuel)
    ensures r.ok <==> exists i | 0 <= i < 4 :: Contains(cs[i], body)
    ensures forall i | 0 <= i < 4 :: !r.children[i].divided
  {
  }

  /** Leaves holding fewer bodies between them than the capacity each have
      room for one more. */
  lemma ChildrenHaveRoom(cs: seq<Node>, init: seq<Body>, capacity: nat)
    requires |cs| == 4 && |init| < capacity
    requires forall k | 0 <= k < 4 :: !cs[k].divided && cs[k].capacity == capacity
    requires Total4(ChildContents(cs)).items == multiset(init)
    ensures RoomInEveryChild(cs)
  {
    forall i | 0 <= i < 4
      ensures |cs[i].bodies| < capacity
    {
      assert Content(cs[i]).items == multiset(cs[i].bodies);
      assert |multiset(cs[i].bodies)| <= |Total4(ChildContents(cs)).items|;
    }
  }

  /** subdivide's loop places every body, since each child has room for as
      many bodies as the parent held, and the quadrants tile the box. */
  lemma {:induction false} DistributeContent(bounds: Rect, capacity: nat, bodies: seq<Body>)
    requires |bodies| <= capacity
    requires forall b | b in bodies :: InRect(bounds, b.x, b.y) && b.mass >= 0.0
    decreases 0, 4, |bodies|
    ensures var cs := Distribute(bounds, capacity, bodies);
      && (forall k | 0 <= k < 4 :: !cs[k].divided)
      && Total4(ChildContents(cs)) == SummaryOf(bodies)
  {
    if bodies == [] {
      EmptyQuadrantsContent(bounds, capacity);
    } else {
      var init := bodies[..|bodies| - 1];
      assert forall b | b in init :: b in bodies;
      var before := Distribute(bounds, capacity, init);
      DistributeContent(bounds, capacity, init);
      var c := InsertIntoChildren(before, bodies[|bodies| - 1], 0);
      assert Distribute(bounds, capacity, bodies) == c.children;
      DistributeStep(bounds, capacity, bodies, before, c);
    }
  }

  /** The four fresh quadrants store nothing. */
  lemma EmptyQuadrantsContent(bounds: Rect, capacity: nat)
    ensures var cs := EmptyQuadrants(bounds, capacity);
      && (forall k | 0 <= k < 4 :: !cs[k].divided)
      && Total4(ChildContents(cs)) == SummaryOf([])
  {
    var cs := EmptyQuadrants(bounds, capacity);
    var e := SummaryOf([]);
    EmptySummary();
    assert ChildContents(cs) == [e, e, e, e];
    assert Total4([e, e, e, e]) == e;
  }

  lemma EmptySummary()
    ensures SummaryOf([]) == Summary(multiset{}, 0.0)
  {
  }

  /** One step of subdivide's loop: the last body goes into the quadrant
      that contains it, which has room for it. */
  lemma DistributeStep(bounds: Rect, capacity: nat, bodies: seq<Body>, before: seq<Node>, c: ChildrenPlaced)
    requires 0 < |bodies| <= capacity
    requires forall b | b in bodies :: InRect(bounds, b.x, b.y) && b.mass >= 0.0
    requires ShapedChildren(before, EmptyQuadrants(bounds, capacity))
    requires forall k | 0 <= k < 4 :: !before[k].divided
    requires Total4(ChildContents(before)) == SummaryOf(bodies[..|bodies| - 1])
    requires c == InsertIntoChildren(before, bodies[|bodies| - 1], 0)
    decreases 0, 4, |bodies| - 1
    ensures forall k | 0 <= k < 4 :: !c.children[k].divided
    ensures Total4(ChildContents(c.children)) == SummaryOf(bodies)
  {
    var init := bodies[..|bodies| - 1];
    var last := bodies[|bodies| - 1];
    assert last in bodies;
    ChildrenHaveRoom(before, init, capacity);
    QuadrantsTile(bounds, last.x, last.y);
    var k := ChildIndex(bounds, last.x, last.y);
    assert Contains(before[k], last);
    RoomyChildren(before, last, 0, c);
    InsertIntoChildrenContent(before, last, 0, c);
    SummaryOfLast(bodies);
  }

  /** subdivide moves the bodies down without losing or adding any. */
  lemma SubdivideContent(n: Node)
    requires Shaped(n) && !n.divided
    decreases 0, 5, 0
    ensures Content(Subdivide(n)) == Content(n)
  {
    DistributeContent(n.bounds, n.capacity, n.bodies);
  }

  // ---------------------------------------------------------------------
  // insert keeps the mass invariant.

  /** insert keeps every node's recorded mass equal to the mass stored below
      it. */
  lemma {:induction false} InsertWeighed(n: Node, body: Body, fuel: nat, r: Placed)
    requires Valid(n) && body.mass >= 0.0
    requires r == Insert(n, body, fuel)
    decreases fuel, 2, 0
    ensures Weighed(r.node)
  {
    if !Contains(n, body) {
    } else if |n.bodies| < n.capacity && !n.divided {
      SummaryOfPush(n.bodies, body);
      LeafWeighed(r.node, n, body);
    } else if fuel > 0 {
      if n.divided {
        DescendWeighed(n, body, fuel, r);
      } else {
        SubdivideWeighed(n);
        DescendWeighed(Subdivide(n), body, fuel, r);
      }
    }
  }

  /** A leaf after updateCenterOfMass recorded the body it just stored. */
  lemma LeafWeighed(r: Node, n: Node, body: Body)
    requires Weighed(n) && !n.divided && n.totalMass >= 0.0 && body.mass >= 0.0
    requires SummaryOf(n.bodies + [body]) == Grow(SummaryOf(n.bodies), body)
    requires r == UpdateCenterOfMass(n.(bodies := n.bodies + [body]), body)
    ensures Weighed(r)
  {
  }

  lemma {:induction false} DescendWeighed(m: Node, body: Body, fuel: nat, r: Placed)
    requires Valid(m) && m.divided && fuel > 0 && body.mass >= 0.0
    requires r == Descend(m, body, fuel)
    decreases fuel, 1, 0
    ensures Weighed(r.node)
  {
    var c := InsertIntoChildren(m.children, body, fuel - 1);
    InsertIntoChildrenWeighed(m.children, body, fuel - 1, c);
    DescendContent(m, body, fuel);
    DescendFacts(m, body, fuel, r);
    TopWeighed(r.node, m, body, r.ok);
  }

  /** A divided node with weighed children whose recorded mass grew by the
      body's exactly when what it stores did. */
  lemma TopWeighed(r: Node, m: Node, body: Body, ok: bool)
    requires m.totalMass == Content(m).mass
    requires r.divided && |r.children| == 4 && WeighedChildren(r.children)
    requires Content(r) == GrowIf(Content(m), body, ok)
    requires ok ==> r.totalMass == m.totalMass + body.mass
    requires !ok ==> r.totalMass == m.totalMass
    ensures Weighed(r)
  {
  }

  lemma {:induction false} InsertIntoChildrenWeighed(cs: seq<Node>, body: Body, fuel: nat, r: ChildrenPlaced)
    requires |cs| == 4 && body.mass >= 0.0
    requires forall i | 0 <= i < 4 :: Shaped(cs[i])
    requires WeighedChildren(cs)
    requires r == InsertIntoChildren(cs, body, fuel)
    decreases fuel, 3, 0
    ensures WeighedChildren(r.children)
  {
    var p0 := Insert(cs[0], body, fuel);
    InsertWeighed(cs[0], body, fuel, p0);
    if p0.ok {
      FourWeighed(r.children, p0.node, cs[1], cs[2], cs[3]);
      return;
    }
    var p1 := Insert(cs[1], body, fuel);
    InsertWeighed(cs[1], body, fuel, p1);
    if p1.ok {
      FourWeighed(r.children, p0.node, p1.node, cs[2], cs[3]);
      return;
    }
    var p2 := Insert(cs[2], body, fuel);
    InsertWeighed(cs[2], body, fuel, p2);
    if p2.ok {
      FourWeighed(r.children, p0.node, p1.node, p2.node, cs[3]);
      return;
    }
    var p3 := Insert(cs[3], body, fuel);
    InsertWeighed(cs[3], body, fuel, p3);
    FourWeighed(r.children, p0.node, p1.node, p2.node, p3.node);
  }

  lemma FourWeighed(cs: seq<Node>, a: Node, b: Node, c: Node, d: Node)
    requires cs == [a, b, c, d]
    requires Weighed(a) && Weighed(b) && Weighed(c) && Weighed(d)
    ensures WeighedChildren(cs)
  {
  }

  lemma {:induction false} DistributeWeighed(bounds: Rect, capacity: nat, bodies: seq<Body>)
    requires forall b | b in bodies :: b.mass >= 0.0
    decreases 0, 4, |bodies|
    ensures WeighedChildren(Distribute(bounds, capacity, bodies))
  {
    if bodies != [] {
      var init := bodies[..|bodies| - 1];
      assert forall b | b in init :: b in bodies;
      var before := Distribute(bounds, capacity, init);
      DistributeWeighed(bounds, capacity, init);
      assert bodies[|bodies| - 1] in bodies;
      var c := InsertIntoChildren(before, bodies[|bodies| - 1], 0);
      InsertIntoChildrenWeighed(before, bodies[|bodies| - 1], 0, c);
      assert Distribute(bounds, capacity, bodies) == c.children;
    }
  }

  lemma SubdivideWeighed(n: Node)
    requires Valid(n) && !n.divided
    decreases 0, 5, 0
    ensures Weighed(Subdivide(n))
  {
    var m := Subdivide(n);
    DistributeWeighed(n.bounds, n.capacity, n.bodies);
    assert m.children == Distribute(n.bounds, n.capacity, n.bodies);
    SubdivideContent(n);
    var nothing := Body(0, 0.0, 0.0, 0.0, 0.0);
    assert GrowIf(Content(n), nothing, false) == Content(n);
    TopWeighed(m, n, nothing, false);
  }

  /** What the children loop does to the node above it: its mass grows by the
      body's and its centre moves as updateCenterOfMass says exactly when a
      child took the body. */
  lemma DescendFacts(m: Node, body: Body, fuel: nat, r: Placed)
    requires Shaped(m) && m.divided && fuel > 0 && body.mass >= 0.0
    requires r == Descend(m, body, fuel)
    ensures r.ok ==> r.node.totalMass == m.totalMass + body.mass
    ensures r.ok ==> r.node.centerOfMass == MergedCenter(m.centerOfMass, m.totalMass, body)
    ensures !r.ok ==> r.node.totalMass == m.totalMass && r.node.centerOfMass == m.centerOfMass
  {
  }

  /** A summary inside `m` that may grow by `b` stays inside `m` plus `b`. */
  lemma GrowIfItems(s: Summary, b: Body, ok: bool, m: multiset<Body>)
    requires s.items <= m
    ensures GrowIf(s, b, ok).items <= m + multiset{b}
  {
  }

  /** The cases of insert that do not look below the node. */
  lemma InsertFacts(n: Node, body: Body, fuel: nat, r: Placed)
    requires Shaped(n) && body.mass >= 0.0
    requires r == Insert(n, body, fuel)
    ensures r.ok ==> Contains(n, body)
    ensures !Contains(n, body) ==> r == Placed(n, false)
    ensures Contains(n, body) && !n.divided && |n.bodies| < n.capacity ==>
      r.ok && !r.node.divided && r.node.bodies == n.bodies + [body]
    ensures r.ok ==> r.node.totalMass == n.totalMass + body.mass
    ensures r.ok ==> r.node.centerOfMass == MergedCenter(n.centerOfMass, n.totalMass, body)
    ensures !r.ok ==> r.node.totalMass == n.totalMass && r.node.centerOfMass == n.centerOfMass
  {
    if Contains(n, body) && !(|n.bodies| < n.capacity && !n.divided) && fuel > 0 {
      var m := if n.divided then n else Subdivide(n);
      DescendFacts(m, body, fuel, r);
    }
  }

  /**
   * insert, in one statement: it keeps the whole invariant and the node's
   * box; it stores exactly `body` more when it returns true and nothing
   * more when it returns false; it returns false, changing nothing, for a
   * body outside the box, and true for one inside a leaf with room; and the
   * node's mass and centre of mass follow updateCenterOfMass exactly when it
   * returns true.
   */
  lemma InsertSpec(n: Node, body: Body, fuel: nat, r: Placed)
    requires Valid(n) && body.mass >= 0.0
    requires r == Insert(n, body, fuel)
    ensures Valid(r.node) && SameShell(r.node, n)
    ensures Content(r.node) == GrowIf(Content(n), body, r.ok)
    ensures r.ok ==> Contains(n, body)
    ensures !Contains(n, body) ==> r == Placed(n, false)
    ensures Contains(n, body) && !n.divided && |n.bodies| < n.capacity ==>
      r.ok && !r.node.divided && r.node.bodies == n.bodies + [body]
    ensures r.ok ==> r.node.totalMass == n.totalMass + body.mass
    ensures r.ok ==> r.node.centerOfMass == MergedCenter(n.centerOfMass, n.totalMass, body)
    ensures !r.ok ==> r.node.totalMass == n.totalMass && r.node.centerOfMass == n.centerOfMass
  {
    InsertContent(n, body, fuel);
    InsertWeighed(n, body, fuel, r);
    InsertFacts(n, body, fuel, r);
  }

  // ---------------------------------------------------------------------
  // Properties of the tree.

  /** Every body stored below a node lies in the node's box. */
  lemma {:induction false} ContentInBounds(n: Node)
    requires Shaped(n)
    ensures forall b | b in Content(n).items :: Contains(n, b)
    decreases n
  {
    if n.divided {
      forall k | 0 <= k < 4
        ensures forall b | b in Content(n.children[k]).items :: Contains(n, b)
      {
        ContentInBounds(n.children[k]);
        forall b | b in Content(n.children[k]).items
          ensures Contains(n, b)
        {
          QuadrantsTile(n.bounds, b.x, b.y);
        }
      }
    }
  }

  // ---------------------------------------------------------------------
  // When insert succeeds.

  /** Two bodies take the same path down to depth `d` below the box `r`: they
      share the box of sides width / 2^d and height / 2^d there. */
  predicate SharedBox(r: Rect, a: Body, b: Body, d: nat)
  {
    BoxAt(r, a.x, a.y, d) == BoxAt(r, b.x, b.y, d)
  }

  /** Every divided node stores at least one body: insert subdivides a node
      only when it is full. */
  ghost predicate Packed(n: Node)
    decreases n
  {
    && (n.divided ==> Content(n).items != multiset{})
    && (n.divided && |n.children| == 4 ==> forall k | 0 <= k < 4 :: Packed(n.children[k]))
  }

  /** What the insert-success lemmas need of a node: the shape invariant,
      no empty divided node, and room for at least one body per leaf. */
  ghost predicate Ready(n: Node)
  {
    Shaped(n) && Packed(n) && n.capacity > 0
  }

  /** Of four quadrant children only the one ChildIndex names can take a body
      of the box, so the children loop is insert into that child. */
  lemma ChildrenLoop(cs: seq<Node>, bounds: Rect, body: Body, fuel: nat)
    requires |cs| == 4 && body.mass >= 0.0 && InRect(bounds, body.x, body.y)
    requires forall i | 0 <= i < 4 :: Shaped(cs[i]) && cs[i].bounds == Quadrant(bounds, i)
    ensures var k := ChildIndex(bounds, body.x, body.y);
      var p := Insert(cs[k], body, fuel);
      InsertIntoChildren(cs, body, fuel) == ChildrenPlaced(cs[k := p.node], p.ok)
  {
    var k := ChildIndex(bounds, body.x, body.y);
    QuadrantsTile(bounds, body.x, body.y);
    forall i | 0 <= i < 4 && i != k
      ensures Insert(cs[i], body, fuel) == Placed(cs[i], false)
    {
      assert !Contains(cs[i], body);
    }
    var p := Insert(cs[k], body, fuel);
    if k == 0 {
      assert cs[k := p.node] == [p.node, cs[1], cs[2], cs[3]];
    } else if k == 1 {
      assert cs[k := p.node] == [cs[0], p.node, cs[2], cs[3]];
    } else if k == 2 {
      assert cs[k := p.node] == [cs[0], cs[1], p.node, cs[3]];
    } else {
      assert cs[k := p.node] == [cs[0], cs[1], cs[2], p.node];
    }
  }

  /** The node insert descends into, `m`: the node itself when divided,
      else the node subdivided. It stores what the node stores. */
  lemma DescentTarget(n: Node, m: Node)
    ensures Ready(n) && (n.divided || |n.bodies| >= n.capacity) && m == (if n.divided then n else Subdivide(n)) ==>
      && Ready(m) && m.divided && m.capacity == n.capacity && m.bounds == n.bounds && Content(m) == Content(n)
  {
    if Ready(n) && !n.divided && |n.bodies| >= n.capacity && m == Subdivide(n) {
      SubdivideContent(n);
      DistributeContent(n.bounds, n.capacity, n.bodies);
      assert m.children == Distribute(n.bounds, n.capacity, n.bodies);
      assert n.bodies[0] in multiset(n.bodies);
    }
  }

  /** The children of a ready divided node are ready quadrants. */
  lemma ChildReady(m: Node, k: nat)
    ensures Ready(m) && m.divided && k < 4 ==>
      Ready(m.children[k]) && m.children[k].bounds == Quadrant(m.bounds, k)
  {
  }

  /** Below a divided node, insert is insert into the one child whose
      quadrant holds the body, one level less deep. */
  lemma DescendLoop(m: Node, body: Body, fuel: nat, k: nat)
    ensures Shaped(m) && m.divided && body.mass >= 0.0 && fuel > 0 && InRect(m.bounds, body.x, body.y)
            && k == ChildIndex(m.bounds, body.x, body.y) ==>
      var p := Insert(m.children[k], body, fuel - 1);
      && Descend(m, body, fuel).ok == p.ok
      && Descend(m, body, fuel).node.children == m.children[k := p.node]
  {
    if Shaped(m) && m.divided && body.mass >= 0.0 && fuel > 0 && InRect(m.bounds, body.x, body.y) {
      ChildrenLoop(m.children, m.bounds, body, fuel - 1);
    }
  }

  /** A body stored in the quadrant that holds `body`, sharing its box one
      level down, is stored in the node and shares its box there. */
  lemma OneLevelUp(m: Node, body: Body, b: Body, d: nat, child: Node)
    ensures && Shaped(m) && m.divided && InRect(m.bounds, body.x, body.y) && d > 0
            && child == m.children[ChildIndex(m.bounds, body.x, body.y)]
            && b in Content(child).items && SharedBox(child.bounds, b, body, d - 1)
        ==> b in Content(m).items && SharedBox(m.bounds, b, body, d)
  {
    if && Shaped(m) && m.divided && InRect(m.bounds, body.x, body.y) && d > 0
       && child == m.children[ChildIndex(m.bounds, body.x, body.y)]
       && b in Content(child).items && SharedBox(child.bounds, b, body, d - 1)
    {
      ContentInBounds(child);
      QuadrantsTile(m.bounds, b.x, b.y);
      assert BoxAt(m.bounds, b.x, b.y, d) == BoxAt(child.bounds, b.x, b.y, d - 1);
    }
  }

  /** insert keeps every divided node non-empty. */
  lemma {:induction false} InsertPacked(n: Node, body: Body, fuel: nat)
    decreases fuel
    ensures Ready(n) && body.mass >= 0.0 ==> Packed(Insert(n, body, fuel).node)
  {
    if Ready(n) && body.mass >= 0.0 && Contains(n, body) && !(|n.bodies| < n.capacity && !n.divided) && fuel > 0 {
      var child := PackedOneLevelDown(n, body, fuel);
      InsertPacked(child, body, fuel - 1);
    }
  }

  /** One level of a descending insert: the node stays packed when the
      child the body goes to does. */
  lemma PackedOneLevelDown(n: Node, body: Body, fuel: nat) returns (child: Node)
    ensures Ready(n) && body.mass >= 0.0 && Contains(n, body) && !(|n.bodies| < n.capacity && !n.divided) && fuel > 0 ==>
      && Ready(child)
      && (Packed(Insert(child, body, fuel - 1).node) ==> Packed(Insert(n, body, fuel).node))
  {
    child := n;
    if Ready(n) && body.mass >= 0.0 && Contains(n, body) && !(|n.bodies| < n.capacity && !n.divided) && fuel > 0 {
      var m := if n.divided then n else Subdivide(n);
      var k := ChildIndex(n.bounds, body.x, body.y);
      DescentTarget(n, m);
      ChildReady(m, k);
      DescendLoop(m, body, fuel, k);
      child := m.children[k];
      var p := Insert(child, body, fuel - 1);
      var r := Descend(m, body, fuel);
      assert Insert(n, body, fuel) == r;
      DescendContent(m, body, fuel);
      PackedAbove(m, k, p.node, r.node);
    }
  }

  /** A non-empty divided node whose children are those of a packed node,
      one of them replaced by a packed node, is packed. */
  lemma PackedAbove(m: Node, k: nat, child: Node, r: Node)
    ensures (&& Packed(m) && m.divided && |m.children| == 4 && k < 4 && Packed(child)
             && r.divided && r.children == m.children[k := child] && Content(r).items != multiset{})
        ==> Packed(r)
  {
    if Packed(m) && m.divided && |m.children| == 4 && k < 4 && r.children == m.children[k := child] {
      forall i | 0 <= i < 4 && i != k
        ensures r.children[i] == m.children[i]
      {
      }
    }
  }

  /** An insert of `body` into `n`, a node of the invariant whose box holds
      the body, that fails with `fuel` levels left. */
  ghost predicate FailsAt(n: Node, body: Body, fuel: nat)
  {
    Ready(n) && body.mass >= 0.0 && Contains(n, body) && !Insert(n, body, fuel).ok
  }

  /** `b` is stored at or below `n` and shares the box of `body` `d` levels down. */
  predicate Blocks(n: Node, b: Body, body: Body, d: nat)
  {
    b in Content(n).items && SharedBox(n.bounds, b, body, d)
  }

  /**
   * insert returns false for a body of the node's box only when the depth
   * bound ran out: some body already stored below the node takes the same
   * path as `body` down to depth `fuel`, that is, lies in the same box of
   * sides width / 2^fuel and height / 2^fuel.
   */
  lemma InsertFails(n: Node, body: Body, fuel: nat)
    ensures Ready(n) && body.mass >= 0.0 && Contains(n, body) && !Insert(n, body, fuel).ok ==>
      exists b | b in Content(n).items :: SharedBox(n.bounds, b, body, fuel)
  {
    var b := BlockingBody(n, body, fuel);
  }

  /** The body behind a failed insert, found by following the insert down. */
  lemma {:induction false} BlockingBody(n: Node, body: Body, fuel: nat) returns (b: Body)
    decreases fuel
    ensures FailsAt(n, body, fuel) ==> Blocks(n, b, body, fuel)
  {
    if fuel == 0 {
      b := BlockingAtDepthZero(n, body);
    } else {
      var child := InsertOneLevelDown(n, body, fuel);
      b := BlockingBody(child, body, fuel - 1);
    }
  }

  /** With no depth left, insert fails only at a full leaf or a divided
      node, and both store a body. */
  lemma BlockingAtDepthZero(n: Node, body: Body) returns (b: Body)
    ensures FailsAt(n, body, 0) ==> Blocks(n, b, body, 0)
  {
    b := body;
    if Ready(n) && body.mass >= 0.0 && Contains(n, body) && !Insert(n, body, 0).ok {
      if n.divided {
        b :| b in Content(n).items;
      } else {
        b := n.bodies[0];
        assert b in multiset(n.bodies);
      }
    }
  }

  /** One level of a failing insert: the node it descends into stores what
      the node stores, and insert into the child whose quadrant holds the
      body fails too. */
  lemma InsertOneLevelDown(n: Node, body: Body, fuel: nat) returns (child: Node)
    requires fuel > 0
    ensures FailsAt(n, body, fuel) ==>
      && FailsAt(child, body, fuel - 1)
      && forall b | Blocks(child, b, body, fuel - 1) :: Blocks(n, b, body, fuel)
  {
    child := n;
    if FailsAt(n, body, fuel) {
      var m := if n.divided then n else Subdivide(n);
      var k := ChildIndex(n.bounds, body.x, body.y);
      DescentTarget(n, m);
      ChildReady(m, k);
      DescendLoop(m, body, fuel, k);
      assert Insert(n, body, fuel) == Descend(m, body, fuel);
      QuadrantsTile(n.bounds, body.x, body.y);
      child := m.children[k];
      forall b | Blocks(child, b, body, fuel - 1)
        ensures Blocks(n, b, body, fuel)
      {
        OneLevelUp(m, body, b, fuel, child);
      }
    }
  }

  // ---------------------------------------------------------------------
  // calculateForce.

  /** The distance from `body` to a node's centre of mass. */
  function Distance(n: Node, body: Body, sqrt: real -> real): real
  {
    Hypot(n.centerOfMass.x - body.x, n.centerOfMass.y - body.y, sqrt)
  }

  /** The node's mass concentrated at its centre of mass, with radius 0; its
      id is never compared. */
  function PseudoBody(n: Node): Body
  {
    Body(0, n.centerOfMass.x, n.centerOfMass.y, n.totalMass, 0.0)
  }

  /** The force calculateForce adds for `body`: the leaf loop, else the
      centre-of-mass approximation for a far node, else the children in order. */
  function ForceOn(n: Node, body: Body, sqrt: real -> real): Vec
    requires PositiveOnPositives(sqrt)
    decreases n, 1, 0
  {
    if !n.divided && |n.bodies| > 0 then LeafForce(body, n.bodies, sqrt)
    else if n.totalMass > 0.0 && FarEnough(Max(n.bounds.width, n.bounds.height), Distance(n, body, sqrt)) then
      PairForce(body, PseudoBody(n), sqrt)
    else if n.divided then ChildForces(n, body, sqrt, |n.children|)
    else Zero
  }

  /** The forces of a node's first `k` children, added in order. */
  function ChildForces(n: Node, body: Body, sqrt: real -> real, k: nat): Vec
    requires PositiveOnPositives(sqrt) && k <= |n.children|
    decreases n, 0, k
  {
    if k == 0 then Zero
    else Add(ChildForces(n, body, sqrt, k - 1), ForceOn(n.children[k - 1], body, sqrt))
  }

  /** The leaf loop of calculateForce: every other body of the leaf applies
      its pull to `acc`, in order. */
  method LeafLoop(body: Body, others: seq<Body>, acc: ForceAccumulator, sqrt: real -> real)
    requires PositiveOnPositives(sqrt)
    modifies acc
    ensures acc.Value() == Add(old(acc.Value()), LeafForce(body, others, sqrt))
  {
    var i := 0;
    while i < |others|
      invariant 0 <= i <= |others|
      invariant acc.Value() == Add(old(acc.Value()), LeafForce(body, others[..i], sqrt))
    {
      var other := others[i];
      assert others[..i + 1][..i] == others[..i];
      if other.id != body.id {
        ApplyForce(body, other, acc, sqrt);
      }
      i := i + 1;
    }
    assert others[..i] == others;
  }

  /** calculateForce: adds the force of the subtree `n` on `body` into `acc`. */
  method CalculateForce(n: Node, body: Body, acc: ForceAccumulator, sqrt: real -> real)
    requires PositiveOnPositives(sqrt)
    modifies acc
    decreases n, 1
    ensures acc.Value() == Add(old(acc.Value()), ForceOn(n, body, sqrt))
  {
    if !n.divided && |n.bodies| > 0 {
      LeafLoop(body, n.bodies, acc, sqrt);
      return;
    }
    if n.totalMass > 0.0 {
      var distance := Distance(n, body, sqrt);
      var nodeSize := Max(n.bounds.width, n.bounds.height);
      if FarEnough(nodeSize, distance) {
        var pseudoBody := PseudoBody(n);
        ApplyForce(body, pseudoBody, acc, sqrt);
        return;
      }
    }
    if n.divided {
      ChildLoop(n, body, acc, sqrt);
    }
  }

  /** The loop of calculateForce over a divided node's children. */
  method ChildLoop(n: Node, body: Body, acc: ForceAccumulator, sqrt: real -> real)
    requires PositiveOnPositives(sqrt)
    modifies acc
    decreases n, 0
    ensures acc.Value() == Add(old(acc.Value()), ChildForces(n, body, sqrt, |n.children|))
  {
    var k := 0;
    while k < |n.children|
      invariant 0 <= k <= |n.children|
      invariant acc.Value() == Add(old(acc.Value()), ChildForces(n, body, sqrt, k))
    {
      CalculateForce(n.children[k], body, acc, sqrt);
      assert ChildForces(n, body, sqrt, k + 1) == Add(ChildForces(n, body, sqrt, k), ForceOn(n.children[k], body, sqrt));
      k := k + 1;
    }
  }

  /** A tree holding a single body exerts nothing on that body. */
  lemma LoneBodyTree(n: Node, body: Body, sqrt: real -> real)
    requires PositiveOnPositives(sqrt)
    requires !n.divided && n.bodies == [body]
    ensures ForceOn(n, body, sqrt) == Zero
  {
    LoneBodyFeelsNothing(body, sqrt);
  }

  // ---------------------------------------------------------------------
  // calculateBarnesHutForces.

  /** The smallest and largest coordinates seen so far. */
  datatype Extent = Extent(minX: real, minY: real, maxX: real, maxY: real)

  /** The extent after looking at one more body. */
  function Widen(e: Extent, b: Body): Extent
  {
    Extent(Min(e.minX, b.x), Min(e.minY, b.y), Max(e.maxX, b.x), Max(e.maxY, b.y))
  }

  /** The extent of the first `k` bodies, starting from the first body's point. */
  function ExtentOf(bodies: seq<Body>, k: nat): Extent
    requires 0 < |bodies| && k <= |bodies|
  {
    if k == 0 then Extent(bodies[0].x, bodies[0].y, bodies[0].x, bodies[0].y)
    else Widen(ExtentOf(bodies, k - 1), bodies[k - 1])
  }

  /** The box calculateBarnesHutForces builds its tree over. */
  function BoundsOf(bodies: seq<Body>): Rect
    requires bodies != []
  {
    var e := ExtentOf(bodies, |bodies|);
    Rect(e.minX - PADDING, e.minY - PADDING, e.maxX - e.minX + 2.0 * PADDING, e.maxY - e.minY + 2.0 * PADDING)
  }

  /** The bounding box of all bodies, padded by PADDING on every side. */
  method PaddedBounds(bodies: seq<Body>) returns (r: Rect)
    requires bodies != []
    ensures r == BoundsOf(bodies)
    ensures forall b | b in bodies :: InRect(r, b.x, b.y)
    ensures forall b | b in bodies ::
              r.x + PADDING <= b.x <= r.x + r.width - PADDING &&
              r.y + PADDING <= b.y <= r.y + r.height - PADDING
    ensures exists b | b in bodies :: r.x == b.x - PADDING
    ensures exists b | b in bodies :: r.y == b.y - PADDING
    ensures exists b | b in bodies :: r.x + r.width == b.x + PADDING
    ensures exists b | b in bodies :: r.y + r.height == b.y + PADDING
  {
    var minX, minY := bodies[0].x, bodies[0].y;
    var maxX, maxY := bodies[0].x, bodies[0].y;
    var i := 0;
    while i < |bodies|
      invariant 0 <= i <= |bodies|
      invariant forall j | 0 <= j < i :: minX <= bodies[j].x <= maxX && minY <= bodies[j].y <= maxY
      invariant exists j | 0 <= j < |bodies| :: minX == bodies[j].x
      invariant exists j | 0 <= j < |bodies| :: minY == bodies[j].y
      invariant exists j | 0 <= j < |bodies| :: maxX == bodies[j].x
      invariant exists j | 0 <= j < |bodies| :: maxY == bodies[j].y
      invariant minX <= bodies[0].x <= maxX && minY <= bodies[0].y <= maxY
      invariant Extent(minX, minY, maxX, maxY) == ExtentOf(bodies, i)
    {
      var b := bodies[i];
      minX := Min(minX, b.x);
      minY := Min(minY, b.y);
      maxX := Max(maxX, b.x);
      maxY := Max(maxY, b.y);
      i := i + 1;
    }
    r := Rect(minX - PADDING, minY - PADDING, maxX - minX + 2.0 * PADDING, maxY - minY + 2.0 * PADDING);
    forall b | b in bodies
      ensures InRect(r, b.x, b.y)
    {
      var j :| 0 <= j < |bodies| && bodies[j] == b;
    }
  }

  /** What the insertion loop keeps: a valid tree of capacity 1 over
      `bounds` that stores only bodies of `done`. */
  ghost predicate Built(tree: Node, bounds: Rect, done: seq<Body>)
  {
    Valid(tree) && tree.capacity == 1 && tree.bounds == bounds && Content(tree).items <= multiset(done)
  }

  /** While at most one body has been inserted, the root is a leaf holding exactly those. */
  predicate Leafy(tree: Node, done: seq<Body>)
  {
    |done| <= 1 ==> !tree.divided && tree.bodies == done
  }

  /**
   * Each insertion keeps the insertion loop's invariant: the tree of the
   * first `k` bodies is a valid tree of capacity 1 over `bounds` storing only
   * bodies among them, and while at most one body has been inserted the root
   * is a leaf holding exactly those.
   */
  lemma {:induction false} TreeOfBuilt(bodies: seq<Body>, bounds: Rect, maxDepth: nat, k: nat)
    requires k <= |bodies| && forall b | b in bodies :: b.mass >= 0.0 && InRect(bounds, b.x, b.y)
    ensures Built(TreeOf(bodies, bounds, maxDepth, k), bounds, bodies[..k])
    ensures Leafy(TreeOf(bodies, bounds, maxDepth, k), bodies[..k])
  {
    if k == 0 {
      EmptySummary();
    } else {
      TreeOfBuilt(bodies, bounds, maxDepth, k - 1);
      assert bodies[k - 1] in bodies;
      PrefixStep(bodies, k);
      BuiltStep(TreeOf(bodies, bounds, maxDepth, k - 1), TreeOf(bodies, bounds, maxDepth, k),
                bounds, bodies[..k - 1], bodies[..k], bodies[k - 1], maxDepth);
    }
  }

  /** One insertion keeps Built and Leafy, with the body added to those done. */
  lemma BuiltStep(t: Node, next: Node, bounds: Rect, done: seq<Body>, now: seq<Body>, b: Body, maxDepth: nat)
    requires Built(t, bounds, done) && Leafy(t, done)
    requires b.mass >= 0.0 && InRect(bounds, b.x, b.y)
    requires next == Insert(t, b, maxDepth).node && now == done + [b]
    ensures Built(next, bounds, now) && Leafy(next, now)
  {
    var r := Insert(t, b, maxDepth);
    InsertSpec(t, b, maxDepth, r);
    GrowIfItems(Content(t), b, r.ok, multiset(done));
  }

  /** The tree after inserting the first `k` bodies, in order, into an empty
      root of capacity 1 over `bounds`. */
  function TreeOf(bodies: seq<Body>, bounds: Rect, maxDepth: nat, k: nat): (t: Node)
    requires k <= |bodies| && forall b | b in bodies :: b.mass >= 0.0
    ensures Shaped(t) && t.bounds == bounds && t.capacity == 1
  {
    if k == 0 then NewNode(bounds, 1)
    else Insert(TreeOf(bodies, bounds, maxDepth, k - 1), bodies[k - 1], maxDepth).node
  }

  /** No two bodies share a box `depth` levels below `bounds`. */
  predicate Separated(bodies: seq<Body>, bounds: Rect, depth: nat)
  {
    forall i, j {:trigger SharedBox(bounds, bodies[i], bodies[j], depth)} | 0 <= i < j < |bodies| ::
      !SharedBox(bounds, bodies[i], bodies[j], depth)
  }

  /** Bodies of non-negative mass inside `bounds`, no two sharing a box
      `depth` levels down. */
  ghost predicate Spread(bodies: seq<Body>, bounds: Rect, depth: nat)
  {
    (forall b | b in bodies :: b.mass >= 0.0 && InRect(bounds, b.x, b.y)) && Separated(bodies, bounds, depth)
  }

  /** Every divided node of a tree built by the insertion loop stores some body. */
  lemma {:induction false} TreeOfPacked(bodies: seq<Body>, bounds: Rect, maxDepth: nat, k: nat)
    requires k <= |bodies| && forall b | b in bodies :: b.mass >= 0.0
    ensures Packed(TreeOf(bodies, bounds, maxDepth, k))
  {
    if k > 0 {
      TreeOfPacked(bodies, bounds, maxDepth, k - 1);
      assert bodies[k - 1] in bodies;
      InsertPacked(TreeOf(bodies, bounds, maxDepth, k - 1), bodies[k - 1], maxDepth);
    }
  }

  /**
   * When no two bodies share a box at the depth bound, every insertion
   * succeeds: the tree of the first `k` bodies stores exactly those.
   */
  lemma TreeOfStoresAll(bodies: seq<Body>, bounds: Rect, maxDepth: nat, k: nat)
    requires k <= |bodies| && Spread(bodies, bounds, maxDepth)
    ensures Content(TreeOf(bodies, bounds, maxDepth, k)).items == multiset(bodies[..k])
  {
    EmptySummary();
    var i := 0;
    while i < k
      invariant i <= k
      invariant Content(TreeOf(bodies, bounds, maxDepth, i)).items == multiset(bodies[..i])
    {
      i := i + 1;
      TreeOfStoresNext(bodies, bounds, maxDepth, i);
    }
  }

  /** The step of TreeOfStoresAll: from the tree of the first `k - 1` bodies
      to the tree of the first `k`. */
  lemma TreeOfStoresNext(bodies: seq<Body>, bounds: Rect, maxDepth: nat, k: nat)
    requires 0 < k <= |bodies| && Spread(bodies, bounds, maxDepth)
    requires Content(TreeOf(bodies, bounds, maxDepth, k - 1)).items == multiset(bodies[..k - 1])
    ensures Content(TreeOf(bodies, bounds, maxDepth, k)).items == multiset(bodies[..k])
  {
    assert bodies[k - 1] in bodies;
    TreeOfPacked(bodies, bounds, maxDepth, k - 1);
    InsertStores(TreeOf(bodies, bounds, maxDepth, k - 1), TreeOf(bodies, bounds, maxDepth, k),
                 bodies, k, maxDepth);
  }

  /** Inserting the `k`-th body into a packed tree storing the bodies before
      it stores it too, when no two bodies share a box at the depth bound. */
  lemma InsertStores(t: Node, next: Node, bodies: seq<Body>, k: nat, maxDepth: nat)
    ensures
      (&& 0 < k <= |bodies| && Separated(bodies, t.bounds, maxDepth)
       && Shaped(t) && Packed(t) && t.capacity > 0 && Content(t).items == multiset(bodies[..k - 1])
       && bodies[k - 1].mass >= 0.0 && Contains(t, bodies[k - 1])
       && next == Insert(t, bodies[k - 1], maxDepth).node)
      ==> Content(next).items == multiset(bodies[..k]) && Packed(next)
  {
    if && 0 < k <= |bodies| && Separated(bodies, t.bounds, maxDepth)
       && Shaped(t) && Packed(t) && t.capacity > 0 && Content(t).items == multiset(bodies[..k - 1])
       && bodies[k - 1].mass >= 0.0 && Contains(t, bodies[k - 1])
       && next == Insert(t, bodies[k - 1], maxDepth).node
    {
      var body := bodies[k - 1];
      PrefixStep(bodies, k);
      InsertPacked(t, body, maxDepth);
      InsertContent(t, body, maxDepth);
      var b := BlockingBody(t, body, maxDepth);
      SeparatedFromEarlier(bodies, t.bounds, maxDepth, k, b);
      if !Insert(t, body, maxDepth).ok {
        assert false;
      }
    }
  }

  /** With the bodies separated, no body before the `k`-th shares its box. */
  lemma SeparatedFromEarlier(bodies: seq<Body>, bounds: Rect, depth: nat, k: nat, b: Body)
    ensures 0 < k <= |bodies| && Separated(bodies, bounds, depth) && b in multiset(bodies[..k - 1]) ==>
      !SharedBox(bounds, b, bodies[k - 1], depth)
  {
    if 0 < k <= |bodies| && Separated(bodies, bounds, depth) && b in multiset(bodies[..k - 1]) {
      var i :| 0 <= i < k - 1 && bodies[i] == b;
      assert !SharedBox(bounds, bodies[i], bodies[k - 1], depth);
    }
  }

  /**
   * What calculateBarnesHutForces returns, as a function of the bodies: the
   * force the tree of all bodies, over their padded box, exerts on each.
   */
  function BarnesHutForces(bodies: seq<Body>, maxDepth: nat, sqrt: real -> real): (r: seq<Vec>)
    requires PositiveOnPositives(sqrt) && forall b | b in bodies :: b.mass >= 0.0
    ensures |r| == |bodies|
  {
    if bodies == [] then []
    else
      var tree := TreeOf(bodies, BoundsOf(bodies), maxDepth, |bodies|);
      seq(|bodies|, i requires 0 <= i < |bodies| => ForceOn(tree, bodies[i], sqrt))
  }

  /** The force loop of calculateBarnesHutForces: a fresh accumulator per
      body, filled by calculateForce on the whole tree. */
  method ForcesFrom(tree: Node, bodies: seq<Body>, sqrt: real -> real) returns (forces: seq<Vec>)
    requires PositiveOnPositives(sqrt)
    ensures |forces| == |bodies|
    ensures forall j | 0 <= j < |bodies| :: forces[j] == ForceOn(tree, bodies[j], sqrt)
  {
    forces := [];
    var k := 0;
    while k < |bodies|
      invariant 0 <= k <= |bodies|
      invariant |forces| == k
      invariant forall j | 0 <= j < k :: forces[j] == ForceOn(tree, bodies[j], sqrt)
    {
      var forceAccumulator := new ForceAccumulator();
      CalculateForce(tree, bodies[k], forceAccumulator, sqrt);
      forces := forces + [forceAccumulator.Value()];
      k := k + 1;
    }
  }

  /** Forces taken one by one from the tree of all bodies are the forces of
      BarnesHutForces. */
  lemma ForcesOfTree(bodies: seq<Body>, maxDepth: nat, sqrt: real -> real, tree: Node, forces: seq<Vec>)
    requires PositiveOnPositives(sqrt) && forall b | b in bodies :: b.mass >= 0.0
    requires bodies != [] && tree == TreeOf(bodies, BoundsOf(bodies), maxDepth, |bodies|)
    requires |forces| == |bodies| && forall j | 0 <= j < |bodies| :: forces[j] == ForceOn(tree, bodies[j], sqrt)
    ensures forces == BarnesHutForces(bodies, maxDepth, sqrt)
  {
  }

  /**
   * The insertion loop of calculateBarnesHutForces: a fresh root of capacity
   * 1 over `bounds`, and every body inserted in turn. Each insertion keeps
   * the invariant, so the tree stores only bodies of the list; the first
   * body always lands in the root leaf, and when no two bodies share a box
   * at the depth bound the tree stores all of them.
   */
  method BuildTree(bodies: seq<Body>, bounds: Rect, maxDepth: nat) returns (tree: Node)
    requires forall b | b in bodies :: b.mass >= 0.0 && InRect(bounds, b.x, b.y)
    ensures tree == TreeOf(bodies, bounds, maxDepth, |bodies|)
    ensures Built(tree, bounds, bodies)
    ensures |bodies| == 1 ==> !tree.divided && tree.bodies == bodies
    ensures Separated(bodies, bounds, maxDepth) ==> Content(tree).items == multiset(bodies)
  {
    tree := NewNode(bounds, 1);
    var i := 0;
    while i < |bodies|
      invariant 0 <= i <= |bodies|
      invariant tree == TreeOf(bodies, bounds, maxDepth, i)
    {
      assert bodies[i] in bodies;
      var placed := Insert(tree, bodies[i], maxDepth);
      tree := placed.node;
      i := i + 1;
    }
    TreeOfBuilt(bodies, bounds, maxDepth, i);
    assert bodies[..i] == bodies;
    if Separated(bodies, bounds, maxDepth) {
      TreeOfStoresAll(bodies, bounds, maxDepth, i);
    }
  }

  /** calculateBarnesHutForces: the padded box, the tree of all bodies over
      it, and the force of that tree on every body, in order. */
  method CalculateBarnesHutForces(bodies: seq<Body>, maxDepth: nat, sqrt: real -> real)
    returns (forces: seq<Vec>)
    requires PositiveOnPositives(sqrt)
    requires forall b | b in bodies :: b.mass >= 0.0
    ensures forces == BarnesHutForces(bodies, maxDepth, sqrt)
  {
    if |bodies| == 0 {
      return [];
    }
    var bounds := PaddedBounds(bodies);
    var quadTree := BuildTree(bodies, bounds, maxDepth);
    forces := ForcesFrom(quadTree, bodies, sqrt);
    ForcesOfTree(bodies, maxDepth, sqrt, quadTree, forces);
  }

  /** The extent of the first `k` bodies covers each of them. */
  lemma {:induction false} ExtentCovers(bodies: seq<Body>, k: nat)
    requires 0 < |bodies| && k <= |bodies|
    ensures var e := ExtentOf(bodies, k);
      && e.minX <= bodies[0].x <= e.maxX && e.minY <= bodies[0].y <= e.maxY
      && forall j | 0 <= j < k :: e.minX <= bodies[j].x <= e.maxX && e.minY <= bodies[j].y <= e.maxY
  {
    if k > 0 {
      ExtentCovers(bodies, k - 1);
    }
  }

  /** Every body lies inside the padded box, PADDING away from its edges. */
  lemma BoundsCover(bodies: seq<Body>)
    requires bodies != []
    ensures var r := BoundsOf(bodies);
      forall b | b in bodies ::
        && r.x + PADDING <= b.x <= r.x + r.width - PADDING
        && r.y + PADDING <= b.y <= r.y + r.height - PADDING
        && InRect(r, b.x, b.y)
  {
    ExtentCovers(bodies, |bodies|);
    var r := BoundsOf(bodies);
    forall b | b in bodies
      ensures InRect(r, b.x, b.y)
    {
      var j :| 0 <= j < |bodies| && bodies[j] == b;
    }
  }

  /**
   * The tree calculateBarnesHutForces builds is a valid tree of capacity 1,
   * every body lies in its box, it stores only bodies of the list (a body
   * whose insertion ran out of depth is missing), and each force is that
   * tree's force on the body.
   */
  lemma BarnesHutTree(bodies: seq<Body>, maxDepth: nat, sqrt: real -> real)
    requires PositiveOnPositives(sqrt) && forall b | b in bodies :: b.mass >= 0.0
    requires bodies != []
    ensures var tree := TreeOf(bodies, BoundsOf(bodies), maxDepth, |bodies|);
      && Valid(tree) && tree.capacity == 1
      && (forall b | b in bodies :: Contains(tree, b))
      && Content(tree).items <= multiset(bodies)
      && forall i | 0 <= i < |bodies| :: BarnesHutForces(bodies, maxDepth, sqrt)[i] == ForceOn(tree, bodies[i], sqrt)
  {
    BoundsCover(bodies);
    TreeOfBuilt(bodies, BoundsOf(bodies), maxDepth, |bodies|);
    assert bodies[..|bodies|] == bodies;
  }

  /**
   * When no two bodies share a box maxDepth levels below the padded box,
   * the tree calculateBarnesHutForces builds stores every body, each as
   * often as it occurs in the list.
   */
  lemma BarnesHutStoresAll(bodies: seq<Body>, maxDepth: nat)
    requires bodies != [] && forall b | b in bodies :: b.mass >= 0.0
    requires Separated(bodies, BoundsOf(bodies), maxDepth)
    ensures Content(TreeOf(bodies, BoundsOf(bodies), maxDepth, |bodies|)).items == multiset(bodies)
  {
    BoundsCover(bodies);
    TreeOfStoresAll(bodies, BoundsOf(bodies), maxDepth, |bodies|);
    assert bodies[..|bodies|] == bodies;
  }

  /** No bodies, no forces; a lone body feels nothing. */
  lemma BarnesHutFewBodies(bodies: seq<Body>, maxDepth: nat, sqrt: real -> real)
    requires PositiveOnPositives(sqrt) && forall b | b in bodies :: b.mass >= 0.0
    ensures bodies == [] ==> BarnesHutForces(bodies, maxDepth, sqrt) == []
    ensures |bodies| == 1 ==> BarnesHutForces(bodies, maxDepth, sqrt) == [Zero]
  {
    if |bodies| == 1 {
      BoundsCover(bodies);
      TreeOfBuilt(bodies, BoundsOf(bodies), maxDepth, 1);
      assert bodies[..1] == bodies;
      LoneBodyTree(TreeOf(bodies, BoundsOf(bodies), maxDepth, 1), bodies[0], sqrt);
    }
  }
}
