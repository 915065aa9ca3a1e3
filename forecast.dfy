/**
 * The collision forecast (main.js, detectPlanetCollisions): the predicted
 * planet paths are compared sample by sample, and the first time two planets
 * that are not yet part of a predicted collision come within the sum of
 * their radii plus a small buffer, both are recorded as colliding there.
 */
module Forecast {
  import opened Numerics
  import opened Bodies

  /** Slack added to the two radii before two planets count as touching. */
  const COLLISION_BUFFER: real := 10.0

  /** A predicted collision: the two planets (planetA < planetB), the step
      it happens at, the midpoint between them, their distance and the
      simulated time until it happens. */
  datatype Collision = Collision(planetA: nat, planetB: nat, step: nat, x: real, y: real,
                                 distance: real, time: real)

  /** The distance between two predicted positions. */
  function Distance(a: Vec, b: Vec, sqrt: real -> real): real
  {
    sqrt(SquaredLength(a.x - b.x, a.y - b.y))
  }

  /** Planets i and j both have a sample t, and at that sample they are no
      further apart than their radii plus the buffer. */
  predicate Close(paths: seq<seq<Vec>>, planets: seq<Orb>, i: nat, j: nat, t: nat, sqrt: real -> real)
  {
    && i < |paths| && j < |paths| && i < |planets| && j < |planets|
    && t < |paths[i]| && t < |paths[j]|
    && Distance(paths[i][t], paths[j][t], sqrt) <= planets[i].radius + planets[j].radius + COLLISION_BUFFER
  }

  /** The length of the shortest path (Math.min over the lengths). */
  function MinLength(paths: seq<seq<Vec>>): (r: nat)
    requires paths != []
    ensures forall k | 0 <= k < |paths| :: r <= |paths[k]|
    ensures exists k | 0 <= k < |paths| :: r == |paths[k]|
  {
    if |paths| == 1 then |paths[0]|
    else
      var n := |paths| - 1;
      var rest := MinLength(paths[..n]);
      assert forall k | 0 <= k < n :: paths[..n][k] == paths[k];
      if |paths[n]| < rest then |paths[n]| else rest
  }

  /** Path samples are taken on every other step: sample t is recorded in
      step 2t, the record's own step number, and the time to a collision
      there is that step number times the step length. */
  function CollisionTime(t: nat, timeStep: real): (r: real)
    ensures r == (2 * t) as real * timeStep
  {
    2.0 * (t as real * timeStep)
  }

  /** The time as the source computes it: the sample number times the step. */
  function CollisionTimeAsWritten(t: nat, timeStep: real): real
  {
    t as real * timeStep
  }

  /** The record made for planets i and j meeting at sample t. */
  function Report(paths: seq<seq<Vec>>, i: nat, j: nat, t: nat, timeStep: real, sqrt: real -> real): (c: Collision)
    requires i < |paths| && j < |paths| && t < |paths[i]| && t < |paths[j]|
    ensures c.planetA == i && c.planetB == j && c.step == 2 * t
    ensures c.time == c.step as real * timeStep
    ensures c.x - paths[i][t].x == paths[j][t].x - c.x && c.y - paths[i][t].y == paths[j][t].y - c.y
  {
    var a := paths[i][t];
    var b := paths[j][t];
    Collision(i, j, t * 2, (a.x + b.x) / 2.0, (a.y + b.y) / 2.0, Distance(a, b, sqrt), CollisionTime(t, timeStep))
  }

  /** The record as the source builds it, with CollisionTimeAsWritten. */
  function ReportAsWritten(paths: seq<seq<Vec>>, i: nat, j: nat, t: nat, timeStep: real, sqrt: real -> real)
    : (c: Collision)
    requires i < |paths| && j < |paths| && t < |paths[i]| && t < |paths[j]|
    ensures c == Report(paths, i, j, t, timeStep, sqrt).(time := CollisionTimeAsWritten(t, timeStep))
  {
    var a := paths[i][t];
    var b := paths[j][t];
    Collision(i, j, t * 2, (a.x + b.x) / 2.0, (a.y + b.y) / 2.0, Distance(a, b, sqrt),
              CollisionTimeAsWritten(t, timeStep))
  }

  /** As written, the reported time is half the time of the reported step,
      so it is wrong for every collision after the first sample. */
  lemma AsWrittenTimeIsHalf(paths: seq<seq<Vec>>, i: nat, j: nat, t: nat, timeStep: real, sqrt: real -> real)
    requires i < |paths| && j < |paths| && t < |paths[i]| && t < |paths[j]|
    ensures var c := ReportAsWritten(paths, i, j, t, timeStep, sqrt);
      2.0 * c.time == c.step as real * timeStep
    ensures t > 0 && timeStep != 0.0 ==>
      ReportAsWritten(paths, i, j, t, timeStep, sqrt).time != ReportAsWritten(paths, i, j, t, timeStep, sqrt).step as real * timeStep
  {
    var c := ReportAsWritten(paths, i, j, t, timeStep, sqrt);
    assert c.step as real == 2.0 * (t as real);
    if t > 0 && timeStep != 0.0 {
      assert t as real * timeStep != 0.0;
    }
  }

  /** A record describes a genuine meeting: two planets in order, a sample
      every path has, the two planets close there, and the record's fields
      those the code builds (ReportAsWritten). */
  predicate Genuine(c: Collision, paths: seq<seq<Vec>>, planets: seq<Orb>, timeStep: real, sqrt: real -> real)
  {
    && c.planetA < c.planetB < |paths|
    && c.step % 2 == 0 && c.step / 2 < MinLength(paths)
    && Close(paths, planets, c.planetA, c.planetB, c.step / 2, sqrt)
    && c == ReportAsWritten(paths, c.planetA, c.planetB, c.step / 2, timeStep, sqrt)
  }

  /** Every record is genuine. */
  predicate Sound(cs: seq<Collision>, paths: seq<seq<Vec>>, planets: seq<Orb>, timeStep: real, sqrt: real -> real)
  {
    forall a | 0 <= a < |cs| :: Genuine(cs[a], paths, planets, timeStep, sqrt)
  }

  /** No planet takes part in two records. */
  predicate Apart(cs: seq<Collision>)
  {
    forall a, b | 0 <= a < b < |cs| ::
      && cs[a].planetA != cs[b].planetA && cs[a].planetA != cs[b].planetB
      && cs[a].planetB != cs[b].planetA && cs[a].planetB != cs[b].planetB
  }

  /** Records come in the order of their steps. */
  predicate Ordered(cs: seq<Collision>)
  {
    forall a, b | 0 <= a < b < |cs| :: cs[a].step <= cs[b].step
  }

  /** No record is later than step `limit`. */
  predicate UpTo(cs: seq<Collision>, limit: nat)
  {
    forall a | 0 <= a < |cs| :: cs[a].step <= limit
  }

  /** The planets of the records at step `limit` or earlier. */
  function InvolvedBy(cs: seq<Collision>, limit: nat): set<nat>
  {
    if cs == [] then {}
    else
      var n := |cs| - 1;
      InvolvedBy(cs[..n], limit) + (if cs[n].step <= limit then {cs[n].planetA, cs[n].planetB} else {})
  }

  /** Every close pair at a sample before `s` had one of its planets
      already in a collision by then. */
  predicate Covered(cs: seq<Collision>, paths: seq<seq<Vec>>, planets: seq<Orb>, s: nat, sqrt: real -> real)
  {
    forall t: nat, i: nat, j: nat | t < s && i < j < |paths| ::
      Close(paths, planets, i, j, t, sqrt) ==> i in InvolvedBy(cs, 2 * t) || j in InvolvedBy(cs, 2 * t)
  }

  /** A record's planets are among those involved by its step. */
  lemma {:induction false} InvolvedByHas(cs: seq<Collision>, limit: nat, a: nat)
    requires a < |cs| && cs[a].step <= limit
    ensures cs[a].planetA in InvolvedBy(cs, limit) && cs[a].planetB in InvolvedBy(cs, limit)
  {
    var n := |cs| - 1;
    if a < n {
      InvolvedByHas(cs[..n], limit, a);
    }
  }

  /** Only records' planets are involved. */
  lemma {:induction false} InvolvedByOnly(cs: seq<Collision>, limit: nat, p: nat)
    requires p in InvolvedBy(cs, limit)
    ensures exists a | 0 <= a < |cs| :: cs[a].step <= limit && (cs[a].planetA == p || cs[a].planetB == p)
  {
    var n := |cs| - 1;
    if p !in InvolvedBy(cs[..n], limit) {
      assert cs[n].step <= limit && (cs[n].planetA == p || cs[n].planetB == p);
    } else {
      InvolvedByOnly(cs[..n], limit, p);
      var a :| 0 <= a < n && cs[..n][a].step <= limit && (cs[..n][a].planetA == p || cs[..n][a].planetB == p);
      assert cs[a] == cs[..n][a];
    }
  }

  /** A longer list of records involves at least the same planets. */
  lemma {:induction false} InvolvedByGrows(cs: seq<Collision>, more: seq<Collision>, limit: nat)
    requires |cs| <= |more| && more[..|cs|] == cs
    ensures InvolvedBy(cs, limit) <= InvolvedBy(more, limit)
    decreases |more|
  {
    if |cs| < |more| {
      var n := |more| - 1;
      assert more[..n][..|cs|] == cs;
      InvolvedByGrows(cs, more[..n], limit);
    } else {
      assert more == cs;
    }
  }

  /** When no record is later than `limit`, a later bound involves nothing
      more. */
  lemma {:induction false} InvolvedBySettled(cs: seq<Collision>, limit: nat, later: nat)
    requires UpTo(cs, limit) && limit <= later
    ensures InvolvedBy(cs, later) == InvolvedBy(cs, limit)
  {
    if cs != [] {
      var n := |cs| - 1;
      assert UpTo(cs[..n], limit) by {
        forall a | 0 <= a < n ensures cs[..n][a].step <= limit {
          assert cs[..n][a] == cs[a];
        }
      }
      InvolvedBySettled(cs[..n], limit, later);
    }
  }

  /** Adding one record. */
  lemma InvolvedByPush(cs: seq<Collision>, c: Collision, limit: nat)
    ensures InvolvedBy(cs + [c], limit) ==
            InvolvedBy(cs, limit) + (if c.step <= limit then {c.planetA, c.planetB} else {})
  {
    assert (cs + [c])[..|cs|] == cs;
  }

  /** The loop invariant shared by the three loops, during sample t: the
      records are genuine, apart and ordered, none is later than step 2t,
      and `marked` holds exactly their planets. */
  predicate Progress(cs: seq<Collision>, marked: set<nat>, t: nat, paths: seq<seq<Vec>>, planets: seq<Orb>,
                     timeStep: real, sqrt: real -> real)
  {
    && Sound(cs, paths, planets, timeStep, sqrt) && Apart(cs) && Ordered(cs) && UpTo(cs, 2 * t)
    && marked == InvolvedBy(cs, 2 * t)
  }

  /** Recording a genuine meeting at sample t of two unmarked planets keeps
      the invariant, marking both. */
  lemma Recorded(cs: seq<Collision>, marked: set<nat>, c: Collision, t: nat, paths: seq<seq<Vec>>,
                 planets: seq<Orb>, timeStep: real, sqrt: real -> real)
    requires Progress(cs, marked, t, paths, planets, timeStep, sqrt)
    requires Genuine(c, paths, planets, timeStep, sqrt) && c.step == 2 * t
    requires c.planetA !in marked && c.planetB !in marked
    ensures Progress(cs + [c], marked + {c.planetA, c.planetB}, t, paths, planets, timeStep, sqrt)
  {
    var next := cs + [c];
    forall a | 0 <= a < |cs|
      ensures cs[a].planetA != c.planetA && cs[a].planetA != c.planetB
      ensures cs[a].planetB != c.planetA && cs[a].planetB != c.planetB
    {
      InvolvedByHas(cs, 2 * t, a);
    }
    assert forall a | 0 <= a < |cs| :: next[a] == cs[a];
    InvolvedByPush(cs, c, 2 * t);
  }

  // ---------------------------------------------------------------------
  // The loops.

  /** The innermost loop: planet i (unmarked) against every later unmarked
      planet at sample t, stopping at the first one it is close to. */
  method ScanPartners(paths: seq<seq<Vec>>, planets: seq<Orb>, t: nat, i: nat, cs: seq<Collision>,
                      marked: set<nat>, timeStep: real, sqrt: real -> real)
    returns (cs': seq<Collision>, marked': set<nat>)
    requires |paths| <= |planets| && i < |paths| && t < MinLength(paths) && i !in marked
    requires Progress(cs, marked, t, paths, planets, timeStep, sqrt)
    ensures Progress(cs', marked', t, paths, planets, timeStep, sqrt)
    ensures |cs| <= |cs'| && cs'[..|cs|] == cs && marked <= marked'
    ensures forall b | i < b < |paths| :: Close(paths, planets, i, b, t, sqrt) ==> i in marked' || b in marked'
  {
    cs', marked' := cs, marked;
    var j := i + 1;
    while j < |paths|
      invariant i + 1 <= j <= |paths|
      invariant forall b | i < b < j :: Close(paths, planets, i, b, t, sqrt) ==> b in marked
    {
      if j !in marked {
        var a := paths[i][t];
        var b := paths[j][t];
        var distance := Distance(a, b, sqrt);
        if distance <= planets[i].radius + planets[j].radius + COLLISION_BUFFER {
          var c := Collision(i, j, t * 2, (a.x + b.x) / 2.0, (a.y + b.y) / 2.0, distance,
                             CollisionTimeAsWritten(t, timeStep));
          assert c == ReportAsWritten(paths, i, j, t, timeStep, sqrt);
          Recorded(cs, marked, c, t, paths, planets, timeStep, sqrt);
          cs', marked' := cs + [c], marked + {i, j};
          return;
        }
      }
      j := j + 1;
    }
  }

  /** The middle loop: every unmarked planet at sample t. */
  method ScanSample(paths: seq<seq<Vec>>, planets: seq<Orb>, t: nat, cs: seq<Collision>, marked: set<nat>,
                    timeStep: real, sqrt: real -> real)
    returns (cs': seq<Collision>, marked': set<nat>)
    requires |paths| <= |planets| && paths != [] && t < MinLength(paths)
    requires Progress(cs, marked, t, paths, planets, timeStep, sqrt)
    ensures Progress(cs', marked', t, paths, planets, timeStep, sqrt)
    ensures |cs| <= |cs'| && cs'[..|cs|] == cs
    ensures forall a, b | 0 <= a < b < |paths| :: Close(paths, planets, a, b, t, sqrt) ==> a in marked' || b in marked'
  {
    cs', marked' := cs, marked;
    var i := 0;
    while i < |paths|
      invariant 0 <= i <= |paths|
      invariant Progress(cs', marked', t, paths, planets, timeStep, sqrt)
      invariant |cs| <= |cs'| && cs'[..|cs|] == cs
      invariant forall a, b | 0 <= a < i && a < b < |paths| ::
        Close(paths, planets, a, b, t, sqrt) ==> a in marked' || b in marked'
    {
      if i !in marked' {
        var more, markedMore := ScanPartners(paths, planets, t, i, cs', marked', timeStep, sqrt);
        assert more[..|cs|] == more[..|cs'|][..|cs|];
        cs', marked' := more, markedMore;
      }
      i := i + 1;
    }
  }

  /** Sample t scanned: the close pairs of every sample up to t are covered. */
  lemma CoveredStep(cs: seq<Collision>, next: seq<Collision>, marked: set<nat>, t: nat, paths: seq<seq<Vec>>,
                    planets: seq<Orb>, sqrt: real -> real)
    requires Covered(cs, paths, planets, t, sqrt)
    requires |cs| <= |next| && next[..|cs|] == cs && marked == InvolvedBy(next, 2 * t)
    requires forall a, b | 0 <= a < b < |paths| :: Close(paths, planets, a, b, t, sqrt) ==> a in marked || b in marked
    ensures Covered(next, paths, planets, t + 1, sqrt)
  {
    forall u: nat, i: nat, j: nat | u < t + 1 && i < j < |paths| && Close(paths, planets, i, j, u, sqrt)
      ensures i in InvolvedBy(next, 2 * u) || j in InvolvedBy(next, 2 * u)
    {
      if u < t {
        InvolvedByGrows(cs, next, 2 * u);
      }
    }
  }

  /**
   * detectPlanetCollisions: fewer than two paths give no collisions;
   * otherwise every record is a genuine meeting, no planet is in two records,
   * records come in step order, and every pair of planets that comes close
   * at some sample had one of its planets in a collision by that sample.
   */
  method DetectPlanetCollisions(paths: seq<seq<Vec>>, planets: seq<Orb>, timeStep: real, sqrt: real -> real)
    returns (collisions: seq<Collision>)
    requires |paths| <= |planets|
    ensures |paths| < 2 ==> collisions == []
    ensures Sound(collisions, paths, planets, timeStep, sqrt) && Apart(collisions) && Ordered(collisions)
    ensures |paths| >= 2 ==> Covered(collisions, paths, planets, MinLength(paths), sqrt)
  {
    collisions := [];
    if |paths| < 2 {
      return;
    }
    var marked: set<nat> := {};
    var minLength := MinLength(paths);
    var t := 0;
    while t < minLength
      invariant 0 <= t <= minLength
      invariant Progress(collisions, marked, t, paths, planets, timeStep, sqrt)
      invariant Covered(collisions, paths, planets, t, sqrt)
    {
      var next, nextMarked := ScanSample(paths, planets, t, collisions, marked, timeStep, sqrt);
      CoveredStep(collisions, next, nextMarked, t, paths, planets, sqrt);
      InvolvedBySettled(next, 2 * t, 2 * (t + 1));
      collisions, marked, t := next, nextMarked, t + 1;
    }
  }

  /** No planet appears in two records: each is warned about once. */
  lemma OncePerPlanet(cs: seq<Collision>, a: nat, b: nat, p: nat)
    requires Apart(cs) && a < |cs| && b < |cs|
    requires cs[a].planetA == p || cs[a].planetB == p
    requires cs[b].planetA == p || cs[b].planetB == p
    ensures a == b
  {
    if a < b || b < a {
      assert false;
    }
  }
}
