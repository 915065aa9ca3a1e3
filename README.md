# Stellar Voyage: a Dafny model of the simulation core

Stellar Voyage is a browser space game. A ship flies through a star system of
stars, planets, moons and comets. Gravity between bodies is approximated with
a Barnes-Hut quadtree. Colliding planets merge. Comets that hit a body are
destroyed. The ship bounces off planets and takes damage. A radar shows the
predicted paths of the ship and the planets, and warns of planet collisions
ahead. The ship can land on a planet and explore it: the explorer walks,
jumps and flies with an EVA pack over a generated ring of terrain with water
or ice. The animated star background on the game's dictionary page runs its
own small Barnes-Hut tree.

This project models that core and proves properties of the model:

- `numerics.dfy` (module `Numerics`): vectors, JavaScript's truncating `%`,
  `Math.round`, angle normalisation, and the quadrant geometry both trees
  share. It also holds `ForceAccumulator`, the `{fx, fy}` object that force
  computations add into.
- `barnes_hut.dfy` (`BarnesHut`): the `QuadTree` of `main.js`, covering
  insertion, subdivision, the centre of mass, force calculation and
  `calculateBarnesHutForces`.
- `star_field.dfy` (`StarField`): the star-background `QuadTreeNode` and
  `QuadTree` of `dictionary_stars.js`, plus `getSpectrumColor`.
- `bodies.dfy` (`Bodies`): the `Planet` class (construction, image choice,
  radar trail) and the save/restore of a planet's image index.
- `orbits.dfy` (`Orbits`): the orbital velocity of a planet about a star,
  and `createMoonWithOrbit`.
- `collisions.dfy` (`Collisions`): the collision tests, the ship's bounce
  off planets, comet removal and planet merging.
- `prediction.dfy` (`Prediction`): `predictOrbit` and
  `predictAllPlanetOrbits`.
- `trajectory.dfy` (`Trajectory`): `predictShipTrajectory`.
- `forecast.dfy` (`Forecast`): `detectPlanetCollisions`.
- `terrain.dfy` (`Terrain`): the pure parts of terrain generation:
  - the seeded random numbers and the permutation table;
  - Perlin gradients and noise;
  - the point-count and resolution bands and the terrain types;
  - smoothing and the crater/mountain features.
- `exploration.dfy` (`Exploration`): the `PlanetExploration` class:
  - the constructor, terrain generation and the water system;
  - the rendered terrain height;
  - `updateExploration`, one frame of the explorer's movement.

Each step of a frame is a pure function on the explorer's state, and the
class's methods are proved equal to those functions.

Objects that the source changes in place are classes with `modifies`
clauses:

- `Planet`
- the ship (`Collisions.Ship`)
- the world lists (`Collisions.World`)
- `ForceAccumulator`
- `StarTree`
- `PlanetExploration`

The main quadtree and the star tree are value datatypes. Their insert
functions return the updated node, and the methods that walk them update a
`ForceAccumulator`. The prediction loops are methods proved against
functions that give the state after `n` steps.

`Math.sqrt`, `Math.hypot`, `Math.sin` and `Math.random` are parameters. A
square root is given as a function `sqrt` with one of two assumptions:
- `PositiveOnPositives(sqrt)`, where only division safety matters;
- `IsSqrt(sqrt)`, exact, where a lemma states an if-and-only-if.

Numbers are unbounded reals.

Two points where the model keeps the code's behaviour:

- The merge does not conserve momentum. main.js:2530-2531 averages the two
  velocities without weighting them by mass, and the model does the same.
  `Collisions.MergedMomentum` states exactly when momentum is conserved.
- The explorer's vertical velocity is one field, `velocityY`. Every update of
  it in planetExploration.js:853-1260 is kept.

## Model

| member | source | states |
|---|---|---|
| Numerics.NormalizeAngle | planetExploration.js:641 | `((a % 2π) + 2π) % 2π`: the result lies in [0, 2π), and an angle already there is unchanged |
| Numerics.NormalizeAngleTurns | planetExploration.js:641 | the normalised angle differs from the input by a whole number of turns |
| Numerics.JsRem | planetExploration.js:641 | JavaScript's `%`: the remainder has the sign of the dividend and is smaller than the divisor in size |
| Numerics.JsIntRem | planetExploration.js:620 | integer `%` with the dividend's sign: Dafny's `%` for a non-negative dividend, a value in (−b, 0] for a negative one |
| Numerics.Round | dictionary_stars.js:247 | `Math.round`: the nearest integer, with halves rounded up |
| Numerics.Trunc | planetExploration.js:641 | truncation toward zero, the quotient JavaScript's `%` uses: within 1 of the input, on the side of zero |
| Numerics.Quadrant | main.js:501-512 | quadrant k is the NW/NE/SW/SE half-size box of the node |
| Numerics.ChildIndex | dictionary_stars.js:92-101 | the index is below 4; it is odd iff x ≥ midX and ≥ 2 iff y ≥ midY |
| Numerics.QuadrantsTile | main.js:494-525 | a point of a box lies in the quadrant ChildIndex picks and in no other |
| Numerics.ForceAccumulator.constructor | main.js:632 | a fresh accumulator holds the zero force |
| BarnesHut.NewNode | main.js:453-463 | an empty leaf with the given bounds and capacity, no bodies and zero mass |
| BarnesHut.UpdateCenterOfMass | main.js:527-539 | the mass grows by the body's mass, the centre becomes the merged centre, and nothing else changes |
| BarnesHut.MergedCenterIsWeightedMean | main.js:527-539 | the new centre times the new mass equals the mass-weighted sum, and lies between the old centre and the body |
| BarnesHut.Insert | main.js:465-492 | the result keeps the tree's shape and its bounds and capacity |
| BarnesHut.InsertFacts | main.js:465-499 | success implies the body is inside; a body outside gives false and an unchanged node; a roomy leaf appends the body; mass and centre are updated exactly when the insert succeeds |
| BarnesHut.InsertSpec | main.js:465-492 | insertion keeps the tree valid, and adds the body to its content exactly when it reports success |
| BarnesHut.InsertContent | main.js:465-492 | the bodies under the node grow by the body exactly on success |
| BarnesHut.InsertPacked | main.js:465-492 | insertion keeps every leaf within capacity and every divided node non-empty |
| BarnesHut.InsertFails | main.js:465-492 | a failed insert of a body inside the box means a stored body shares its box at the depth bound |
| BarnesHut.Descend | main.js:479-489 | descending into a divided node keeps its shape and leaves it divided |
| BarnesHut.ChildrenLoop | main.js:484-489 | the loop over children inserts into the one child ChildIndex picks and nowhere else |
| BarnesHut.InsertIntoChildren | main.js:484-489 | the children keep their shapes |
| BarnesHut.Subdivide | main.js:501-525 | the node becomes divided, keeping its bounds, capacity, mass and centre |
| BarnesHut.SubdivideContent | main.js:501-525 | subdividing moves the bodies down without losing or adding any |
| BarnesHut.ContentInBounds | main.js:494-499 | every stored body lies inside its node's box |
| BarnesHut.PairForceAttracts | main.js:580-598 | the pull lies along the line between the bodies and points toward a non-negative mass |
| BarnesHut.ApplyForce | main.js:580-598 | the accumulator grows by exactly the pair force |
| BarnesHut.Others | main.js:543-548 | the bodies of a leaf other than the body itself |
| BarnesHut.LeafForceExcludesSelf | main.js:543-548 | a leaf's force sums the pulls of every body but the body itself |
| BarnesHut.LoneBodyFeelsNothing | main.js:545 | a body alone in its leaf feels no force from it |
| BarnesHut.LeafLoop | main.js:543-548 | the leaf loop adds the leaf force to the accumulator |
| BarnesHut.CalculateForce | main.js:541-578 | the accumulator grows by the node's force on the body |
| BarnesHut.ChildLoop | main.js:573-577 | the child loop adds the sum of the children's forces |
| BarnesHut.LoneBodyTree | main.js:541-578 | a tree holding only the body exerts no force on it |
| BarnesHut.PaddedBounds | main.js:606-621 | every body lies at least 1000 inside the bounds, and each side is exactly 1000 beyond some body |
| BarnesHut.BoundsCover | main.js:606-621 | every body lies at least 1000 inside the padded bounds |
| BarnesHut.ExtentCovers | main.js:607-612 | the running min/max bracket every body seen so far |
| BarnesHut.TreeOf | main.js:624-627 | the tree built from the first k bodies keeps the root bounds, with capacity 1 |
| BarnesHut.TreeOfBuilt | main.js:624-627 | the built tree is valid, keeps the root bounds, holds only bodies from the input, and is a single leaf while at most one body is in |
| BarnesHut.TreeOfPacked | main.js:624-627 | the built tree is packed |
| BarnesHut.TreeOfStoresAll | main.js:624-627 | when no two bodies share a box at the depth bound, the tree stores every body |
| BarnesHut.InsertStores | main.js:625-627 | one insertion step of that loop adds exactly the next body |
| BarnesHut.BuildTree | main.js:624-627 | the insertion loop builds TreeOf; a single body ends in the root leaf; with the bodies apart, all are stored |
| BarnesHut.BarnesHutForces | main.js:602-638 | one force per body |
| BarnesHut.ForcesFrom | main.js:630-637 | force j is the tree's force on body j |
| BarnesHut.ForcesOfTree | main.js:630-637 | those forces are the Barnes-Hut forces of the input |
| BarnesHut.CalculateBarnesHutForces | main.js:602-638 | the method returns the Barnes-Hut forces of its input |
| BarnesHut.BarnesHutTree | main.js:602-638 | the tree is valid, its bounds contain every body, it holds only input bodies, and force i is its force on body i |
| BarnesHut.BarnesHutStoresAll | main.js:602-627 | with the bodies apart at the depth bound, the tree holds exactly the input bodies |
| BarnesHut.BarnesHutFewBodies | main.js:541-603 | no bodies give no forces; a single body feels zero force |
| StarField.NewStarNode | dictionary_stars.js:42-52 | an empty leaf with zero mass |
| StarField.Store | dictionary_stars.js:56-61 | an empty node stores the star, with the star as centre and its radius as mass |
| StarField.Subdivide | dictionary_stars.js:82-90 | four empty children on the quadrants |
| StarField.MoveDown | dictionary_stars.js:65-71 | the existing star alone, stored in one of four quadrant children, with its radius as their total mass |
| StarField.Split | dictionary_stars.js:65-73 | a one-star leaf becomes an inner node on the quadrants holding the same star, with the same mass and centre |
| StarField.UpdateCenterOfMass | dictionary_stars.js:103-110 | the mass grows by the radius, the centre is the radius-weighted mean, and nothing else changes |
| StarField.CenterBetween | dictionary_stars.js:103-110 | the new centre lies between the old centre and the star |
| StarField.InsertStar | dictionary_stars.js:54-80 | the node stays valid; the mass grows by the radius exactly on success; an empty node stores the star at once |
| StarField.InsertIntoChild | dictionary_stars.js:92-101 | only the children change, and their mass grows by the radius on success |
| StarField.MassIsRadii | dictionary_stars.js:54-110 | a node's mass is the sum of its stars' radii, and it is zero exactly when the node is empty |
| StarField.InsertContent | dictionary_stars.js:54-80 | the stars under the node grow by the star exactly on success |
| StarField.InsertIntoChildContent | dictionary_stars.js:92-101 | the same for the insert into a child |
| StarField.CalculateForce | dictionary_stars.js:112-141 | the accumulator grows by the node's force on the star |
| StarField.ChildLoop | dictionary_stars.js:135-139 | the child loop adds the sum of the children's forces |
| StarField.AddPull | dictionary_stars.js:130-131 | the accumulator grows by the pull |
| StarField.LeafPullsTowardsStar | dictionary_stars.js:122-132 | another star's leaf pulls along the line toward that star |
| StarField.InsertRouted | dictionary_stars.js:54-101 | insertion keeps every star in the quadrant ChildIndex picks for it |
| StarField.StarInsertFails | dictionary_stars.js:54-80 | a failed insert means a stored star shares the new star's box at the depth bound |
| StarField.InsertAll | dictionary_stars.js:206-211 | the tree over the first k stars is valid and keeps the canvas bounds |
| StarField.StarsAllStored | dictionary_stars.js:206-211 | with the stars apart at the depth bound, the tree holds exactly the stars |
| StarField.StarTree.constructor | dictionary_stars.js:145-147 | the root is an empty node with the given bounds |
| StarField.StarTree.Insert | dictionary_stars.js:149-151 | the tree stays valid; the star is added exactly when stored; failure only when a stored star shares its box at the depth bound |
| StarField.StarTree.CalculateForceOnStar | dictionary_stars.js:153-157 | returns the root's force on the star, starting from zero |
| StarField.Clamp01 | dictionary_stars.js:229 | the result lies in [0, 1] and is the identity there |
| StarField.SpectrumColor | dictionary_stars.js:227-248 | every channel lies in [150, 255]; red is 255 from the midpoint on; the colour is light blue (150, 200, 230) at 0, white at 0.5 and light orange (255, 200, 150) at 1 |
| Bodies.PlanetRadiusOf | main.js:2526-2527 | the merged radius `mass / 0.5`: the radius times 0.5 gives back the mass |
| Bodies.NewStar | main.js:2720-2728 | a star at rest with mass 2·radius |
| Bodies.Pick | main.js:2675-2685 | there is no picture iff the gallery is empty, and a picture comes from the gallery |
| Bodies.IndexIn | main.js:1107-1115 | one gallery's search loop: the first index holding the image, or −1 iff it is not there |
| Bodies.Planet.constructor | main.js:2661-2686 | a planet at rest, with mass radius·0.5, a picture from its size's gallery, an empty trail and no updates yet |
| Bodies.Planet.Update | main.js:2687-2703 | every third update records the position; the trail is the newest 1000 recorded points; the position, velocity, mass and picture are unchanged |
| Bodies.Newest | main.js:2694-2699 | the last n elements, in order |
| Bodies.NewestStep | main.js:2694-2699 | pushing and then shifting once past n equals taking the newest n of the extended sequence |
| Bodies.GetImageIndex | main.js:1105-1117 | the kind and index locate the planet's image, searching giants, then terrestrials, then moons; the index is the first occurrence in that list, as indexOf returns; a missing image gives terrestrials[0] |
| Bodies.SetImageFromIndex | main.js:1119-1127 | the image is restored from the list and index; nothing else changes |
| Bodies.SaveAndRestore | main.js:1105-1127 | save then restore gives back any image that is in a gallery, and terrestrials[0] otherwise |
| Orbits.OrbitalVelocity | main.js:23-45 | the momenta cancel and both velocities are perpendicular to the star-planet line |
| Orbits.OrbitalSpeed | main.js:29-45 | the relative speed squared times the distance is G times the total mass, split by mass shares |
| Orbits.OrbitalVelocityIs | main.js:23-45 | the velocities come from the speed sqrt(G(M+m)/d) at the true distance |
| Orbits.Barycenter | main.js:140-141 | the mass-weighted centre of planet and moon |
| Orbits.CircularVelocity | main.js:144-151 | the barycentre's circular velocity is perpendicular to its offset from the star |
| Orbits.PairMotion | main.js:135-166 | planet and moon share the barycentre's motion and turn about it perpendicular to the planet-moon line |
| Orbits.BalancedSpeeds | main.js:154-155 | with an exact square root, planet mass times planet speed equals moon mass times moon speed |
| Orbits.ExactBalance | main.js:154-166 | with an exact square root, the planet's and the moon's momenta about the barycentre cancel |
| Orbits.CreateMoonWithOrbit | main.js:123-169 | the moon sits at the given distance and angle with mass radius·0.5 and the given or a drawn picture; the pair moves as PairMotion says; the planet keeps its position, mass, radius and picture |
| Collisions.BodiesCollideExactly | main.js:3301-3307 | two bodies collide iff their squared distance is below the square of the radius sum |
| Collisions.BodiesCollideSymmetric | main.js:3301-3307 | the body collision test is symmetric |
| Collisions.ShipCollidesExactly | main.js:3293-3299 | the ship collides iff its squared distance is below (width/2 + radius)² |
| Collisions.Damaged | main.js:2461-2476 | −10 health above impact 7.5, and health 0 above 20 |
| Collisions.RespondIsRebound | main.js:2442-2489 | a colliding ship off the planet's centre gets the rebound along the unit normal |
| Collisions.RespondSeparates | main.js:2442-2489 | no collision leaves the ship alone; after a response the ship no longer touches the planet |
| Collisions.ReboundPlaces | main.js:2488-2489 | the ship ends exactly width/2 + radius + 1 from the planet's centre |
| Collisions.ReboundReflects | main.js:2461-2485 | health as Damaged; with the stop flag a fatal impact stops the ship; otherwise the relative normal velocity is reversed and scaled by 0.3 and the tangential one scaled by 0.3 |
| Collisions.FatalImpactKeepsMoving | main.js:2471-2485 | a ship falling at 30 onto a planet is destroyed (health 0) yet leaves at vy = 9 as written, and at vy = 0 with the stop kept |
| Collisions.Ship.constructor | main.js:2609-2629 | the ship starts at (0, 350), at rest, with health 100 and width 32 |
| Collisions.Ship.CollideWith | main.js:2442-2500 | the ship's new state is the response to one planet, as written |
| Collisions.Ship.CollideWithPlanets | main.js:2441-2501 | the ship's new state is the responses to every planet, in order |
| Collisions.RespondAllStep | main.js:2441 | the fold over planets takes one response per planet, in order |
| Collisions.RespondAllSeparatesLast | main.js:2441-2501 | after the loop the ship does not touch the last planet, unless it sat on that planet's centre |
| Collisions.Surviving | main.js:2504-2514 | the comet filter never adds comets |
| Collisions.SurvivingMembers | main.js:2504-2514 | a comet survives iff it hits neither the star nor a planet, with its multiplicity kept |
| Collisions.SurvivingInOrder | main.js:2504-2514 | the filter distributes over concatenation, so the order is kept |
| Collisions.SurvivingOne | main.js:2504-2514 | a single comet is kept iff it does not crash |
| Collisions.SurvivingIdempotent | main.js:2504-2514 | filtering twice equals filtering once |
| Collisions.Merged | main.js:2521-2531 | the merged planet has the summed mass and the radius that mass gives |
| Collisions.MergedMomentum | main.js:2530-2531 | the averaged velocity conserves momentum iff the masses or the velocities are equal |
| Collisions.RemoveAt | main.js:2534 | `splice(j, 1)`: the element at j removed, the rest in order |
| Collisions.MergeAt | main.js:2534-2535 | the merged planet replaces i, j is removed, the rest keep their order, and the total mass is unchanged |
| Collisions.MassWithout | main.js:2534 | removing a planet removes its mass from the total |
| Collisions.MassReplaced | main.js:2535 | replacing a planet changes the total by the difference in mass |
| Collisions.FirstPartner | main.js:2518-2519 | the first later planet colliding with planet i, with none earlier |
| Collisions.MergePass | main.js:2517-2539 | the merge pass conserves total mass, never grows the list, and keeps the planets before i |
| Collisions.MergePassApart | main.js:2517-2539 | with no colliding pair the pass changes nothing |
| Collisions.World.RemoveCrashedComets | main.js:2504-2514 | the comets become the survivors of the filter, and the rest is unchanged |
| Collisions.World.MergePlanets | main.js:2517-2539 | the planets become the result of the merge pass, and the rest is unchanged |
| Prediction.Advance | main.js:3517-3531 | one Euler step keeps mass and radius |
| Prediction.Drift | main.js:3517-3531 | with no force a body moves by its velocity times dt |
| Prediction.Kick | main.js:3517-3531 | the velocity changes by force·dt, then the position by the new velocity·dt |
| Prediction.AsBodies | main.js:3491-3506 | the tree's bodies carry the orbs' masses, with the index as identity |
| Prediction.AdvanceAll | main.js:3594-3614 | advancing a list keeps each body's mass and radius |
| Prediction.BarnesHutLawful | main.js:3591 | the Barnes-Hut force law gives one force per body |
| Prediction.BarnesHutLoneFree | main.js:3591 | that law gives a lone body zero force |
| Prediction.Step | main.js:3572-3614 | one simulation step keeps every body's mass and radius |
| Prediction.After | main.js:3572-3614 | so do n steps |
| Prediction.LonePlanetDrifts | main.js:3547-3628 | a lone planet drifts in a straight line |
| Prediction.LoneDrift | main.js:3547-3628 | the same for any law that leaves a lone body free |
| Prediction.TravelIsProduct | main.js:3517-3522 | n drift steps move a body by n·v·dt |
| Prediction.EveryOther | main.js:3617 | sampling every other step keeps elements 0, 2, 4, … |
| Prediction.PlanetPositionsPush | main.js:3617-3624 | the positions after n + 1 steps extend those after n by one point |
| Prediction.TrackPoints | main.js:3617-3624 | sample k of a predicted path is the planet's position after 2k + 1 steps |
| Prediction.AdvanceEach | main.js:3594-3614 | the loop advances each body by its own force |
| Prediction.StepSky | main.js:3572-3614 | a step of predictAllPlanetOrbits, with stars first, is one simulation step |
| Prediction.StepPlanetsFirst | main.js:3511-3532 | a step of predictOrbit, with planets first, is the same simulation step |
| Prediction.RecordAll | main.js:3618-3623 | each path gains its planet's current position |
| Prediction.TrackedStep | main.js:3617-3624 | recording on even steps keeps the paths equal to the sampled positions |
| Prediction.AdvanceSky | main.js:3572-3614 | the sky after the loop body is the sky one step later |
| Prediction.RecordStep | main.js:3617-3624 | the paths stay the tracks after one more step |
| Prediction.PredictAllPlanetOrbits | main.js:3547-3628 | one path per planet, and path i is planet i's track |
| Prediction.RecordOne | main.js:3535-3540 | the target's position is appended when there is a target |
| Prediction.PredictOrbit | main.js:3460-3544 | the target's path is its track; no target gives an empty path |
| Prediction.OrbitStep | main.js:3489-3541 | one loop step keeps the sky and the path at step + 1 |
| Trajectory.SoftPullAttracts | main.js:3345-3353 | the softened pull lies along the line and points toward a non-negative mass |
| Trajectory.PullsIgnoreSkipped | main.js:3418-3429 | the skipped star's own entry does not affect its pulls |
| Trajectory.PullsOfNone | main.js:3345-3353 | no sources give no pull; one source gives its own pull |
| Trajectory.ShipPlanetPullsLast | main.js:3356-3369 | a planet within radius + 20 of the ship adds nothing; any other adds its softened pull |
| Trajectory.PlanetsUnder | main.js:3388-3408 | the planets' update keeps each one's mass and radius |
| Trajectory.PlanetsStep | main.js:3378-3408 | so does the planets' step |
| Trajectory.StarsInTurn | main.js:3411-3446 | the stars update one at a time, and stars not yet reached are unchanged |
| Trajectory.StarTurn | main.js:3411-3446 | updating star k with the forces on the current list continues the turn |
| Trajectory.VoyageStep | main.js:3340-3455 | a step of the voyage keeps every body's mass and radius |
| Trajectory.Flight | main.js:3340-3455 | so do n steps |
| Trajectory.EmptySpaceDrift | main.js:3372-3375 | in empty space the ship drifts in a straight line |
| Trajectory.ShipPositionsPush | main.js:3449-3454 | the positions after n + 1 steps extend those after n |
| Trajectory.ShipPositionAt | main.js:3449-3454 | position j is the ship's position after j + 1 steps |
| Trajectory.EveryThird | main.js:3449 | sampling every third step keeps elements 0, 3, 6, … |
| Trajectory.ShipTrackPoints | main.js:3449-3454 | sample k of the ship's path is its position after 3k + 1 steps |
| Trajectory.SumPulls | main.js:3345-3353 | the loop sums the pulls of every source but the skipped one |
| Trajectory.SumShipPlanetPulls | main.js:3356-3369 | the loop sums the planets' pulls, skipping close ones |
| Trajectory.AdvancePlanets | main.js:3388-3408 | the loop advances each planet |
| Trajectory.MovePlanets | main.js:3378-3408 | the planets' step |
| Trajectory.MoveStars | main.js:3411-3446 | the stars' loop is the one-at-a-time update |
| Trajectory.FlyStep | main.js:3340-3455 | one loop step keeps the voyage and the path at step + 1 |
| Trajectory.PredictShipTrajectory | main.js:3309-3458 | the path is the ship's track, sampled every third step |
| Forecast.MinLength | main.js:3638 | the shortest path length, attained by some path |
| Forecast.Report | main.js:3665-3673 | corrected record: step 2t, time = step·timeStep, at the midpoint |
| Forecast.ReportAsWritten | main.js:3665-3673 | the record as written: the corrected record but with time t·timeStep |
| Forecast.AsWrittenTimeIsHalf | main.js:3668-3672 | the recorded time is half of step·timeStep, and differs from it whenever t > 0 |
| Forecast.InvolvedByHas | main.js:3676-3677 | both planets of a record are marked |
| Forecast.InvolvedByOnly | main.js:3633-3677 | only planets of some record are marked |
| Forecast.InvolvedByGrows | main.js:3676-3677 | extending the records only adds marks |
| Forecast.InvolvedBySettled | main.js:3641 | later samples do not change the marks of earlier ones |
| Forecast.InvolvedByPush | main.js:3676-3677 | a new record marks exactly its two planets |
| Forecast.Recorded | main.js:3663-3680 | recording a genuine collision of two unmarked planets keeps the scan's invariant |
| Forecast.ScanPartners | main.js:3646-3682 | the inner loop leaves every close pair involving planet i marked |
| Forecast.ScanSample | main.js:3642-3683 | after a sample every close pair has a marked planet |
| Forecast.CoveredStep | main.js:3641-3684 | the coverage invariant advances by one sample |
| Forecast.DetectPlanetCollisions | main.js:3631-3687 | fewer than two paths give none; every record is a real close approach, no planet appears twice, records are in sample order, and every close pair is covered |
| Forecast.OncePerPlanet | main.js:3644-3677 | a planet appears in at most one record |
| Terrain.SeededRandom | planetExploration.js:496-499 | a value in [0, 1) |
| Terrain.ResolutionBounds | planetExploration.js:292-307 | the resolution is at least 2, grows with the point count, and renders at most 225 points |
| Terrain.PointCountBands | planetExploration.js:438-460 | between 180 and 1080 points, in each planet class's band, and unclamped inside it |
| Terrain.TerrainTypeBands | planetExploration.js:591-609 | each class's height bands, and the type never decreases with height |
| Terrain.SwapIndex | planetExploration.js:322 | the swap partner lies in [0, i] |
| Terrain.PermutedBytes | planetExploration.js:310-329 | a permutation of 0..255 holds only bytes |
| Terrain.PermutationTable | planetExploration.js:310-329 | 512 entries: a permutation of 0..255, repeated |
| Terrain.FillIdentity | planetExploration.js:316-318 | the first half is 0..255 |
| Terrain.Shuffle | planetExploration.js:321-324 | the shuffle permutes the first half and leaves the second |
| Terrain.SwapKeeps | planetExploration.js:323 | one swap exchanges two entries and keeps the multiset |
| Terrain.RepeatTable | planetExploration.js:327-329 | the second half copies the first |
| Terrain.FadeAndLerpEnds | planetExploration.js:332-335 | fade and lerp meet their end values |
| Terrain.GradShape | planetExploration.js:338-343 | the gradient has slope 1..8, is periodic in the hash, and is odd in x |
| Terrain.NoiseAtIntegers | planetExploration.js:346-366 | the noise is 0 at integers |
| Terrain.NoisePeriodic | planetExploration.js:346-366 | the noise has period 256 |
| Terrain.SmoothPass | planetExploration.js:563-587 | one smoothing pass keeps the point count |
| Terrain.Smoothed | planetExploration.js:562-588 | so do several passes |
| Terrain.SmoothPassBounds | planetExploration.js:563-587 | a pass keeps heights within the old bounds, raised to the floor |
| Terrain.SmoothPassLevel | planetExploration.js:563-587 | level terrain above the floor is unchanged |
| Terrain.SmoothedBounds | planetExploration.js:562-588 | several passes keep the bounds too |
| Terrain.FeatureIndex | planetExploration.js:614-615 | the feature's centre is a valid index |
| Terrain.FeatureSize | planetExploration.js:616 | a feature spans 5 to 24 points |
| Terrain.TargetOnRing | planetExploration.js:620 | the wrapped index stays on the ring |
| Terrain.Impact | planetExploration.js:621-622 | the falloff is 1 at the centre and 0 beyond the size |
| Terrain.Sweep | planetExploration.js:619-634 | a feature's sweep keeps the count and every angle |
| Terrain.Feature | planetExploration.js:613-635 | so does a whole feature |
| Terrain.Features | planetExploration.js:612-636 | the features keep the point count |
| Terrain.FeaturesKeepAngles | planetExploration.js:612-636 | and every angle |
| Terrain.SweepKeepsFloor | planetExploration.js:630-631 | a crater never digs below 0.3 of the base height |
| Terrain.FeatureKeepsFloor | planetExploration.js:613-635 | nor does a whole feature |
| Terrain.FeaturesKeepFloor | planetExploration.js:612-636 | nor do all of them |
| Exploration.LandingExactly | planetExploration.js:695-705 | the ship can land iff it is within radius + 80 and its relative speed is at most 4 |
| Exploration.WateryHasDepth | planetExploration.js:142-256 | a planet has a water depth entry iff its image is watery, and that water is not dry |
| Exploration.Lowest | planetExploration.js:211-217 | a lower bound of the heights |
| Exploration.Highest | planetExploration.js:211-217 | an upper bound of the heights |
| Exploration.ExtremesAttained | planetExploration.js:211-217 | both bounds are heights of the terrain |
| Exploration.WaterLevelBounds | planetExploration.js:259-270 | the water surface is at least 10% of the height range above the lowest point; the level is at most the larger of the depth-table level and that minimum, and above the depth-table level minus 1 |
| Exploration.Stride | planetExploration.js:644 | the rendering stride is positive |
| Exploration.Closest | planetExploration.js:639-667 | the chosen sample is on the stride |
| Exploration.ClosestIsNearest | planetExploration.js:639-667 | the chosen sample is the nearest rendered point to the angle, the earliest on ties, and only that one |
| Exploration.Direction | planetExploration.js:878-884 | −1, 0 or +1, negative iff only left is held and positive iff only right is held |
| Exploration.Animated | planetExploration.js:887-908 | the walk cycle stays in 0..3; standing resets it; a new frame resets the timer |
| Exploration.Approach | planetExploration.js:914-918 | the velocity moves toward the target by at most the step, and reaches it when close |
| Exploration.SteeredBounds | planetExploration.js:914-923 | without input the spin shrinks to at most 0.85 of itself; with input it changes by at most 0.001 |
| Exploration.BlendBetween | planetExploration.js:995 | the smoothed height lies between the old and the target, closing the gap by the factor |
| Exploration.FollowFactor | planetExploration.js:987-993 | the smoothing factor lies in (0, 1) |
| Exploration.SteppedFollowsRise | planetExploration.js:926-979 | gentle ground keeps the spin and moves the angle; a blocked step keeps the angle and stops the walk |
| Exploration.RisenSpinSlows | planetExploration.js:948-967 | a rise never speeds up or reverses the spin |
| Exploration.WalkFollowsGround | planetExploration.js:910-1002 | walking moves the height toward the ground, never past it; a jump leaves the ground with vy = −50; the walk flag is only ever cleared |
| Exploration.GlideApproaches | planetExploration.js:1003-1052 | in the air the spin closes 10% of the gap to the air-steering target and gravity applies; the move is taken, or stopped at a cliff with a tenth of the spin and an upward push of 0.5, or refused |
| Exploration.FuelAccounting | planetExploration.js:1055-1080 | fuel drops by 0.01 per held key, only when positive, and stalls only when empty |
| Exploration.DragSlows | planetExploration.js:1093-1107 | while abs(vy) ≤ 980, drag slows the fall without reversing it; above 980 the factor 1 − (0.02 + 0.001·abs(vy)) turns negative and the source's drag reverses the velocity |
| Exploration.SettledOnGround | planetExploration.js:1116-1182 | above the ground nothing changes; on it the height moves toward the ground and the angle is kept |
| Exploration.SoakedFacts | planetExploration.js:1185-1233 | never both on ice and in water; ice lifts the player onto its surface |
| Exploration.Clamped | planetExploration.js:1236-1246 | the height ends between the floor and the ceiling, and in-range heights are unchanged |
| Exploration.MovedFuel | planetExploration.js:875-1087 | a frame's movement spends fuel only as FuelAccounting says |
| Exploration.MovedKeeps | planetExploration.js:875-1087 | the movement keeps the walk cycle in range, walks only with a direction and a side facing, and leaves the water flags alone |
| Exploration.WalkedKeeps | planetExploration.js:910-1002 | walking changes only the motion and the walking flag |
| Exploration.FlownFacts | planetExploration.js:1003-1087 | flying changes only motion and fuel, spending fuel as FuelAccounting says |
| Exploration.LandedInRange | planetExploration.js:1088-1249 | after settling, the angle is normalised, the height is in range, and never both ice and water |
| Exploration.FrameFacts | planetExploration.js:853-1260 | a whole frame keeps the player in range with a normalised angle, and the fuel accounting holds |
| Exploration.Generated | planetExploration.js:427-559 | the generated terrain has as many points as the noise gave |
| Exploration.GeneratedAboveFloor | planetExploration.js:545-558 | after features and smoothing every height is at least half the base, and the angles are the features' |
| Exploration.GeneratedLaid | planetExploration.js:508-509 | generation keeps the even angle layout |
| Exploration.FiguresOf | planetExploration.js:24-42 | the base height is half the view radius, and the move speed is the larger of 0.005 and 2.5 / view radius |
| Exploration.PlanetExploration.constructor | planetExploration.js:15-90 | the planet's figures, the generated terrain above half the base with its layout kept, the water setting, the surveys, and the player at the start |
| Exploration.PlanetExploration.Open | planetExploration.js:28-86 | the player's start, the water system, then the terrain and its surveys |
| Exploration.PlanetExploration.Prepare | planetExploration.js:77-86 | the terrain is Generated, at least half the base high, with its layout kept; then its water level, resolution and height limit match it |
| Exploration.PlanetExploration.Stand | planetExploration.js:28-68 | standing on the surface at angle 0, at rest, facing front, with 100 fuel |
| Exploration.PlanetExploration.Survey | planetExploration.js:80-86 | the resolution, ceiling and water match the terrain, and the ceiling is at least 1000 above half the base |
| Exploration.PlanetExploration.GenerateTerrain | planetExploration.js:427-559 | the terrain is Generated, and every height is at least half the base |
| Exploration.PlanetExploration.SetupWaterSystem | planetExploration.js:142-204 | water is present iff the image is watery, with level 0 and type dry until measured |
| Exploration.PlanetExploration.SmoothTerrain | planetExploration.js:562-588 | the heights become the smoothed heights; angles and kinds are kept |
| Exploration.PlanetExploration.SmoothOnce | planetExploration.js:563-587 | one pass |
| Exploration.PlanetExploration.ApplyHeights | planetExploration.js:584-587 | the heights are replaced and nothing else |
| Exploration.PlanetExploration.AddTerrainFeatures | planetExploration.js:612-636 | the terrain becomes Features, and the 0.3·base floor is kept |
| Exploration.PlanetExploration.AddFeature | planetExploration.js:613-635 | one feature |
| Exploration.PlanetExploration.CalculateTerrainResolution | planetExploration.js:292-307 | the resolution for the point count |
| Exploration.PlanetExploration.CalculateMaxPlayerHeight | planetExploration.js:276-289 | the highest point plus 1000 |
| Exploration.PlanetExploration.CalculateTerrainBasedWaterLevels | planetExploration.js:207-273 | a watery planet gets the depth table's type and level; others are unchanged |
| Exploration.PlanetExploration.HeightRange | planetExploration.js:211-217 | the lowest and highest terrain heights |
| Exploration.PlanetExploration.RenderedTerrainHeightAtAngle | planetExploration.js:639-674 | the height of the nearest rendered point |
| Exploration.PlanetExploration.Animate | planetExploration.js:886-908 | walking iff there is a direction; facing and walk cycle as Animated |
| Exploration.PlanetExploration.WalkOnSurface | planetExploration.js:910-1002 | the motion on foot, as Walk |
| Exploration.PlanetExploration.Steer | planetExploration.js:913-923 | the spin as Steered |
| Exploration.PlanetExploration.FollowGround | planetExploration.js:981-995 | the height follows the ground as Followed |
| Exploration.PlanetExploration.Jump | planetExploration.js:997-1002 | the jump as Jumped |
| Exploration.PlanetExploration.StepOnSurface | planetExploration.js:925-979 | the step on foot as Stepped |
| Exploration.PlanetExploration.BlockAtCliff | planetExploration.js:948-957 | the cliff branch of Stepped |
| Exploration.PlanetExploration.ClimbSteep | planetExploration.js:958-967 | the steep-climb branch of Stepped |
| Exploration.PlanetExploration.MoveOn | planetExploration.js:970-978 | the free-move branch of Stepped |
| Exploration.PlanetExploration.Glide | planetExploration.js:1003-1052 | the air motion as Glided |
| Exploration.PlanetExploration.AirSteer | planetExploration.js:1006-1015 | gravity and air steering as AirSteered |
| Exploration.PlanetExploration.Drift | planetExploration.js:1017-1052 | the air move or cliff bounce as AirDrifted |
| Exploration.PlanetExploration.Thrust | planetExploration.js:1054-1080 | the thrusters as Burned |
| Exploration.PlanetExploration.Fall | planetExploration.js:1089-1112 | the height moves by the velocity, then drag, and water drag in water |
| Exploration.PlanetExploration.CollideWithTerrain | planetExploration.js:1114-1182 | the terrain collision as Settled at the current and look-ahead ground |
| Exploration.PlanetExploration.StopAtLedge | planetExploration.js:1141-1150 | the cliff branch of the collision |
| Exploration.PlanetExploration.ClimbSlope | planetExploration.js:1151-1159 | the climb branch |
| Exploration.PlanetExploration.EaseOntoGround | planetExploration.js:1165-1169 | the smooth-adjust branch |
| Exploration.PlanetExploration.PlaceOnGround | planetExploration.js:1170-1175 | the firm-placement branch |
| Exploration.PlanetExploration.ComeToRest | planetExploration.js:1178-1181 | a slow vertical speed stops and the player is on the surface |
| Exploration.PlanetExploration.MeetWater | planetExploration.js:1184-1233 | the water and ice interaction as Soaked |
| Exploration.PlanetExploration.KeepInRange | planetExploration.js:1235-1246 | the height is clamped as Clamped |
| Exploration.PlanetExploration.UpdateExploration | planetExploration.js:853-1260 | the new player state is Frame of the old one; Escape exits unless the frame stalled |
| Exploration.PlanetExploration.Move | planetExploration.js:872-1087 | the state after input and movement is Moved of the old state |
| Exploration.PlanetExploration.Ready | planetExploration.js:866-908 | the surface test and animation as Readied |
| Exploration.PlanetExploration.OnFoot | planetExploration.js:910-1002 | the motion on foot as Walked |
| Exploration.PlanetExploration.InAir | planetExploration.js:1003-1087 | the motion in the air as Flown |
| Exploration.PlanetExploration.Settle | planetExploration.js:1089-1249 | the rest of the frame as Landed |
| Exploration.PlanetExploration.Descend | planetExploration.js:1089-1182 | the fall and terrain collision as Descended |
| Exploration.PlanetExploration.Emerge | planetExploration.js:1184-1249 | water, range clamp and angle normalisation as Emerged |

## Left out

- Drawing, sprites, canvas sizing, the HUD, menus, sound, timers and the
  animation loop; `getPlanetColors` and `getCurrentPlayerSprite` only choose
  pictures.
- Explosion particles and thruster particles (`createExplosion`,
  `generateThrusterParticles`, `drawThrusterParticles`): visual effects only.
- `startExploration`, `endExploration` and the saving and restoring of the
  main game's state around an exploration: they swap screens and game
  state.
- `createPlanetWithOrbit` (main.js:47-70) and
  `calculateMultiBodyOrbitalVelocity` (main.js:73-121) are not part of this
  model. The orbital velocity they build on is modelled by
  `Orbits.OrbitalVelocity`.
- Random system generation, wormholes, saving and loading, `localStorage`,
  and the ship's own thrust and update step.
- `Math.sqrt`, `Math.hypot`, `Math.sin`, `Math.cos` and `Math.random` are
  parameters. Random draws are passed in as values in [0, 1).
- Floating point: all arithmetic is on unbounded reals. NaN and Infinity are
  excluded by preconditions, listed below.
- The noise behind the terrain (the sine bands, `perlinOctaveNoise` and
  `getNoiselevels`, planetExploration.js:372-424 and 462-543) is given to the
  exploration constructor as the raw terrain `rough`. The permutation table,
  the gradients and the noise function itself are modelled in `Terrain`.
  `rough` also stands for planetExploration.js:545-551: the 0.3·base height
  floor and the point kinds from getTerrainType. Those kinds are used only
  for drawing (planetExploration.js:1494), so `Terrain.TerrainType` is
  modelled on its own and the constructor does not use it.
- `getTerrainHeightAtAngle` (planetExploration.js:671-674) only calls
  `getRenderedTerrainHeightAtAngle`. The model calls the latter directly.
- BarnesHut.Insert: the source recurses without bound when two bodies share a
  position. The model carries a depth bound `fuel` (`maxDepth` in
  `BarnesHut.TreeOf`, `BarnesHut.BuildTree` and
  `BarnesHut.CalculateBarnesHutForces`). At that depth a body is not stored.
  `BarnesHut.InsertFails` shows a refused body shares its box with a stored
  one at that depth. `BarnesHut.BarnesHutStoresAll` shows every body is
  stored when no two share a box.
- StarField.InsertStar: the same depth bound `fuel`, in
  `StarField.StarTree.Insert` and `StarField.InsertAll` too.
  `StarField.StarInsertFails` and `StarField.StarsAllStored` are the
  counterparts of those two lemmas.
- BarnesHut.UpdateCenterOfMass: requires non-negative masses. In the
  source a zero total mass after a negative one would divide by zero. The
  same requirement is on `BarnesHut.Insert` and the tree builders.
- StarField.InsertStar: requires a positive star radius (the mass). The
  source draws radii in [0.8, 2.3), and a zero radius would break its
  emptiness test.
- Orbits.OrbitalVelocity: requires the planet and the star to be apart and a
  non-zero total mass. The source would produce NaN there.
- Orbits.PairMotion: requires positive planet and moon masses, a positive
  distance, and a barycentre away from the star. main.js:140-141, 147-149 and
  154-155 divide by the total mass, the barycentre's distance from the star
  and `totalMass * distance` without checking them. A zero there gives
  Infinity or NaN, which the model does not describe. The game's own callers
  meet these requirements.
- Orbits.CreateMoonWithOrbit: the same degenerate inputs are excluded: a
  planet mass or moon radius of zero or less, a distance of zero or less,
  and a barycentre at the star's position. main.js:123-169 takes any values
  there. The calls at main.js:309 and main.js:364 pass positive values.
- Exploration.FiguresOf: requires a positive planet radius. A zero radius
  gives a division by zero in the move speed.
- Exploration.PlanetExploration.constructor: takes the noise output as
  `rough` with 180 to 1080 points. `Terrain.PointCountBands` shows every
  point count generateTerrain can produce lies in that range.
  `Exploration.GeneratedLaid` shows an evenly laid `rough` stays evenly laid.
- Prediction.PredictOrbit: the `null` and `Array.isArray` guards and the
  default arguments of the predict functions (main.js:3309, 3460, 3547) are
  not modelled. The caller passes lists, a step count and the time step.
- Forecast.DetectPlanetCollisions: the source reads the global `timeStep`
  (main.js:3173). The model passes it in.

## Findings

| source | as written | input that shows it | evidently intended | confidence | as-written member | corrected member |
|---|---|---|---|---|---|---|
| main.js:2471-2485 | a fatal impact sets the ship's velocity to 0, then the bounce at 2484-2485 overwrites it, so a destroyed ship keeps moving | ship of width 32 at (0, 10) with velocity (0, −30) and health 100, touching a planet of radius 50 at rest at the origin: health 0, vy = 9 | a destroyed ship stops, as the comment at 2474-2475 says | not executed | Collisions.FatalImpactKeepsMoving | Collisions.RespondIsRebound |
| main.js:3668-3672 | `step` is recorded as `step * 2` but `time` as `step * timeStep`, with the sample index | a collision at sample 3 with timeStep 10: step 6, time 30 | a time that agrees with the recorded step, step · timeStep = 60; `Prediction.TrackPoints` shows sample t lies 2t + 1 simulation steps ahead, so the as-written time is about half the time the prediction reached | not executed | Forecast.AsWrittenTimeIsHalf | Forecast.Report |

The game's own loops use the code as written. `Collisions.Ship.CollideWith`
and `Forecast.DetectPlanetCollisions` are built on `RespondAsWritten` and
`ReportAsWritten`. The corrected `Respond` stops a destroyed ship
(`Collisions.ReboundReflects` with the stop flag set).
