# ShadowGame core, modelled in Dafny

ShadowGame is a small OpenGL puzzle platformer. A light hangs in front of a
wall, and a few cardboard blocks stand between the light and the wall. Each
block casts a shadow on the wall (the plane z = 0). The player steers a
ball that lives on the wall and can stand only on shadows. Moving the light
reshapes the shadows, and the ball rides along with them. A ball that sticks
out of the light's circle falls, and a ball that falls below the death line
restarts the level.

This project models the game logic behind that, in eleven modules:

- `Numbers`, `Vectors`: the scalar and glm vector helpers the code calls
  (std::min, std::max, std::clamp, std::fabs, dot products, distances).
  Coordinates are exact reals.
- `Boxes`: a block's model matrix and its eight world-space corners
  (object.cpp).
- `ConvexHulls`: Andrew's monotone chain as `Scene::convexHull` writes it.
  The points are sorted lexicographically, near duplicates are dropped, and
  a lower and an upper chain are built and joined.
- `ShadowProjector`: projecting corners from the light onto the wall, and
  the list of shadow platforms a light casts (`rebuildShadowPlatforms`).
- `Platforms`: the x-range of a polygon, the highest boundary point above an
  x (`topYAtX`), and the platform lookup by block id.
- `Collision`: the separating-axis helpers of collision_detect.cpp and the
  one-way platform resolver.
- `BallGeometry`: the closest point on a segment, the convex inside test,
  and `preventEnterSideWalls`, which keeps an airborne ball out of shadows'
  sides and ceilings.
- `Ball`: the ball (`ShadowBall`) as a class, and each phase of
  `updatePhysics` as a function. The phases are input and gravity, the light
  test, the support check, the side walls, one-way landing, and the
  support-fraction update.
- `SpawnPlanner`: the spot a level starts the ball on. Eleven samples are
  taken across each platform's top. The best lit sample is kept, and the
  leftmost platform that has one wins.
- `Scenes`: the scene as a class. It covers the level start (`resetLevel`),
  the light checks of a frame, the light-moved gate, re-anchoring the ball
  after the light moves, and one frame of `update`.

Loops become methods, and each method is proved against a function that
specifies it. The functions' properties are proved as lemmas. The ball and
the scene are classes whose methods update their fields. Platform lists,
hulls and point lists are sequences.

## Model

| member | source | states |
|---|---|---|
| Numbers.Clamp | ShadowGame/src/shadow.cpp:26 | std::clamp: the result lies in [lo, hi], equals v inside the range, and equals the bound v passes |
| Numbers.SeqMin | ShadowGame/src/shadow.cpp:81-88 | the running minimum of an x-range loop is below every element and is one of them |
| Numbers.SeqMax | ShadowGame/src/shadow.cpp:81-88 | the running maximum of an x-range loop is above every element and is one of them |
| Vectors.FartherThanIsDistance | ShadowGame/src/shadow.cpp:330 | the squared-distance test decides `distance(p, q) > d` exactly, for the true non-negative distance |
| Vectors.FartherThan3IsDistance | ShadowGame/src/scene.cpp:443 | the same for 3D points, as the light-moved test uses it |
| Boxes.ModelMapsLocalPoint | ShadowGame/src/object.cpp:17-22 | translate-then-scale maps a local point p to position + scale ⊙ p |
| Boxes.WorldCorners | ShadowGame/src/object.cpp:36-55 | exactly eight corners, corner i being position + scale ⊙ the i-th unit-cube corner |
| Boxes.CornersOnBoxFaces | ShadowGame/src/object.cpp:38-47 | every corner coordinate is the centre ± half the size; corners 0-3 lie on the near face, 4-7 on the far face |
| Boxes.CornerZeroAndSixBoundTheBox | ShadowGame/src/object.cpp:38-53 | with a non-negative size, corners 0 and 6 are the componentwise minimum and maximum |
| ConvexHulls.LexLessTotal | ShadowGame/src/scene.cpp:146-149 | the sort comparator is a strict total order on distinct points |
| ConvexHulls.Insert | ShadowGame/src/scene.cpp:146-149 | one insertion step adds exactly one point |
| ConvexHulls.InsertFacts | ShadowGame/src/scene.cpp:146-149 | insertion adds p to the multiset and keeps a sorted sequence sorted |
| ConvexHulls.SortLex | ShadowGame/src/scene.cpp:146-149 | sorting keeps the number of points |
| ConvexHulls.SortLexFacts | ShadowGame/src/scene.cpp:146-149 | the sort is a permutation of its input and is lexicographically sorted |
| ConvexHulls.SortedPermutationIsUnique | ShadowGame/src/scene.cpp:146-149 | two sorted permutations of the same points are equal, so any correct sort gives SortLex's result |
| ConvexHulls.DedupAfter | ShadowGame/src/scene.cpp:150-152 | std::unique after a kept point: it starts with that point and keeps at most all the rest |
| ConvexHulls.DedupAfterFacts | ShadowGame/src/scene.cpp:150-152 | every point std::unique keeps is an input point, and no two kept neighbours are within 1e-5 on both axes |
| ConvexHulls.Dedup | ShadowGame/src/scene.cpp:150-152 | de-duplication never grows the list and keeps the first point |
| ConvexHulls.DedupFacts | ShadowGame/src/scene.cpp:150-152 | the de-duplicated points are input points and no two neighbours are near each other |
| ConvexHulls.PopNonLeft | ShadowGame/src/scene.cpp:156 | the pops never remove the first point of a chain |
| ConvexHulls.PopNonLeftFacts | ShadowGame/src/scene.cpp:156 | the pops leave a prefix of the chain whose last two points turn strictly left towards p |
| ConvexHulls.Chain | ShadowGame/src/scene.cpp:155-163 | a chain over a non-empty list is non-empty and ends at the list's last point |
| ConvexHulls.ChainFacts | ShadowGame/src/scene.cpp:155-163 | a chain starts at the list's first point and holds only list points |
| ConvexHulls.ChainTurnsLeft | ShadowGame/src/scene.cpp:155-163 | every consecutive triple of a chain turns strictly left (cross2 > 0) |
| ConvexHulls.ChainStepTurnsLeft | ShadowGame/src/scene.cpp:156-157 | popping then pushing p keeps every triple turning strictly left |
| ConvexHulls.Reverse | ShadowGame/src/scene.cpp:159-160 | the right-to-left walk of the upper pass visits point n-1-i at step i |
| ConvexHulls.HullPointsAreInputPoints | ShadowGame/src/scene.cpp:143-168 | every hull point is an input point (and, above three points, a sorted de-duplicated point) |
| ConvexHulls.HullIsTwoLeftTurningChains | ShadowGame/src/scene.cpp:154-167 | above three points the hull is the lower chain without its last point followed by the upper chain without its last point; both chains turn strictly left, the lower one runs from the first sorted point to the last and the upper one back |
| ConvexHulls.HullJoinsChains | ShadowGame/src/scene.cpp:164-167 | the two pop_backs and the insert join the chains |
| ConvexHulls.UpperChainEnds | ShadowGame/src/scene.cpp:159-163 | the upper chain runs from the last sorted point back to the first |
| ConvexHulls.ConvexHullOf | ShadowGame/src/scene.cpp:143-168 | no contract of its own: the definition of convexHull's result that ConvexHulls.ConvexHull is proved equal to and the hull lemmas are about |
| ConvexHulls.LexPosTurnsCompose | ShadowGame/src/scene.cpp:146-149 | among directions pointing forward in the sort order, two strict left turns in a row compose to a strict left turn |
| ConvexHulls.PopNonLeftEnds | ShadowGame/src/scene.cpp:156 | the pops leave a non-empty prefix; a popped point was on or right of the line to p, and a kept one of two or more turns strictly left towards p |
| ConvexHulls.ChainStepSupports | ShadowGame/src/scene.cpp:155-158 | when the points so far lie on or left of every chain edge and p comes after them in sort order, popping then pushing p keeps every point, p included, on or left of every edge |
| ConvexHulls.ChainSupports | ShadowGame/src/scene.cpp:155-163 | over points in strictly increasing (or, for the upper pass, decreasing) order, every point lies on or left of every edge of the chain, and each edge points forward |
| ConvexHulls.DedupedIsMonotone | ShadowGame/src/scene.cpp:146-152 | after the sort and std::unique the points are in strictly increasing lexicographic order |
| ConvexHulls.HullContainsPoints | ShadowGame/src/scene.cpp:154-167 | above three points, every sorted de-duplicated point lies on or left of every hull edge, the edge from the last hull point back to the first included |
| ConvexHulls.DroppedPointsAreNearKeptOnes | ShadowGame/src/scene.cpp:150-152 | every input point std::unique drops lies within 1e-5 on both axes of a point it keeps |
| ConvexHulls.JunctionTurnsLeft | ShadowGame/src/scene.cpp:164-166 | where one chain ends and the other begins, the last edge of the first and the first point after the join turn strictly left |
| ConvexHulls.HullTurnsLeft | ShadowGame/src/scene.cpp:154-167 | above three points a hull of three or more points turns strictly left at every vertex, at both joins and around the wrap included |
| ConvexHulls.ChainPush | ShadowGame/src/scene.cpp:155-158 | a chain over one more point is one more pop-then-push |
| ConvexHulls.PushTurningLeft | ShadowGame/src/scene.cpp:156-157 | the while loop pops exactly PopNonLeft's points and pushes p |
| ConvexHulls.LowerChain | ShadowGame/src/scene.cpp:155-158 | the lower pass builds Chain of the sorted points |
| ConvexHulls.UpperChain | ShadowGame/src/scene.cpp:159-163 | the upper pass builds Chain of the reversed points |
| ConvexHulls.ConvexHull | ShadowGame/src/scene.cpp:143-168 | convexHull returns ConvexHullOf; at most three points come back unchanged; every hull point is an input point; above three points every input point lies within 1e-5 of a kept point, every kept point is on or left of every hull edge (the closing edge included), and a hull of three or more points turns strictly left at every vertex |
| Platforms.XRange | ShadowGame/src/shadow.cpp:81-88 | an empty polygon gives no range; otherwise minX and maxX bound every vertex's x and are attained |
| Platforms.EdgeTopMeaning | ShadowGame/src/shadow.cpp:98-114 | an edge answers only for x within 1e-5 of its x-span; a sloped edge answers the height of its line at x; a near-vertical edge answers its higher end; every x inside the span gets an answer |
| Platforms.TopYUpToIsHighest | ShadowGame/src/shadow.cpp:94-120 | topYAtX's scan finds a top exactly when some edge answers, and then it is the highest answer |
| Platforms.TopYAtX | ShadowGame/src/shadow.cpp:90-121 | the loop returns TopY, the highest edge answer or none |
| Platforms.TopY | ShadowGame/src/shadow.cpp:90-121 | no contract of its own: the definition of topYAtX's answer that Platforms.TopYAtX is proved equal to and Platforms.TopYUpToIsHighest characterises |
| Platforms.CoveringEdge | ShadowGame/src/shadow.cpp:94-100 | some edge of a closed polygon spans any x between two of its vertices |
| Platforms.TopYCoversXRange | ShadowGame/src/shadow.cpp:277-280 | a query inside a hull's x-range always finds a top |
| Platforms.FirstWithId | ShadowGame/src/scene.cpp:209-212 | the result is the first platform with that block id, and none means no platform has it |
| Platforms.FindPlatformByObjectId | ShadowGame/src/scene.cpp:209-212 | the search loop returns FirstWithId |
| ShadowProjector.ProjectToWallZ0 | ShadowGame/src/scene.cpp:129-135 | a corner level with the light keeps its x and y; otherwise the image lies on the line from the light through the corner |
| ShadowProjector.ProjectionLandsOnWall | ShadowGame/src/scene.cpp:132-134 | the hit point has height 0, so the image is on the wall |
| ShadowProjector.ShadowHulls | ShadowGame/src/scene.cpp:319-326 | one hull per block |
| ShadowProjector.ShadowHullsAt | ShadowGame/src/scene.cpp:319-326 | block j's hull is the convex hull of its eight projected corners |
| ShadowProjector.PlatformsUpToShape | ShadowGame/src/scene.cpp:319-333 | the first k hulls give at most k platforms, each of at least three points, tagged with its own hull's index, in increasing index order |
| ShadowProjector.PlatformsUpToKeepsEveryHull | ShadowGame/src/scene.cpp:327-332 | no hull with three or more points is skipped |
| ShadowProjector.ShadowsOf | ShadowGame/src/scene.cpp:315-334 | no contract of its own: the definition of the rebuilt platform list that ShadowProjector.ShadowsOfShape, ShadowProjector.ShadowPointsAreCornerImages and ShadowProjector.FindShadowOfBlock characterise |
| ShadowProjector.ShadowsOfShape | ShadowGame/src/scene.cpp:315-334 | the rebuilt platforms are exactly the blocks' shadows of three or more points, tagged with the block index, in block order |
| ShadowProjector.ShadowPointsAreCornerImages | ShadowGame/src/scene.cpp:320-326 | every point of a stored shadow is the projection of one of its block's corners |
| ShadowProjector.FindShadowOfBlock | ShadowGame/src/scene.cpp:315-334 | the lookup of block j finds a platform exactly when j's shadow has three points, and finds that shadow |
| Collision.Perp | ShadowGame/src/collision_detect.cpp:9 | perp is orthogonal to v, as long as v, and turned counter-clockwise from it |
| Collision.NormalizeSafe | ShadowGame/src/collision_detect.cpp:11-15 | a tiny vector gives (0, 1); otherwise the result points the same way as v, with unit length under an exact root |
| Collision.Dots | ShadowGame/src/collision_detect.cpp:17-24 | the vertices' projections on the axis, in order |
| Collision.ProjectPoly | ShadowGame/src/collision_detect.cpp:17-24 | the loop returns the interval spanned by the projections, attained at both ends |
| Collision.ProjectCircle | ShadowGame/src/collision_detect.cpp:26-30 | the interval is centred on the centre's projection and is 2r wide |
| Collision.OverlapOf | ShadowGame/src/collision_detect.cpp:38-44 | no overlap exactly when the intervals are disjoint; otherwise the smaller of the two overlaps, with sign +1 exactly when pMax - cMin is the strictly smaller one |
| Collision.OverlapOnAxis | ShadowGame/src/collision_detect.cpp:32-45 | no contract of its own: the composition of the projections with Collision.OverlapOf, whose contract states the overlap and its sign |
| Collision.PushSeparatesOnAxis | ShadowGame/src/collision_detect.cpp:32-45 | moving the circle by sign × overlap along a unit axis makes the two intervals just touch |
| Collision.EdgeAxes | ShadowGame/src/collision_detect.cpp:56-59 | the axis of edge i is the normalised perpendicular of poly[i] → poly[i+1 mod n] |
| Collision.EdgeOverlaps | ShadowGame/src/collision_detect.cpp:56-62 | the overlap on every edge axis, in edge order |
| Collision.ScanUpToFacts | ShadowGame/src/collision_detect.cpp:56-64 | the edge loop has seen no edge only before the first; it separates exactly when some edge overlap is missing; otherwise its best is the smallest overlap so far, found on one of the edges |
| Collision.ScanStep | ShadowGame/src/collision_detect.cpp:61-63 | one more edge either separates or replaces the best only with a strictly smaller overlap |
| Collision.ArgMinUpTo | ShadowGame/src/collision_detect.cpp:67-72 | the vertex loop returns the first index of the smallest value |
| Collision.VertexDists | ShadowGame/src/collision_detect.cpp:69-70 | the squared distance of every vertex to the centre |
| Collision.ChooseIsMinimal | ShadowGame/src/collision_detect.cpp:74-81 | the final choice is the smallest overlap over every edge axis and the vertex axis, and is one of them |
| Collision.MtvNoneIffSeparated | ShadowGame/src/collision_detect.cpp:48-62 | there is no MTV exactly for a polygon of fewer than three points or when an edge axis separates |
| Collision.MtvDepthIsMinimalOverlap | ShadowGame/src/collision_detect.cpp:48-83 | the MTV depth is the minimum overlap over every axis it tries, non-negative, attained on the chosen axis, with sign ±1 |
| Collision.MtvAxisIsUnit | ShadowGame/src/collision_detect.cpp:59-73 | with an exact root the MTV axis has unit length |
| Collision.PushLength | ShadowGame/src/collision_detect.cpp:81 | the push is exactly depth long on a unit axis |
| Collision.BestEdgeAxis | ShadowGame/src/collision_detect.cpp:51-64 | the edge loop with its early return computes ScanUpTo |
| Collision.NearestVertexIndex | ShadowGame/src/collision_detect.cpp:67-72 | the vertex loop returns the nearest vertex, the first among equals |
| Collision.MtvCirclePoly | ShadowGame/src/collision_detect.cpp:48-83 | mtvCirclePoly returns MtvOf, the push along the minimum-overlap axis |
| Collision.MtvOf | ShadowGame/src/collision_detect.cpp:48-83 | no contract of its own: the definition of mtvCirclePoly's result that Collision.MtvCirclePoly is proved equal to |
| Collision.PlatformStepKeepsInvariant | ShadowGame/src/collision_detect.cpp:98-115 | one platform pushes only as a landing of a falling circle, strictly upward, and otherwise changes nothing |
| Collision.PassKeepsInvariant | ShadowGame/src/collision_detect.cpp:96-119 | a pass keeps the resolver invariant; a pass that pushed leaves the circle landed |
| Collision.PassStepKeepsInvariant | ShadowGame/src/collision_detect.cpp:96-117 | the pass invariant carries over one more platform |
| Collision.PassesKeepInvariant | ShadowGame/src/collision_detect.cpp:95-120 | every pass up to the limit keeps the resolver invariant |
| Collision.ResolveIsOneWay | ShadowGame/src/collision_detect.cpp:87-123 | the resolver never changes vel.x and never pushes a rising circle; a landed circle has vel.y 0, was pushed strictly up and names a platform's block; otherwise position, velocity and id (-1) are as they were |
| Collision.Resolved | ShadowGame/src/collision_detect.cpp:87-123 | no contract of its own: the definition of the resolver's result that Collision.ResolveCircleAgainstPlatforms is proved equal to and Collision.ResolveIsOneWay and Collision.ResolveLandsOnFirstHighest are about |
| Collision.ApplyMtvRecords | ShadowGame/src/collision_detect.cpp:102-113 | applying one MTV keeps the ground block the first highest of the pushes so far, bestUp that push's height, grounded exactly when something pushed; it reports a push exactly when it adds one |
| Collision.PassRecords | ShadowGame/src/collision_detect.cpp:96-117 | a pass keeps that record over all pushes so far and reports `any` exactly when it pushed |
| Collision.PassesRecord | ShadowGame/src/collision_detect.cpp:94-121 | every pass up to the limit keeps that record |
| Collision.QuietPassRecords | ShadowGame/src/collision_detect.cpp:95-120 | a pass that pushed nothing ends the passes (`if (!any) break`) and leaves the record as that pass left it |
| Collision.PushedPassesRecord | ShadowGame/src/collision_detect.cpp:95-120 | after a pass that pushed, the record over all the passes is the record over that pass's pushes followed by the later passes' pushes |
| Collision.ResolveLandsOnFirstHighest | ShadowGame/src/collision_detect.cpp:87-123 | grounded exactly when some push was applied; every applied push is upward; the reported block and bestUp are those of the largest push, the earliest among equals; otherwise the id is -1 |
| Collision.ApplyPush | ShadowGame/src/collision_detect.cpp:101-115 | the body after mtvCirclePoly applies exactly ApplyMtv |
| Collision.ResolvePlatform | ShadowGame/src/collision_detect.cpp:98-117 | one platform's turn computes PlatformStep |
| Collision.ResolvePass | ShadowGame/src/collision_detect.cpp:96-119 | the platform loop computes one pass and its `any` flag |
| Collision.ResolveCircleAgainstPlatforms | ShadowGame/src/collision_detect.cpp:87-123 | the resolver returns the state Resolved describes, stopping after a pass without a push |
| BallGeometry.SegmentParam | ShadowGame/src/shadow.cpp:25-26 | the closest point's parameter lies in [0, 1] |
| BallGeometry.ClosestPointOnSegment | ShadowGame/src/shadow.cpp:21-28 | a degenerate segment gives a; otherwise a point a + t(b - a) with t in [0, 1] |
| BallGeometry.ClosestPointIsClosest | ShadowGame/src/shadow.cpp:21-28 | no point of the segment is closer to p than the answer |
| BallGeometry.LeftOfEdgesFrom | ShadowGame/src/shadow.cpp:33-41 | the loop from edge i on is true exactly when p is left of (or within 1e-6 of) every remaining edge |
| BallGeometry.IsInsideConvexCCW | ShadowGame/src/shadow.cpp:31-42 | false below three points; otherwise true exactly when p is left of or within 1e-6 of every edge |
| BallGeometry.OutwardNormal | ShadowGame/src/shadow.cpp:149-156 | the normal is perpendicular to the edge and points to its right (outward for a counter-clockwise hull), with unit length under an exact root |
| BallGeometry.EdgePenetration | ShadowGame/src/shadow.cpp:144-175 | a penetration comes only from a non-degenerate relevant edge closer to the centre than r, with depth in (0, r) |
| BallGeometry.PenetrationDepthIsDistance | ShadowGame/src/shadow.cpp:165-174 | the depth is r minus the centre's distance to the edge |
| BallGeometry.PenetrationNormalIsUnit | ShadowGame/src/shadow.cpp:170-172 | the push normal has unit length under an exact root |
| BallGeometry.PenetrationIsFound | ShadowGame/src/shadow.cpp:158-174 | conversely, a relevant edge closer than r is reported as penetrated |
| BallGeometry.Penetrations | ShadowGame/src/shadow.cpp:197-203 | every edge's penetration, in edge order |
| BallGeometry.DeepestUpTo | ShadowGame/src/shadow.cpp:194-208 | the scan keeps the deepest penetration, which is one of the edges' own unless it stays at depth 0 |
| BallGeometry.PushOut | ShadowGame/src/shadow.cpp:212-217 | the ball moves by depth + skin along the normal; velocity changes only if it points into the obstacle, keeps its cross component, and on a unit normal loses its inward part without speeding up |
| BallGeometry.RemoveComponent | ShadowGame/src/shadow.cpp:216-217 | removing the component along a unit normal leaves none along it and does not lengthen the velocity |
| BallGeometry.SideWallsOf | ShadowGame/src/shadow.cpp:133-221 | fewer than three points, a ball already penetrating last frame, or a ball not penetrating now leave pos and vel unchanged |
| BallGeometry.DeepestNormalIsUnit | ShadowGame/src/shadow.cpp:197-208 | the chosen normal is a unit vector under an exact root |
| BallGeometry.IterationsAfterStep | ShadowGame/src/shadow.cpp:193-220 | a step that stops ends the iterations; any other step leaves one fewer |
| BallGeometry.WallStepNeverSpeedsUp | ShadowGame/src/shadow.cpp:212-217 | one resolution iteration never increases the speed |
| BallGeometry.PenetratesAnyRelevantEdge | ShadowGame/src/shadow.cpp:177-186 | the loop with its early return decides PenetratesAny |
| BallGeometry.DeepestPenetration | ShadowGame/src/shadow.cpp:194-208 | the inner loop computes DeepestUpTo over all edges |
| BallGeometry.ResolveWallStep | ShadowGame/src/shadow.cpp:194-219 | one iteration's body computes WallStep |
| BallGeometry.WallPass | ShadowGame/src/shadow.cpp:193-220 | one iteration against the iterations left |
| BallGeometry.ResolveWalls | ShadowGame/src/shadow.cpp:193-220 | the resolution loop computes at most four iterations, stopping early |
| BallGeometry.PreventEnterSideWalls | ShadowGame/src/shadow.cpp:133-221 | preventEnterSideWalls computes SideWallsOf |
| Ball.DropState | ShadowGame/src/shadow.hpp:54 | drop leaves a valid airborne ball where it was, with the same velocity |
| Ball.ResetState | ShadowGame/src/shadow.hpp:34-40 | reset puts a valid airborne ball at p, at rest, with support fraction 0.5 |
| Ball.Direction | ShadowGame/src/shadow.cpp:227-229 | -1 exactly for A alone, +1 exactly for D alone, 0 when both or neither are held |
| Ball.Edges | ShadowGame/src/shadow.cpp:72-79 | one edge answer per key sample |
| Ball.EdgesArePresses | ShadowGame/src/shadow.cpp:72-79 | a sample reports an edge exactly when the key is down now and was up at the sample before |
| Ball.LatchIsLastSample | ShadowGame/src/shadow.cpp:73-77 | the latch ends as the last sample |
| Ball.Integrate | ShadowGame/src/shadow.cpp:227-241 | vel.x is set from the keys; a jump happens exactly when a grounded ball sees a fresh press, giving jumpSpeed and no support; otherwise gravity acts; the latch follows the keys only while grounded; the ball moves by vel × dt |
| Ball.OutOfLightIsCircleTest | ShadowGame/src/shadow.cpp:244-251 | the light test is `distance + radius > lightRadius - 1e-3` |
| Ball.ClampToHull | ShadowGame/src/shadow.cpp:277 | the clamped query lies in the hull's x-range |
| Ball.ClampedTopExists | ShadowGame/src/shadow.cpp:277-283 | the clamped query always finds a top |
| Ball.SupportTopFound | ShadowGame/src/shadow.cpp:262-283 | a support top exists exactly when the hull has three points and the circle overlaps its x-range |
| Ball.RestsOnSameFooting | ShadowGame/src/shadow.cpp:285-287 | resting depends only on position, radius and support id |
| Ball.SupportCheck | ShadowGame/src/shadow.cpp:257-288 | only a grounded ball with an id is checked; it is dropped exactly when its platform is missing, degenerate or no longer under the circle; otherwise it rests on the platform's top with vel.y 0 |
| Ball.LandedOn | ShadowGame/src/shadow.cpp:324-343 | landing on a qualifying top rests the ball on it, inside the light, no higher than 1e-3 above where the frame started |
| Ball.LandingTops | ShadowGame/src/shadow.cpp:310-336 | the candidate top of every platform, in order |
| Ball.BestLandingIsHighest | ShadowGame/src/shadow.cpp:307-336 | the scan finds a candidate exactly when one exists; it is the highest, the first among equals |
| Ball.LandOn | ShadowGame/src/shadow.cpp:338-343 | landing changes only height, vertical speed, grounded and a non-negative support id |
| Ball.LandOnShape | ShadowGame/src/shadow.cpp:338-343 | a landing that moves the ball puts it on the chosen top with the chosen block |
| Ball.Land | ShadowGame/src/shadow.cpp:303-344 | a grounded or rising ball is untouched; a landing changes only the height, the vertical speed and the support |
| Ball.LandOntoHighest | ShadowGame/src/shadow.cpp:303-344 | a landing rests on the highest qualifying platform, inside the light, from above |
| Ball.SupportUOf | ShadowGame/src/shadow.cpp:353-356 | the fraction lies in [0, 1], is 0 left of the hull, and is the fraction of the width left of x inside a wide enough hull |
| Ball.UpdateSupportU | ShadowGame/src/shadow.cpp:346-358 | only supportU changes; a grounded ball with a block id whose first platform has three or more points gets the fraction of its x across that hull, always in [0, 1]; any other ball is unchanged |
| Ball.AirWalls | ShadowGame/src/shadow.cpp:294-298 | a grounded ball is untouched; the walls change only position and velocity |
| Ball.PhysicsStepKeepsValid | ShadowGame/src/shadow.cpp:223-359 | a frame keeps the ball's bookkeeping valid |
| Ball.AfterSupportRests | ShadowGame/src/shadow.cpp:285-344 | after the support check, a grounded ball at the end of the frame rests on a platform with vel.y 0 |
| Ball.PhysicsStepGroundedRests | ShadowGame/src/shadow.cpp:223-359 | after a frame a grounded ball rests on one of the platforms, with vel.y 0 |
| Ball.PhysicsStepLandsFromAbove | ShadowGame/src/shadow.cpp:303-344 | an airborne ball lands only on a top it was above (within 1e-3) at the start of the frame |
| Ball.PhysicsStepDropsOutsideLight | ShadowGame/src/shadow.cpp:243-251 | a ball that leaves the light ends the frame exactly as DropState of the moved ball: dropped where it moved to, and nothing else happens that frame |
| Ball.PhysicsStep | ShadowGame/src/shadow.cpp:223-359 | no contract of its own: the definition of updatePhysics's new state that Ball.ShadowBall.UpdatePhysics is proved equal to and the PhysicsStep lemmas are about |
| Ball.ShadowBall.constructor | ShadowGame/src/shadow.hpp:20-61 | the member defaults: at the origin, at rest, radius 0.22, speeds 4.2 and 15, gravity -18, airborne, id -1, fraction 0.5 |
| Ball.ShadowBall.Reset | ShadowGame/src/shadow.hpp:34-40 | reset's new state |
| Ball.ShadowBall.Drop | ShadowGame/src/shadow.hpp:54 | drop's new state |
| Ball.ShadowBall.IsGrounded | ShadowGame/src/shadow.hpp:47 | the getter returns grounded |
| Ball.ShadowBall.GetSupportObjectId | ShadowGame/src/shadow.hpp:48 | the getter returns the support id |
| Ball.ShadowBall.GetSupportU | ShadowGame/src/shadow.hpp:49 | the getter returns the support fraction |
| Ball.ShadowBall.SetSupportObjectId | ShadowGame/src/shadow.hpp:51 | only the support id changes |
| Ball.ShadowBall.SetSupportU | ShadowGame/src/shadow.hpp:52 | only the support fraction changes |
| Ball.ShadowBall.ForceGrounded | ShadowGame/src/shadow.hpp:53 | only the grounded flag changes |
| Ball.ShadowBall.JumpPressedEdge | ShadowGame/src/shadow.cpp:72-79 | reports `now && !last` and latches now, changing nothing else |
| Ball.ShadowBall.UpdatePhysics | ShadowGame/src/shadow.cpp:223-359 | updatePhysics leaves PhysicsStep's state and keeps a valid ball valid |
| Ball.ShadowBall.IntegrateStep | ShadowGame/src/shadow.cpp:227-241 | the input, gravity, jump and move phase, returning prevPos |
| Ball.ShadowBall.SupportStep | ShadowGame/src/shadow.cpp:257-288 | the support check keeps the ball as SupportCheck says or drops it |
| Ball.ShadowBall.LandStep | ShadowGame/src/shadow.cpp:303-344 | the landing block leaves Land's state |
| Ball.ShadowBall.LandOnBest | ShadowGame/src/shadow.cpp:338-343 | landing on the scan's result |
| Ball.ShadowBall.SupportUStep | ShadowGame/src/shadow.cpp:346-358 | the supportU update leaves UpdateSupportU's state |
| Ball.SideWalls | ShadowGame/src/shadow.cpp:294-298 | the air loop runs preventEnterSideWalls against each platform in turn |
| Ball.SupportTopAt | ShadowGame/src/shadow.cpp:262-283 | the support check's lookups, with their drop exits as None |
| Ball.LandingCandidate | ShadowGame/src/shadow.cpp:311-330 | one platform's landing candidate, with the loop's `continue`s |
| Ball.Qualify | ShadowGame/src/shadow.cpp:324-330 | the crossing and in-light tests of a candidate |
| Ball.ConsiderLanding | ShadowGame/src/shadow.cpp:332-335 | a candidate replaces the best only when strictly higher |
| Ball.BestLanding | ShadowGame/src/shadow.cpp:307-336 | the landing loop computes the highest qualifying top, first on ties |
| SpawnPlanner.SampleU | ShadowGame/src/scene.cpp:38 | each of the eleven sample fractions lies in [0, 1] |
| SpawnPlanner.SampleWidth | ShadowGame/src/scene.cpp:29 | the sampled width is at least the hull's width and at least 1e-5 |
| SpawnPlanner.SampleIsLitTop | ShadowGame/src/scene.cpp:37-88 | a kept sample stands the ball on the hull's top at its x, inside the light, across the sampled width, with score 10·yTop + centre bias |
| SpawnPlanner.SamplesOf | ShadowGame/src/scene.cpp:37-89 | the eleven samples of one platform, in order |
| SpawnPlanner.BestSampleIsBest | ShadowGame/src/scene.cpp:83-88 | the scan finds a sample exactly when one is lit; it has the highest score and is the first with it |
| SpawnPlanner.PickSpawnIsBestSample | ShadowGame/src/scene.cpp:17-93 | fewer than three points give nothing; otherwise the spot is the first highest-scoring lit sample, and exists exactly when some sample is lit |
| SpawnPlanner.PickSpawnIsLitTop | ShadowGame/src/scene.cpp:17-93 | a chosen spot stands on the platform's top, inside the light, at a fraction i/10 across its width |
| SpawnPlanner.OffersOf | ShadowGame/src/scene.cpp:105-113 | every platform's offer, in order |
| SpawnPlanner.LeftmostIsLeftmost | ShadowGame/src/scene.cpp:116-122 | the scan finds an offer exactly when one exists; it has the smallest minX and is the first with it |
| SpawnPlanner.OfferIsPlatformSpot | ShadowGame/src/scene.cpp:105-122 | a platform offers a spot exactly when pickSpawn succeeds on it, tagged with its minX and block id |
| SpawnPlanner.OffersArePicks | ShadowGame/src/scene.cpp:105-113 | every platform's offer exists exactly when pickSpawn succeeds, at the hull's minX |
| SpawnPlanner.OfferIsLitTop | ShadowGame/src/scene.cpp:105-122 | an offer stands on its own platform's top, inside the light |
| SpawnPlanner.LeftmostSpawnIsAnOffer | ShadowGame/src/scene.cpp:116-125 | the level spawn is one platform's offer |
| SpawnPlanner.LeftmostSpawnFound | ShadowGame/src/scene.cpp:95-126 | a level spawn exists exactly when pickSpawn succeeds on some platform |
| SpawnPlanner.LeftmostSpawnIsLeftmostPlatform | ShadowGame/src/scene.cpp:95-126 | the spawn is the spot of the leftmost platform that has one (the first among equals), with that platform's block id |
| SpawnPlanner.LeftmostOfferIsLeftmostPick | ShadowGame/src/scene.cpp:115-122 | the leftmost offer belongs to the leftmost platform with a spot |
| SpawnPlanner.SampleOf | ShadowGame/src/scene.cpp:38-72 | one turn of the sampling loop computes SampleAt |
| SpawnPlanner.SampleFromTop | ShadowGame/src/scene.cpp:71-88 | the rest of a turn, once the top is known |
| SpawnPlanner.PickSpawnOnPlatformTopInLight | ShadowGame/src/scene.cpp:17-93 | the sampling loop returns PickSpawn |
| SpawnPlanner.PickSpawn | ShadowGame/src/scene.cpp:17-93 | no contract of its own: the definition of pickSpawnOnPlatformTopInLight's result that the sampling loop is proved equal to and SpawnPlanner.PickSpawnIsBestSample characterises |
| SpawnPlanner.PlatformOffer | ShadowGame/src/scene.cpp:106-113 | one platform's turn of the leftmost loop |
| SpawnPlanner.ComputeSpawnOnLeftmostPlatformInLight | ShadowGame/src/scene.cpp:95-126 | the leftmost loop returns LeftmostSpawn |
| SpawnPlanner.LeftmostSpawn | ShadowGame/src/scene.cpp:95-126 | no contract of its own: the definition of the level spawn that the leftmost loop is proved equal to and the LeftmostSpawn lemmas characterise |
| Scenes.BeyondLightIsCircleTest | ShadowGame/src/scene.cpp:370 | the test is `distance(pos, lc) + radius > lr` |
| Scenes.DropIfOutOfLightLeavesLitBall | ShadowGame/src/scene.cpp:359-373 | only a grounded ball sticking out of the light is dropped, where it is; a ball still grounded afterwards is inside the light; validity is kept |
| Scenes.DropIfOutOfLight | ShadowGame/src/scene.cpp:359-373 | no contract of its own: the definition Scenes.Scene.DropBallIfOutOfLight is proved equal to and Scenes.DropIfOutOfLightLeavesLitBall characterises |
| Scenes.StickOnTop | ShadowGame/src/scene.cpp:377-419 | an airborne ball is untouched; a grounded ball is dropped, or it sits on top of its own platform inside the platform's x-range, keeping its support, with vel.y 0 |
| Scenes.Stick | ShadowGame/src/scene.cpp:377-419 | no contract of its own: the definition Scenes.Scene.StickBallToSupportAfterLightMove is proved equal to and Scenes.StickOnTop and Scenes.StickDrops characterise |
| Scenes.StickDrops | ShadowGame/src/scene.cpp:377-403 | a grounded ball is dropped when it sticks out of the light, when its platform is gone, or when the platform has no top at the support fraction |
| Scenes.StickKeepsValid | ShadowGame/src/scene.cpp:377-419 | re-anchoring keeps the ball valid |
| Scenes.StickXUndoesSupportU | ShadowGame/src/scene.cpp:394-397 | the x re-anchoring computes from the fraction physics stored is the x the fraction came from, so an unchanged support does not move the ball sideways |
| Scenes.GateReportsMoves | ShadowGame/src/scene.cpp:437-445 | the gate reports a move exactly when a light was seen before and the light went farther than 1e-4; it always records the light |
| Scenes.GateStep | ShadowGame/src/scene.cpp:437-445 | no contract of its own: the definition Scenes.Scene.LightMovedGate is proved equal to and Scenes.GateReportsMoves characterises |
| Scenes.StillLightIsNotAMove | ShadowGame/src/scene.cpp:437-445 | a light that stays put is never reported as moved |
| Scenes.LevelStartPlacement | ShadowGame/src/scene.cpp:246-281 | a level starts with a valid ball at rest, grounded on the leftmost lit spot (with its block and fraction) exactly when there is one, else at the light's centre, airborne; size, speeds and latch are kept |
| Scenes.LevelStart | ShadowGame/src/scene.cpp:246-281 | no contract of its own: the ball state Scenes.Scene.ResetLevel is proved to give and Scenes.LevelStartPlacement characterises |
| Scenes.ShadowIdsAreBlockIndices | ShadowGame/src/scene.cpp:319-332 | every stored shadow is tagged with a block index |
| Scenes.SpawnPlacement | ShadowGame/src/scene.cpp:258-280 | the placement step of resetLevel for any platform list with non-negative ids |
| Scenes.FrameKeepsValid | ShadowGame/src/scene.cpp:422-455 | a frame, with or without a restart, keeps the ball valid |
| Scenes.FrameBall | ShadowGame/src/scene.cpp:422-455 | no contract of its own: the ball state of one frame that Scenes.Scene.Update is proved to leave and Scenes.FrameKeepsValid is about |
| Scenes.PlatformsUpToNext | ShadowGame/src/scene.cpp:327-332 | one more hull adds its platform exactly when it has three points |
| Scenes.CastShadow | ShadowGame/src/scene.cpp:320-326 | one block's corner projections and their hull |
| Scenes.AddShadowPlatform | ShadowGame/src/scene.cpp:319-333 | one turn of the rebuild loop |
| Scenes.CastShadowPlatforms | ShadowGame/src/scene.cpp:315-334 | the rebuild loop produces the platforms of every block's hull |
| Scenes.SupportSpot | ShadowGame/src/scene.cpp:392-403 | the x-range, fraction and top lookup of the re-anchoring, with its drop exits as None |
| Scenes.Scene.constructor | ShadowGame/src/scene.cpp:284-312 | the blocks and the start light are set, the gate is empty, and the ball starts the level |
| Scenes.Scene.RebuildShadowPlatforms | ShadowGame/src/scene.cpp:315-334 | the platforms become the current light's shadows |
| Scenes.Scene.ResetLevel | ShadowGame/src/scene.cpp:246-281 | the light returns to its start, the platforms are rebuilt for it, the ball gets LevelStart's state, and the gate is untouched |
| Scenes.Scene.DropBallIfOutOfLight | ShadowGame/src/scene.cpp:359-373 | the ball gets DropIfOutOfLight's state |
| Scenes.Scene.StickBallToSupportAfterLightMove | ShadowGame/src/scene.cpp:377-419 | the ball gets Stick's state |
| Scenes.Scene.StickBallOnHull | ShadowGame/src/scene.cpp:392-418 | the ball sits at the support fraction on top of the hull, or is dropped |
| Scenes.Scene.LightMovedGate | ShadowGame/src/scene.cpp:437-445 | the gate's answer and its new memory are GateStep's |
| Scenes.Scene.AdvanceFrame | ShadowGame/src/scene.cpp:422-452 | the light moves, the platforms are rebuilt, the ball is dropped or re-anchored, and one physics step runs |
| Scenes.Scene.Update | ShadowGame/src/scene.cpp:422-458 | after a frame the gate holds the new light; a ball that did not fall ends with the frame's state; a fallen ball restarts the level with the light back at its start; the platforms always match the light; a valid scene stays valid |

## Left out

- Rendering, shaders, meshes, the camera and window handling are not modelled. This includes `uploadShadowMeshFromHulls`, the block colours and the `cardboard` tint.
- The light operator (people.cpp) is not modelled. The new light position is an input of `Scene.Update`.
- The light's footprint radius, tan(fov/2) times the height over the wall, is a parameter of each operation. Its centre is modelled (`FootprintCenter`).
- Keyboard polling is not modelled. A frame's A, D, W and SPACE states are the `Keys` input.
- The static `last` of `jumpPressedEdge` is the ball field `jumpLatch`.
- The file-level `g_hasLastLightPos` and `g_lastLightPos` are fields of the scene.
- Floats are exact reals, so rounding, infinities and NaN are not modelled. The ±infinity starting values of the loops become `Option`/`None`, or "the first element always replaces it".
- `std::sqrt` and `glm::distance` are not computed. Distance comparisons are decided exactly on squared lengths. Where the code divides by a root, the root is a parameter assumed only to be positive on positive arguments. Unit-length facts are proved for an exact root.
- `Scene.constructor` takes the blocks and the start light as parameters. `initSceneObjects` passes the four blocks of `Level` and `SpawnLight`.
- The `spawnBall_` default in `resetLevel` is not modelled: it is always overwritten before it is read.
- `resolveCircleAgainstPlatforms` is modelled and proved, but `update` does not call it.
- Three copies of the x-range and top-height code are modelled once, in `Platforms`: Scene's, ShadowBall's and the one inlined in `pickSpawnOnPlatformTopInLight`.
- BallGeometry.WallStepNeverSpeedsUp: the "never speeds up" property is proved for one resolution iteration only, not for the whole of `preventEnterSideWalls`.
- The setters `setSupportObjectId` and `setSupportU` do not check their arguments, so they can leave the ball's bookkeeping invalid. Their methods therefore promise no `Valid()`.

Where the game's design description and the code differ, the model follows the code:

- `convexHull` returns a list of three or fewer points unchanged, before any sorting or de-duplication.
- A jump clears `grounded` and the support id but keeps `supportU`.
- Re-anchoring the ball on an empty hull drops it, because the empty x-range contains no x.
