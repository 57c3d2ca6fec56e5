/** The scene's game logic around the ball: the level (four blocks and the
    light's start), the shadow platforms rebuilt from the light
    (rebuildShadowPlatforms), the level start (resetLevel), the light checks
    of a frame (dropBallIfOutOfLight, the light-moved gate and
    stickBallToSupportAfterLightMove) and one frame of update.

    The light's footprint radius (tan(fov/2) times the light's height over
    the wall) is a parameter of each operation, and the light position the
    operator moves the light to is an input of Update. */
module Scenes {
  import opened Numbers
  import opened Vectors
  import opened Boxes
  import opened ConvexHulls
  import opened Platforms
  import opened ShadowProjector
  import opened SpawnPlanner
  import opened Ball

  /** planes_.deathY(): a ball whose bottom reaches it restarts the level */
  const DeathY: real := 0.0
  /** the light counts as moved when it went farther than this */
  const LightMoveEps: real := 0.0001
  /** where the light starts every level */
  const SpawnLight: Vec3 := Vec3(-6.0, 10.0, 12.0)

  /** A block of width w, depth d and height h standing on the floor with
      its centre over (x, z). */
  function Tower(x: real, z: real, w: real, d: real, h: real): BoxObject
  {
    BoxObject(Vec3(x, h * 0.5, z), Vec3(w, h, d))
  }

  /** initSceneObjects: three towers and a plank across their tops. */
  const Level: seq<BoxObject> := [
    Tower(-8.0, 6.0, 3.2, 3.2, 9.0),
    Tower(-2.0, 6.5, 3.8, 3.4, 12.0),
    Tower(6.0, 6.0, 3.0, 4.6, 10.0),
    BoxObject(Vec3(1.5, 12.2, 6.0), Vec3(18.0, 0.45, 1.2))
  ]

  /** LightSource::footprintCenter: the point of the wall under the light. */
  function FootprintCenter(light: Vec3): Vec2
  {
    Vec2(light.x, light.y)
  }

  // -----------------------------------------------------------------------
  // The light checks

  /** `distance(pos, lightCenter) + radius > lightRadius`: the ball is not
      wholly inside the light. */
  predicate BeyondLight(s: BallState, lightCenter: Vec2, lightRadius: real)
  {
    FartherThan(s.pos, lightCenter, lightRadius - s.radius)
  }

  lemma BeyondLightIsCircleTest(s: BallState, lightCenter: Vec2, lightRadius: real, d: real)
    requires d >= 0.0 && d * d == DistSq(s.pos, lightCenter)
    ensures BeyondLight(s, lightCenter, lightRadius) <==> d + s.radius > lightRadius
  {
    FartherThanIsDistance(s.pos, lightCenter, lightRadius - s.radius, d);
  }

  /** What dropBallIfOutOfLight leaves. */
  function DropIfOutOfLight(s: BallState, lightCenter: Vec2, lightRadius: real): BallState
  {
    if s.grounded && BeyondLight(s, lightCenter, lightRadius) then DropState(s) else s
  }

  /** After the check a grounded ball lies wholly inside the light; a ball
      that was not grounded is untouched, and one that stuck out is dropped
      where it is. */
  lemma DropIfOutOfLightLeavesLitBall(s: BallState, lightCenter: Vec2, lightRadius: real)
    ensures var r := DropIfOutOfLight(s, lightCenter, lightRadius);
      && r.pos == s.pos && r.vel == s.vel
      && (r.grounded ==> r == s && !BeyondLight(r, lightCenter, lightRadius))
      && (!s.grounded ==> r == s)
      && (s.grounded && BeyondLight(s, lightCenter, lightRadius) ==> !r.grounded && r.supportObjectId == -1)
      && (ValidState(s) ==> ValidState(r))
  {
  }

  /** Where the support fraction u puts the ball across a hull:
      minX + clamp(u, 0, 1) * max(width, MinSupportWidth). */
  function StickX(hull: seq<Vec2>, u: real): real
    requires |hull| > 0
  {
    MinX(hull) + Clamp(u, 0.0, 1.0) * Max(MaxX(hull) - MinX(hull), MinSupportWidth)
  }

  /** The ball re-anchored on one hull, or dropped when the anchor falls
      outside the hull's x-range or the hull has no top there. An empty
      hull drops the ball (its x-range is empty, so every x lies outside). */
  function StickOn(s: BallState, hull: seq<Vec2>): BallState
  {
    match StickSpot(hull, s.supportU)
    case None => DropState(s)
    case Some(top) => s.(pos := Vec2(top.x, top.y + s.radius), vel := Vec2(s.vel.x, 0.0), grounded := true)
  }

  /** The point on top of the hull at fraction u of its width, if the hull
      has one there. */
  function StickSpot(hull: seq<Vec2>, u: real): Option<Vec2>
  {
    if |hull| == 0 then None
    else
      var x := StickX(hull, u);
      if x < MinX(hull) || x > MaxX(hull) then None
      else match TopY(hull, Clamp(x, MinX(hull), MaxX(hull)))
        case None => None
        case Some(y) => Some(Vec2(x, y))
  }

  /** What stickBallToSupportAfterLightMove leaves. */
  function Stick(s: BallState, platforms: seq<ShadowPoly>, lightCenter: Vec2, lightRadius: real): BallState
  {
    if !s.grounded then s
    else if BeyondLight(s, lightCenter, lightRadius) then DropState(s)
    else match FirstWithId(platforms, s.supportObjectId)
      case None => DropState(s)
      case Some(k) => StickOn(s, platforms[k].hull)
  }

  /** A re-anchored ball rests on the top of its support, within the
      support's x-range, with no vertical speed, keeping its support and
      its fraction; any other outcome is the ball untouched (not grounded)
      or dropped where it was. */
  lemma StickOnTop(s: BallState, platforms: seq<ShadowPoly>, lightCenter: Vec2, lightRadius: real)
    ensures var r := Stick(s, platforms, lightCenter, lightRadius);
      && (!s.grounded ==> r == s)
      && (s.grounded && !r.grounded ==> r == DropState(s))
      && (r.grounded ==>
            s.grounded && r.supportObjectId == s.supportObjectId && r.supportU == s.supportU &&
            r.vel == Vec2(s.vel.x, 0.0) && r.radius == s.radius &&
            exists k :: (0 <= k < |platforms| && platforms[k].objectId == s.supportObjectId &&
              |platforms[k].hull| > 0 &&
              MinX(platforms[k].hull) <= r.pos.x <= MaxX(platforms[k].hull) &&
              TopY(platforms[k].hull, r.pos.x) == Some(r.pos.y - r.radius)))
  {
    var r := Stick(s, platforms, lightCenter, lightRadius);
    if s.grounded && r.grounded {
      var k := FirstWithId(platforms, s.supportObjectId).value;
      var hull := platforms[k].hull;
      var x := StickX(hull, s.supportU);
      assert Clamp(x, MinX(hull), MaxX(hull)) == x;
      assert platforms[k].objectId == s.supportObjectId;
    }
  }

  /** The three ways a grounded ball is dropped: it sticks out of the
      light, its support block casts no platform, or the support has no
      top where the fraction puts the ball. */
  lemma StickDrops(s: BallState, platforms: seq<ShadowPoly>, lightCenter: Vec2, lightRadius: real)
    requires s.grounded
    ensures BeyondLight(s, lightCenter, lightRadius) ==>
      Stick(s, platforms, lightCenter, lightRadius) == DropState(s)
    ensures (forall k :: 0 <= k < |platforms| ==> platforms[k].objectId != s.supportObjectId) ==>
      Stick(s, platforms, lightCenter, lightRadius) == DropState(s)
    ensures (forall k :: 0 <= k < |platforms| && platforms[k].objectId == s.supportObjectId ==>
               |platforms[k].hull| == 0 || TopY(platforms[k].hull, StickX(platforms[k].hull, s.supportU)).None?) ==>
      Stick(s, platforms, lightCenter, lightRadius) == DropState(s)
  {
    StickOnTop(s, platforms, lightCenter, lightRadius);
  }

  /** Sticking keeps the ball's bookkeeping valid. */
  lemma StickKeepsValid(s: BallState, platforms: seq<ShadowPoly>, lightCenter: Vec2, lightRadius: real)
    requires ValidState(s)
    ensures ValidState(Stick(s, platforms, lightCenter, lightRadius))
  {
    StickOnTop(s, platforms, lightCenter, lightRadius);
  }

  /** The fraction updatePhysics records for a ball inside a support at
      least MinSupportWidth wide puts the ball back at the same x: with the
      support unchanged, sticking does not move the ball sideways. */
  lemma StickXUndoesSupportU(hull: seq<Vec2>, x: real)
    requires |hull| > 0 && MinX(hull) <= x <= MaxX(hull)
    requires MaxX(hull) - MinX(hull) >= MinSupportWidth
    ensures StickX(hull, SupportUOf(hull, x)) == x
  {
    var u := SupportUOf(hull, x);
    assert u * (MaxX(hull) - MinX(hull)) == x - MinX(hull);
    assert Clamp(u, 0.0, 1.0) == u;
    assert Max(MaxX(hull) - MinX(hull), MinSupportWidth) == MaxX(hull) - MinX(hull);
  }

  /** The gate's memory: whether a light position was seen, and the last one. */
  datatype LightGate = LightGate(hasLast: bool, last: Vec3)

  /** The light-moved gate of update: the first frame only records the
      light; later frames report whether the light went farther than
      LightMoveEps since the last frame, and record it. */
  function GateStep(g: LightGate, light: Vec3): (bool, LightGate)
  {
    if !g.hasLast then (false, LightGate(true, light))
    else (FartherThan3(light, g.last, LightMoveEps), LightGate(true, light))
  }

  /** The gate reports a move exactly when a light was seen before and the
      light's distance d to it exceeds LightMoveEps; it always records the
      light. */
  lemma GateReportsMoves(g: LightGate, light: Vec3, d: real)
    requires d >= 0.0 && d * d == DistSq3(light, g.last)
    ensures GateStep(g, light).0 <==> g.hasLast && d > LightMoveEps
    ensures GateStep(g, light).1 == LightGate(true, light)
  {
    FartherThan3IsDistance(light, g.last, LightMoveEps, d);
  }

  /** A light that stays where it was is never reported as moved, whatever
      the gate remembered before. */
  lemma StillLightIsNotAMove(g: LightGate, light: Vec3)
    ensures !GateStep(GateStep(g, light).1, light).0
  {
    assert DistSq3(light, light) == 0.0;
  }

  // -----------------------------------------------------------------------
  // Level start

  /** The ball resetLevel leaves for a spawn choice: on a chosen platform
      spot it stands grounded on that block with the spot's fraction;
      without one it sits at the light's centre, dropped. */
  function ResetBall(s: BallState, spawn: Option<LevelSpawn>, lightCenter: Vec2): BallState
  {
    match spawn
    case None => DropState(ResetState(s, lightCenter))
    case Some(l) =>
      var r := ResetState(s, l.pos);
      if l.objectId >= 0 then r.(grounded := true, supportObjectId := l.objectId, supportU := l.u)
      else DropState(r)
  }

  /** The ball a level starts with: the leftmost lit platform spot of the
      shadows the start light casts, or the light's centre. */
  function LevelStart(s: BallState, objects: seq<BoxObject>, spawnLight: Vec3, spawnLightRadius: real): BallState
  {
    var lc := FootprintCenter(spawnLight);
    ResetBall(s, LeftmostSpawn(ShadowsOf(objects, spawnLight), lc, spawnLightRadius, s.radius), lc)
  }

  /** A level starts with a valid, motionless ball: grounded on the chosen
      spot, with its block and fraction, exactly when the leftmost scan
      found a spot, and otherwise at the light's centre with no support.
      The ball's size, speeds and jump latch are kept. */
  lemma LevelStartPlacement(s: BallState, objects: seq<BoxObject>, spawnLight: Vec3, spawnLightRadius: real)
    ensures var r := LevelStart(s, objects, spawnLight, spawnLightRadius);
            var l := LeftmostSpawn(ShadowsOf(objects, spawnLight), FootprintCenter(spawnLight), spawnLightRadius, s.radius);
      && ValidState(r) && r.vel == Zero2
      && (r.grounded <==> l.Some?)
      && (l.Some? ==> r.pos == l.value.pos && r.supportObjectId == l.value.objectId && r.supportU == l.value.u)
      && (l.None? ==> r.pos == FootprintCenter(spawnLight) && r.supportObjectId == -1)
      && r == r.(radius := s.radius, moveSpeed := s.moveSpeed, jumpSpeed := s.jumpSpeed,
                 gravity := s.gravity, jumpLatch := s.jumpLatch)
  {
    ShadowIdsAreBlockIndices(objects, spawnLight);
    SpawnPlacement(s, ShadowsOf(objects, spawnLight), FootprintCenter(spawnLight), spawnLightRadius);
  }

  /** Every stored shadow is tagged with the index of a block. */
  lemma ShadowIdsAreBlockIndices(objects: seq<BoxObject>, light: Vec3)
    ensures forall i :: 0 <= i < |ShadowsOf(objects, light)| ==>
              0 <= ShadowsOf(objects, light)[i].objectId < |objects|
  {
    ShadowsOfShape(objects, light);
  }

  /** resetLevel's placement over any platforms tagged with block indices:
      on the leftmost lit spot, grounded on its platform, or at the light's
      centre and falling when there is none. */
  lemma SpawnPlacement(s: BallState, ps: seq<ShadowPoly>, lc: Vec2, lr: real)
    requires forall i :: 0 <= i < |ps| ==> ps[i].objectId >= 0
    ensures var l := LeftmostSpawn(ps, lc, lr, s.radius);
            var r := ResetBall(s, l, lc);
      && ValidState(r) && r.vel == Zero2
      && (r.grounded <==> l.Some?)
      && (l.Some? ==> r.pos == l.value.pos && r.supportObjectId == l.value.objectId && r.supportU == l.value.u)
      && (l.None? ==> r.pos == lc && r.supportObjectId == -1)
      && r == r.(radius := s.radius, moveSpeed := s.moveSpeed, jumpSpeed := s.jumpSpeed,
                 gravity := s.gravity, jumpLatch := s.jumpLatch)
  {
    var l := LeftmostSpawn(ps, lc, lr, s.radius);
    if l.Some? {
      LeftmostSpawnIsAnOffer(ps, lc, lr, s.radius);
      var i :| 0 <= i < |ps| && OfferOf(ps[i], lc, lr, s.radius).Some? &&
        OfferOf(ps[i], lc, lr, s.radius).value.spawn == l.value;
      OfferIsPlatformSpot(ps[i], lc, lr, s.radius);
      assert l.value.objectId == ps[i].objectId >= 0;
    }
  }

  // -----------------------------------------------------------------------
  // One frame

  /** A ball whose bottom reached the death line. */
  predicate Fallen(s: BallState)
  {
    s.pos.y - s.radius <= DeathY
  }

  /** The ball after a frame's light checks and physics, before the death
      line: dropped if it sticks out of the light, re-anchored if the light
      moved, then one physics step on the platforms of the frame's light. */
  function FrameBall(s: BallState, moved: bool, keys: Keys, dt: real, objects: seq<BoxObject>,
                     light: Vec3, lightRadius: real, sqrt: real -> real): BallState
    requires SqrtPositive(sqrt)
  {
    var platforms := ShadowsOf(objects, light);
    var lc := FootprintCenter(light);
    var d := DropIfOutOfLight(s, lc, lightRadius);
    var st := if moved then Stick(d, platforms, lc, lightRadius) else d;
    PhysicsStep(st, keys, dt, platforms, lc, lightRadius, sqrt)
  }

  /** A frame, with or without a level restart, keeps the ball valid. */
  lemma FrameKeepsValid(s: BallState, moved: bool, keys: Keys, dt: real, objects: seq<BoxObject>,
                        light: Vec3, lightRadius: real, spawnLight: Vec3, spawnLightRadius: real,
                        sqrt: real -> real)
    requires SqrtPositive(sqrt) && ValidState(s)
    ensures var p := FrameBall(s, moved, keys, dt, objects, light, lightRadius, sqrt);
      && ValidState(p)
      && ValidState(LevelStart(p, objects, spawnLight, spawnLightRadius))
  {
    var platforms := ShadowsOf(objects, light);
    var lc := FootprintCenter(light);
    var d := DropIfOutOfLight(s, lc, lightRadius);
    DropIfOutOfLightLeavesLitBall(s, lc, lightRadius);
    var st := if moved then Stick(d, platforms, lc, lightRadius) else d;
    StickKeepsValid(d, platforms, lc, lightRadius);
    PhysicsStepKeepsValid(st, keys, dt, platforms, lc, lightRadius, sqrt);
    var p := FrameBall(s, moved, keys, dt, objects, light, lightRadius, sqrt);
    LevelStartPlacement(p, objects, spawnLight, spawnLightRadius);
  }

  /** One more hull adds its platform when it has three points. */
  lemma PlatformsUpToNext(hulls: seq<seq<Vec2>>, i: nat, hull: seq<Vec2>)
    requires i < |hulls| && hull == hulls[i]
    ensures PlatformsUpTo(hulls, i + 1) ==
      if |hull| >= 3 then PlatformsUpTo(hulls, i) + [ShadowPoly(i, hull)] else PlatformsUpTo(hulls, i)
  {
  }

  /** One block's turn in rebuildShadowPlatforms: its eight corners
      projected onto the wall from the light, and their convex hull. */
  method CastShadow(b: BoxObject, light: Vec3) returns (hull: seq<Vec2>)
    ensures hull == ShadowOf(b, light)
  {
    var corners := WorldCorners(b);
    var pts: seq<Vec2> := [];
    for c := 0 to |corners|
      invariant pts == ProjectedCorners(b, light)[..c]
    {
      pts := pts + [ProjectToWallZ0(light, corners[c])];
    }
    assert pts == ProjectedCorners(b, light);
    hull := ConvexHull(pts);
  }

  /** One turn of rebuildShadowPlatforms' loop: block i's shadow joins the
      platforms when its hull has three points. */
  method AddShadowPlatform(platforms: seq<ShadowPoly>, objects: seq<BoxObject>, light: Vec3, i: nat,
                           ghost hulls: seq<seq<Vec2>>)
    returns (r: seq<ShadowPoly>)
    requires i < |objects| && hulls == ShadowHulls(objects, light)
    requires platforms == PlatformsUpTo(hulls, i)
    ensures r == PlatformsUpTo(hulls, i + 1)
  {
    var hull := CastShadow(objects[i], light);
    ShadowHullsAt(objects, light, i);
    PlatformsUpToNext(hulls, i, hull);
    r := platforms;
    if |hull| >= 3 {
      r := r + [ShadowPoly(i, hull)];
    }
  }

  /** The x-range, fraction and top lookup of stickBallToSupportAfterLightMove. */
  method SupportSpot(hull: seq<Vec2>, su: real) returns (spot: Option<Vec2>)
    ensures spot == StickSpot(hull, su)
  {
    var range := XRange(hull);
    if range.None? {
      return None;
    }
    var minX, maxX := range.value.minX, range.value.maxX;
    assert minX == MinX(hull) && maxX == MaxX(hull);
    var w := Max(maxX - minX, MinSupportWidth);
    var u := Clamp(su, 0.0, 1.0);
    var x := minX + u * w;
    assert x == StickX(hull, su);
    if x < minX || x > maxX {
      return None;
    }
    var xQuery := Clamp(x, minX, maxX);
    var yTop := TopYAtX(hull, xQuery);
    if yTop.None? {
      return None;
    }
    spot := Some(Vec2(x, yTop.value));
  }

  /** The loop of rebuildShadowPlatforms over all blocks. */
  method CastShadowPlatforms(objects: seq<BoxObject>, light: Vec3, ghost hulls: seq<seq<Vec2>>)
    returns (platforms: seq<ShadowPoly>)
    requires hulls == ShadowHulls(objects, light)
    ensures platforms == PlatformsUpTo(hulls, |objects|)
  {
    platforms := [];
    var i := 0;
    while i < |objects|
      invariant i <= |objects| && platforms == PlatformsUpTo(hulls, i)
    {
      platforms := AddShadowPlatform(platforms, objects, light, i, hulls);
      i := i + 1;
    }
  }

  /** The scene: the blocks, the light, the shadow platforms it casts, the
      light-moved gate's memory and the ball. */
  class Scene {
    const objects: seq<BoxObject>
    const spawnLight: Vec3
    const ball: ShadowBall
    var lightPos: Vec3
    var shadowPlatforms: seq<ShadowPoly>
    /** the process-wide g_hasLastLightPos and g_lastLightPos */
    var hasLastLightPos: bool
    var lastLightPos: Vec3

    /** The platforms are the current light's shadows and the ball is valid. */
    predicate Valid()
      reads this, ball
    {
      shadowPlatforms == ShadowsOf(objects, lightPos) && ball.Valid()
    }

    function Gate(): LightGate
      reads this
    {
      LightGate(hasLastLightPos, lastLightPos)
    }

    /** initSceneObjects: the level's blocks (Level in the game), the light
        at its start (SpawnLight), and the first level start. */
    constructor(blocks: seq<BoxObject>, startLight: Vec3, spawnLightRadius: real)
      ensures objects == blocks && spawnLight == startLight && lightPos == startLight
      ensures Gate() == LightGate(false, Vec3(0.0, 0.0, 0.0))
      ensures ball.State() == LevelStart(Initial, blocks, startLight, spawnLightRadius)
      ensures Valid()
    {
      objects := blocks;
      spawnLight := startLight;
      ball := new ShadowBall();
      lightPos := startLight;
      shadowPlatforms := [];
      hasLastLightPos := false;
      lastLightPos := Vec3(0.0, 0.0, 0.0);
      new;
      ResetLevel(spawnLightRadius);
    }

    /** rebuildShadowPlatforms: project each block's corners from the
        light, take their hull, and keep it when it has three points. */
    method RebuildShadowPlatforms()
      modifies this`shadowPlatforms
      ensures shadowPlatforms == ShadowsOf(objects, lightPos)
    {
      ghost var hulls := ShadowHulls(objects, lightPos);
      var platforms := CastShadowPlatforms(objects, lightPos, hulls);
      shadowPlatforms := platforms;
    }

    /** resetLevel: put the light back at its start, rebuild the platforms
        and place the ball on the level's spawn. */
    method ResetLevel(spawnLightRadius: real)
      modifies this`lightPos, this`shadowPlatforms, ball
      ensures lightPos == spawnLight && shadowPlatforms == ShadowsOf(objects, spawnLight)
      ensures ball.State() == LevelStart(old(ball.State()), objects, spawnLight, spawnLightRadius)
      ensures Valid() && Gate() == old(Gate())
    {
      ghost var s := ball.State();
      lightPos := spawnLight;
      RebuildShadowPlatforms();
      var lc := FootprintCenter(lightPos);
      var spawn := ComputeSpawnOnLeftmostPlatformInLight(shadowPlatforms, lc, spawnLightRadius, ball.radius);
      var p, supportObj, supportU := lc, -1, CentreU;
      if spawn.Some? {
        p, supportObj, supportU := spawn.value.pos, spawn.value.objectId, spawn.value.u;
      }
      ball.Reset(p);
      ball.vel := Zero2;
      if supportObj >= 0 {
        ball.ForceGrounded(true);
        ball.SetSupportObjectId(supportObj);
        ball.SetSupportU(supportU);
      } else {
        ball.Drop();
      }
      LevelStartPlacement(s, objects, spawnLight, spawnLightRadius);
    }

    /** dropBallIfOutOfLight */
    method DropBallIfOutOfLight(lightRadius: real)
      modifies ball
      ensures ball.State() == DropIfOutOfLight(old(ball.State()), FootprintCenter(lightPos), lightRadius)
    {
      var grounded := ball.IsGrounded();
      if !grounded {
        return;
      }
      var lc := FootprintCenter(lightPos);
      if FartherThan(ball.pos, lc, lightRadius - ball.radius) {
        ball.Drop();
      }
    }

    /** stickBallToSupportAfterLightMove */
    method StickBallToSupportAfterLightMove(lightRadius: real)
      modifies ball
      ensures ball.State() == Stick(old(ball.State()), shadowPlatforms, FootprintCenter(lightPos), lightRadius)
    {
      var grounded := ball.IsGrounded();
      if !grounded {
        return;
      }
      var lc := FootprintCenter(lightPos);
      if FartherThan(ball.pos, lc, lightRadius - ball.radius) {
        ball.Drop();
        return;
      }
      var objId := ball.GetSupportObjectId();
      var k := FindPlatformByObjectId(shadowPlatforms, objId);
      if k.None? {
        ball.Drop();
        return;
      }
      StickBallOnHull(shadowPlatforms[k.value].hull);
    }

    /** The rest of stickBallToSupportAfterLightMove once the support's
        hull is found: the ball goes back to its fraction of the hull's
        width, on top of the hull there, or is dropped. */
    method StickBallOnHull(hull: seq<Vec2>)
      modifies ball
      ensures ball.State() == StickOn(old(ball.State()), hull)
    {
      var su := ball.GetSupportU();
      var spot := SupportSpot(hull, su);
      if spot.None? {
        ball.Drop();
        return;
      }
      ball.pos := Vec2(spot.value.x, spot.value.y + ball.radius);
      ball.vel := Vec2(ball.vel.x, 0.0);
      ball.ForceGrounded(true);
    }

    /** The light-moved gate of update. */
    method LightMovedGate() returns (moved: bool)
      modifies this`hasLastLightPos, this`lastLightPos
      ensures (moved, Gate()) == GateStep(old(Gate()), lightPos)
    {
      moved := false;
      if !hasLastLightPos {
        hasLastLightPos := true;
        lastLightPos := lightPos;
      } else {
        moved := FartherThan3(lightPos, lastLightPos, LightMoveEps);
        lastLightPos := lightPos;
      }
    }

    /** update: the light moves to newLightPos, the platforms follow it,
        the ball is dropped if it sticks out of the light and re-anchored
        if the light moved, one physics step runs, and a ball below the
        death line restarts the level. */
    method Update(keys: Keys, dt: real, newLightPos: Vec3, lightRadius: real, spawnLightRadius: real,
                  sqrt: real -> real)
      requires SqrtPositive(sqrt)
      modifies this`lightPos, this`shadowPlatforms, this`hasLastLightPos, this`lastLightPos, ball
      ensures Gate() == LightGate(true, newLightPos)
      ensures var p := FrameBall(old(ball.State()), GateStep(old(Gate()), newLightPos).0, keys, dt,
                                 objects, newLightPos, lightRadius, sqrt);
        && (!Fallen(p) ==> ball.State() == p && lightPos == newLightPos)
        && (Fallen(p) ==> ball.State() == LevelStart(p, objects, spawnLight, spawnLightRadius) &&
                          lightPos == spawnLight)
      ensures shadowPlatforms == ShadowsOf(objects, lightPos)
      ensures old(ball.Valid()) ==> Valid()
    {
      ghost var s := ball.State();
      ghost var g := Gate();
      if ball.Valid() {
        FrameKeepsValid(s, GateStep(g, newLightPos).0, keys, dt, objects, newLightPos, lightRadius,
                        spawnLight, spawnLightRadius, sqrt);
      }
      AdvanceFrame(keys, dt, newLightPos, lightRadius, sqrt);
      if ball.pos.y - ball.radius <= DeathY {
        ResetLevel(spawnLightRadius);
      }
    }

    /** update up to the death check: move the light, rebuild the
        platforms, drop or re-anchor the ball, one physics step. */
    method AdvanceFrame(keys: Keys, dt: real, newLightPos: Vec3, lightRadius: real, sqrt: real -> real)
      requires SqrtPositive(sqrt)
      modifies this`lightPos, this`shadowPlatforms, this`hasLastLightPos, this`lastLightPos, ball
      ensures lightPos == newLightPos && shadowPlatforms == ShadowsOf(objects, newLightPos)
      ensures Gate() == LightGate(true, newLightPos)
      ensures ball.State() == FrameBall(old(ball.State()), GateStep(old(Gate()), newLightPos).0, keys, dt,
                                        objects, newLightPos, lightRadius, sqrt)
    {
      lightPos := newLightPos;
      RebuildShadowPlatforms();
      var lc := FootprintCenter(lightPos);
      DropBallIfOutOfLight(lightRadius);
      var moved := LightMovedGate();
      if moved {
        StickBallToSupportAfterLightMove(lightRadius);
      }
      ball.UpdatePhysics(keys, dt, shadowPlatforms, lc, lightRadius, sqrt);
    }
  }
}
