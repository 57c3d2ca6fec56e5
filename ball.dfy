/** The player: a ball that lives in the shadows on the wall (ShadowBall).
    One frame of updatePhysics runs in phases, each a function here:
    input and gravity (Integrate), the light test (OutOfLight), the grounded
    support check (SupportCheck), the side and ceiling walls while airborne
    (WallsUpTo), one-way landing (Land) and the support parameter update
    (UpdateSupportU). PhysicsStep chains them, and the ShadowBall class's
    UpdatePhysics is proved to leave exactly PhysicsStep's state.

    Keyboard input is the Keys value of the frame; the light is a circle
    (centre, radius) on the wall. */
module Ball {
  import opened Numbers
  import opened Vectors
  import opened Platforms
  import opened BallGeometry

  const DefaultRadius: real := 0.22
  const DefaultMoveSpeed: real := 4.2
  const DefaultJumpSpeed: real := 15.0
  const DefaultGravity: real := -18.0
  /** support parameter after construction and reset */
  const CentreU: real := 0.5

  /** margin of the per-frame light test */
  const LightMargin: real := 0.001
  /** tolerance of the landing crossing test */
  const LandingEps: real := 0.001
  /** narrowest platform width the support parameter divides by */
  const MinSupportWidth: real := 0.00001

  /** The keys updatePhysics polls: A, D, W and SPACE. */
  datatype Keys = Keys(a: bool, d: bool, w: bool, space: bool)

  /** Everything updatePhysics reads or writes on a ball. jumpLatch is the
      "last" flag of jumpPressedEdge. */
  datatype BallState = BallState(
    pos: Vec2, vel: Vec2,
    radius: real, moveSpeed: real, jumpSpeed: real, gravity: real,
    grounded: bool, supportObjectId: int, supportU: real,
    jumpLatch: bool)

  /** A freshly constructed ball. */
  const Initial: BallState :=
    BallState(Zero2, Zero2, DefaultRadius, DefaultMoveSpeed, DefaultJumpSpeed, DefaultGravity,
              false, -1, CentreU, false)

  /** The ball's bookkeeping: a grounded ball names the block it stands on,
      an airborne one names none, and the support parameter is a fraction. */
  predicate ValidState(s: BallState)
  {
    (s.grounded ==> s.supportObjectId >= 0) &&
    (!s.grounded ==> s.supportObjectId == -1) &&
    0.0 <= s.supportU <= 1.0
  }

  /** drop() */
  function DropState(s: BallState): (r: BallState)
    ensures ValidState(r) && !r.grounded
    ensures r.pos == s.pos && r.vel == s.vel && r.jumpLatch == s.jumpLatch
  {
    s.(grounded := false, supportObjectId := -1, supportU := 0.0)
  }

  /** reset(p) */
  function ResetState(s: BallState, p: Vec2): (r: BallState)
    ensures ValidState(r) && !r.grounded
    ensures r.pos == p && r.vel == Zero2 && r.supportU == CentreU
  {
    s.(pos := p, vel := Zero2, grounded := false, supportObjectId := -1, supportU := CentreU)
  }

  // -----------------------------------------------------------------------
  // Input

  /** The horizontal direction A and D ask for. */
  function Direction(k: Keys): (dir: real)
    ensures dir == -1.0 <==> k.a && !k.d
    ensures dir == 1.0 <==> k.d && !k.a
    ensures dir == 0.0 <==> k.a == k.d
  {
    (if k.a then -1.0 else 0.0) + (if k.d then 1.0 else 0.0)
  }

  /** W or SPACE is held. */
  predicate JumpHeld(k: Keys) { k.w || k.space }

  /** jumpPressedEdge: the result and the new latch. */
  function JumpEdge(now: bool, last: bool): (bool, bool)
  {
    (now && !last, now)
  }

  /** The edges a run of key samples produces from a starting latch. */
  function Edges(keys: seq<bool>, last: bool): (r: seq<bool>)
    ensures |r| == |keys|
    decreases |keys|
  {
    if keys == [] then []
    else
      var (edge, latch) := JumpEdge(keys[0], last);
      [edge] + Edges(keys[1..], latch)
  }

  /** The latch after a run of key samples. */
  function LatchAfter(keys: seq<bool>, last: bool): bool
    decreases |keys|
  {
    if keys == [] then last else LatchAfter(keys[1..], JumpEdge(keys[0], last).1)
  }

  /** The sample before sample i: the latch for the first one. */
  function Before(keys: seq<bool>, last: bool, i: nat): bool
    requires i < |keys|
  {
    if i == 0 then last else keys[i - 1]
  }

  /** A jump is reported exactly for a sample that is pressed when the one
      before it (or the latch, for the first) was released, so holding the
      key down jumps once. */
  lemma {:induction false} EdgesArePresses(keys: seq<bool>, last: bool)
    ensures forall i :: 0 <= i < |keys| ==> (Edges(keys, last)[i] <==> keys[i] && !Before(keys, last, i))
    decreases |keys|
  {
    if keys != [] {
      var tail := keys[1..];
      EdgesArePresses(tail, keys[0]);
      var e := Edges(keys, last);
      assert e == [keys[0] && !last] + Edges(tail, keys[0]);
      forall i | 0 <= i < |keys|
        ensures e[i] <==> keys[i] && !Before(keys, last, i)
      {
        if i > 0 {
          assert e[i] == Edges(tail, keys[0])[i - 1];
          assert tail[i - 1] == keys[i];
          assert Before(tail, keys[0], i - 1) == Before(keys, last, i);
        }
      }
    }
  }

  /** The latch ends as the last sample. */
  lemma {:induction false} LatchIsLastSample(keys: seq<bool>, last: bool)
    requires |keys| > 0
    ensures LatchAfter(keys, last) == keys[|keys| - 1]
    decreases |keys|
  {
    var tail := keys[1..];
    if |tail| > 0 {
      LatchIsLastSample(tail, keys[0]);
      assert tail[|tail| - 1] == keys[|keys| - 1];
    }
  }

  /** Input, gravity, the jump and the move (updatePhysics up to prevPos and
      pos += vel * dt). The jump edge is only polled while grounded. */
  function Integrate(s: BallState, k: Keys, dt: real): (r: BallState)
    // the horizontal speed is set from the keys, whatever it was
    ensures r.vel.x == Direction(k) * s.moveSpeed
    // a jump happens exactly when a grounded ball sees a fresh press
    ensures (s.grounded && !r.grounded) <==> s.grounded && JumpHeld(k) && !s.jumpLatch
    ensures !s.grounded ==> !r.grounded
    ensures s.grounded && !r.grounded ==> r.vel.y == s.jumpSpeed && r.supportObjectId == -1
    ensures r.grounded == s.grounded ==>
      r.vel.y == s.vel.y + s.gravity * dt && r.supportObjectId == s.supportObjectId
    // the latch follows the keys only while grounded
    ensures r.jumpLatch == if s.grounded then JumpHeld(k) else s.jumpLatch
    ensures r.pos == Add(s.pos, Scale(r.vel, dt))
    ensures r.supportU == s.supportU && r.radius == s.radius
  {
    var vx := Direction(k) * s.moveSpeed;
    var vy := s.vel.y + s.gravity * dt;
    var jump := s.grounded && JumpEdge(JumpHeld(k), s.jumpLatch).0;
    var latch := if s.grounded then JumpEdge(JumpHeld(k), s.jumpLatch).1 else s.jumpLatch;
    var v := if jump then Vec2(vx, s.jumpSpeed) else Vec2(vx, vy);
    s.(vel := v, pos := Add(s.pos, Scale(v, dt)), grounded := s.grounded && !jump,
       supportObjectId := if jump then -1 else s.supportObjectId, jumpLatch := latch)
  }

  // -----------------------------------------------------------------------
  // Light test

  /** The ball is not wholly inside the light (with a 1e-3 margin). */
  predicate OutOfLight(pos: Vec2, radius: real, lightCenter: Vec2, lightRadius: real)
  {
    FartherThan(pos, lightCenter, lightRadius - LightMargin - radius)
  }

  /** OutOfLight is updatePhysics's test `distance + radius > lightRadius - eps`. */
  lemma OutOfLightIsCircleTest(pos: Vec2, radius: real, lightCenter: Vec2, lightRadius: real, d: real)
    requires d >= 0.0 && d * d == DistSq(pos, lightCenter)
    ensures OutOfLight(pos, radius, lightCenter, lightRadius) <==> d + radius > lightRadius - LightMargin
  {
    FartherThanIsDistance(pos, lightCenter, lightRadius - LightMargin - radius, d);
  }

  // -----------------------------------------------------------------------
  // Platform queries shared by the support check, landing and supportU

  /** std::clamp(x, minX, maxX) over a hull's x-range. */
  function ClampToHull(hull: seq<Vec2>, x: real): (q: real)
    requires |hull| > 0
    ensures MinX(hull) <= q <= MaxX(hull)
  {
    assert MinX(hull) <= Xs(hull)[0] <= MaxX(hull);
    Clamp(x, MinX(hull), MaxX(hull))
  }

  /** The circle's x-extent overlaps the hull's x-range (not a centre test). */
  predicate OverlapsX(hull: seq<Vec2>, x: real, radius: real)
    requires |hull| > 0
  {
    !(x + radius < MinX(hull) || x - radius > MaxX(hull))
  }

  /** The top of a hull at the clamped query x. */
  function ClampedTop(hull: seq<Vec2>, x: real): Option<real>
    requires |hull| > 0
  {
    TopY(hull, ClampToHull(hull, x))
  }

  /** The clamped query always finds a top: the "no top" exits of the
      support check and of landing are never taken. */
  lemma ClampedTopExists(hull: seq<Vec2>, x: real)
    requires |hull| > 0
    ensures ClampedTop(hull, x).Some?
  {
    TopYCoversXRange(hull, ClampToHull(hull, x));
  }

  /** The top a hull offers a circle centred above x: the top at the
      clamped x, for a hull of at least three points whose x-range the
      circle overlaps. Such a hull always has one there. */
  function SupportTop(hull: seq<Vec2>, x: real, radius: real): Option<real>
  {
    if |hull| < 3 || !OverlapsX(hull, x, radius) then None else ClampedTop(hull, x)
  }

  /** A hull offers a top exactly when it has three points and the circle
      overlaps its x-range: the missing-top exits are never taken. */
  lemma SupportTopFound(hull: seq<Vec2>, x: real, radius: real)
    ensures SupportTop(hull, x, radius).Some? <==> |hull| >= 3 && OverlapsX(hull, x, radius)
  {
    if |hull| >= 3 {
      ClampedTopExists(hull, x);
    }
  }

  /** The ball rests on a platform: it names the platform's block, and its
      centre sits one radius above the top the platform offers it. */
  ghost predicate RestsOn(s: BallState, p: ShadowPoly)
  {
    p.objectId == s.supportObjectId && SupportTop(p.hull, s.pos.x, s.radius) == Some(s.pos.y - s.radius)
  }

  /** Resting depends only on the position, the radius and the support id. */
  lemma RestsOnSameFooting(s: BallState, t: BallState, p: ShadowPoly)
    requires s.pos == t.pos && s.radius == t.radius && s.supportObjectId == t.supportObjectId
    ensures RestsOn(s, p) <==> RestsOn(t, p)
  {
  }

  // -----------------------------------------------------------------------
  // Grounded support check

  /** None: the ball is dropped and the frame ends. Some: the frame goes on
      with this state (snapped onto the support's top if grounded). */
  function SupportCheck(m: BallState, platforms: seq<ShadowPoly>): (r: Option<BallState>)
    // only a grounded ball with a support id is checked
    ensures !(m.grounded && m.supportObjectId >= 0) ==> r == Some(m)
    // a grounded ball that survives the check rests on its support, with
    // no vertical speed, and only its height and vertical speed change
    ensures m.grounded && m.supportObjectId >= 0 && r.Some? ==>
      FirstWithId(platforms, m.supportObjectId).Some? &&
      RestsOn(r.value, platforms[FirstWithId(platforms, m.supportObjectId).value]) &&
      r.value == m.(pos := Vec2(m.pos.x, r.value.pos.y), vel := Vec2(m.vel.x, 0.0))
    // it is dropped exactly when the support is gone, degenerate or no
    // longer under the circle
    ensures m.grounded && m.supportObjectId >= 0 ==>
      (r.None? <==> FirstWithId(platforms, m.supportObjectId).None? ||
                    |platforms[FirstWithId(platforms, m.supportObjectId).value].hull| < 3 ||
                    !OverlapsX(platforms[FirstWithId(platforms, m.supportObjectId).value].hull, m.pos.x, m.radius))
  {
    if !(m.grounded && m.supportObjectId >= 0) then Some(m)
    else match FirstWithId(platforms, m.supportObjectId)
      case None => None
      case Some(i) =>
        SupportTopFound(platforms[i].hull, m.pos.x, m.radius);
        match SupportTop(platforms[i].hull, m.pos.x, m.radius)
        case None => None
        case Some(y) =>
          var r := m.(pos := Vec2(m.pos.x, y + m.radius), vel := Vec2(m.vel.x, 0.0));
          assert r.pos.y - r.radius == y;
          Some(r)
  }

  // -----------------------------------------------------------------------
  // Side and ceiling walls while airborne

  /** preventEnterSideWalls against the first k platforms in turn. */
  function WallsUpTo(platforms: seq<ShadowPoly>, prevPos: Vec2, pos: Vec2, vel: Vec2, radius: real, sqrt: real -> real, k: nat): (Vec2, Vec2)
    requires SqrtPositive(sqrt) && k <= |platforms|
  {
    if k == 0 then (pos, vel)
    else
      var before := WallsUpTo(platforms, prevPos, pos, vel, radius, sqrt, k - 1);
      SideWallsOf(platforms[k - 1].hull, prevPos, before.0, before.1, radius, sqrt)
  }

  // -----------------------------------------------------------------------
  // One-way landing

  /** The ball's bottom went from at or above the top to at or below it
      this frame (within 1e-3 both ways). */
  predicate Crossed(y: real, prevPos: Vec2, pos: Vec2, radius: real)
  {
    prevPos.y - radius >= y - LandingEps && pos.y - radius <= y + LandingEps
  }

  /** The top a platform offers a falling ball this frame, if it qualifies:
      the top it offers the circle, crossed this frame, with the landed
      ball wholly inside the light. */
  function LandingTop(p: ShadowPoly, prevPos: Vec2, pos: Vec2, radius: real, lightCenter: Vec2, lightRadius: real): Option<real>
  {
    QualifyingTop(SupportTop(p.hull, pos.x, radius), prevPos, pos, radius, lightCenter, lightRadius)
  }

  /** A top t offered by a platform qualifies when it was crossed and the
      ball landed on it would lie wholly inside the light. */
  function QualifyingTop(t: Option<real>, prevPos: Vec2, pos: Vec2, radius: real, lightCenter: Vec2, lightRadius: real): Option<real>
  {
    if t.None? || !Crossed(t.value, prevPos, pos, radius) then None
    else if FartherThan(Vec2(pos.x, t.value + radius), lightCenter, lightRadius - radius) then None
    else t
  }

  /** Landing on a qualifying platform leaves the ball resting on it, in
      the light, no higher than 1e-3 above where the frame started. */
  lemma LandedOn(w: BallState, l: BallState, p: ShadowPoly, prevPos: Vec2, lightCenter: Vec2, lightRadius: real, y: real)
    requires LandingTop(p, prevPos, w.pos, w.radius, lightCenter, lightRadius) == Some(y)
    requires l.pos == Vec2(w.pos.x, y + w.radius) && l.radius == w.radius && l.supportObjectId == p.objectId
    ensures RestsOn(l, p) && !FartherThan(l.pos, lightCenter, lightRadius - w.radius) && prevPos.y >= l.pos.y - LandingEps
  {
    assert l.pos.y - l.radius == y;
  }

  /** The candidate tops, platform by platform. */
  function LandingTops(platforms: seq<ShadowPoly>, prevPos: Vec2, pos: Vec2, radius: real, lightCenter: Vec2, lightRadius: real): (r: seq<Option<real>>)
    ensures |r| == |platforms|
    ensures forall i :: 0 <= i < |platforms| ==> r[i] == LandingTop(platforms[i], prevPos, pos, radius, lightCenter, lightRadius)
  {
    seq(|platforms|, i requires 0 <= i < |platforms| => LandingTop(platforms[i], prevPos, pos, radius, lightCenter, lightRadius))
  }

  /** The platforms' ids, in order. */
  function Ids(platforms: seq<ShadowPoly>): (r: seq<int>)
    ensures |r| == |platforms| && forall i :: 0 <= i < |platforms| ==> r[i] == platforms[i].objectId
  {
    seq(|platforms|, i requires 0 <= i < |platforms| => platforms[i].objectId)
  }

  datatype Landing = Landing(objectId: int, top: real)

  /** One candidate considered: it replaces the best so far only when
      strictly higher. */
  function Consider(best: Option<Landing>, id: int, y: Option<real>): Option<Landing>
  {
    if y.Some? && (best.None? || y.value > best.value.top) then Some(Landing(id, y.value)) else best
  }

  /** The landing scan over the first k candidates: the highest top, the
      first one on ties. None stands for bestYTop still at -infinity. */
  function BestLandingUpTo(ids: seq<int>, tops: seq<Option<real>>, k: nat): Option<Landing>
    requires k <= |ids| == |tops|
  {
    if k == 0 then None else Consider(BestLandingUpTo(ids, tops, k - 1), ids[k - 1], tops[k - 1])
  }

  /** The scan finds a candidate exactly when there is one; its top is the
      highest, and it is the first candidate with that top. */
  lemma {:induction false} BestLandingIsHighest(ids: seq<int>, tops: seq<Option<real>>, k: nat)
    requires k <= |ids| == |tops|
    ensures var r := BestLandingUpTo(ids, tops, k);
      && (r.None? <==> forall i :: 0 <= i < k ==> tops[i].None?)
      && (r.Some? ==> forall i :: 0 <= i < k && tops[i].Some? ==> tops[i].value <= r.value.top)
      && (r.Some? ==> exists i :: (0 <= i < k && tops[i] == Some(r.value.top) && ids[i] == r.value.objectId &&
            forall j :: 0 <= j < i && tops[j].Some? ==> tops[j].value < r.value.top))
  {
    if k > 0 {
      BestLandingIsHighest(ids, tops, k - 1);
      var prev := BestLandingUpTo(ids, tops, k - 1);
      var r := BestLandingUpTo(ids, tops, k);
      assert r == Consider(prev, ids[k - 1], tops[k - 1]);
      if r != prev {
        // the new candidate is strictly higher than every earlier one
        assert r == Some(Landing(ids[k - 1], tops[k - 1].value));
        assert forall j :: 0 <= j < k - 1 && tops[j].Some? ==> tops[j].value < r.value.top;
      } else if r.Some? {
        var i :| 0 <= i < k - 1 && tops[i] == Some(r.value.top) && ids[i] == r.value.objectId &&
          forall j :: 0 <= j < i && tops[j].Some? ==> tops[j].value < r.value.top;
      }
    }
  }

  /** Landing on the scan's result: only a real block id is landed on. */
  function LandOn(w: BallState, best: Option<Landing>): (l: BallState)
    ensures l == w || (l.grounded && l.supportObjectId >= 0 &&
                       l == w.(pos := Vec2(w.pos.x, l.pos.y), vel := Vec2(w.vel.x, 0.0), grounded := true, supportObjectId := l.supportObjectId))
  {
    match best
    case Some(b) =>
      if b.objectId >= 0 then
        w.(pos := Vec2(w.pos.x, b.top + w.radius), vel := Vec2(w.vel.x, 0.0), grounded := true, supportObjectId := b.objectId)
      else w
    case None => w
  }

  /** The landing block of updatePhysics: an airborne ball that is not
      rising lands on the best candidate, if its id is a real one. */
  function Land(w: BallState, prevPos: Vec2, platforms: seq<ShadowPoly>, lightCenter: Vec2, lightRadius: real): (l: BallState)
    // nothing happens to a grounded or rising ball
    ensures w.grounded || w.vel.y > 0.0 ==> l == w
    // landing changes only the height, the vertical speed and the support
    ensures l == w || (l.grounded && l.supportObjectId >= 0 &&
                       l == w.(pos := Vec2(w.pos.x, l.pos.y), vel := Vec2(w.vel.x, 0.0), grounded := true, supportObjectId := l.supportObjectId))
  {
    if w.grounded || w.vel.y > 0.0 then w
    else LandOn(w, BestLandingUpTo(Ids(platforms), LandingTops(platforms, prevPos, w.pos, w.radius, lightCenter, lightRadius), |platforms|))
  }

  /** A ball that lands rests on a qualifying platform, no qualifying
      platform is higher, and it was above that top (within 1e-3) at the
      start of the frame (platforms are one-way) and sits wholly inside the
      light. */
  lemma LandOntoHighest(w: BallState, prevPos: Vec2, platforms: seq<ShadowPoly>, lightCenter: Vec2, lightRadius: real)
    requires Land(w, prevPos, platforms, lightCenter, lightRadius) != w
    ensures var l := Land(w, prevPos, platforms, lightCenter, lightRadius);
      prevPos.y >= l.pos.y - LandingEps &&
      !FartherThan(l.pos, lightCenter, lightRadius - w.radius) &&
      (exists i :: 0 <= i < |platforms| && RestsOn(l, platforms[i])) &&
      (forall i :: 0 <= i < |platforms| && LandingTop(platforms[i], prevPos, w.pos, w.radius, lightCenter, lightRadius).Some? ==>
         LandingTop(platforms[i], prevPos, w.pos, w.radius, lightCenter, lightRadius).value <= l.pos.y - l.radius)
  {
    var tops := LandingTops(platforms, prevPos, w.pos, w.radius, lightCenter, lightRadius);
    var ids := Ids(platforms);
    var best := BestLandingUpTo(ids, tops, |platforms|);
    var l := Land(w, prevPos, platforms, lightCenter, lightRadius);
    assert l == LandOn(w, best);
    LandOnShape(w, best);
    BestLandingIsHighest(ids, tops, |platforms|);
    var b := best.value;
    assert l.pos.y - l.radius == b.top;
    var i :| 0 <= i < |platforms| && tops[i] == Some(b.top) && ids[i] == b.objectId;
    LandedOn(w, l, platforms[i], prevPos, lightCenter, lightRadius, b.top);
  }

  /** Landing on a scan result that moves the ball lands on a real block's
      top. */
  lemma LandOnShape(w: BallState, best: Option<Landing>)
    requires LandOn(w, best) != w
    ensures best.Some? && best.value.objectId >= 0 &&
      LandOn(w, best) == w.(pos := Vec2(w.pos.x, best.value.top + w.radius), vel := Vec2(w.vel.x, 0.0),
                            grounded := true, supportObjectId := best.value.objectId)
  {
  }

  // -----------------------------------------------------------------------
  // Support parameter

  /** Where x lies across a hull's width, clamped to [0, 1]. */
  function SupportUOf(hull: seq<Vec2>, x: real): (u: real)
    requires |hull| > 0
    ensures 0.0 <= u <= 1.0
    // x at or left of the hull's left end gives 0
    ensures x <= MinX(hull) ==> u == 0.0
    // inside a hull at least MinSupportWidth wide, u is the fraction of the
    // width left of x
    ensures MinX(hull) <= x <= MaxX(hull) && MaxX(hull) - MinX(hull) >= MinSupportWidth ==>
      u * (MaxX(hull) - MinX(hull)) == x - MinX(hull)
  {
    var w := Max(MaxX(hull) - MinX(hull), MinSupportWidth);
    var f := (x - MinX(hull)) / w;
    assert f * w == x - MinX(hull);
    assert x <= MinX(hull) ==> f <= 0.0 by {
      if x <= MinX(hull) && f > 0.0 { MulPos(f, w); }
    }
    assert MinX(hull) <= x <= MaxX(hull) && MaxX(hull) - MinX(hull) >= MinSupportWidth ==> 0.0 <= f <= 1.0 by {
      if MinX(hull) <= x <= MaxX(hull) && MaxX(hull) - MinX(hull) >= MinSupportWidth {
        RatioInUnit(x - MinX(hull), w, f);
      }
    }
    Clamp(f, 0.0, 1.0)
  }

  /** The supportU update at the end of updatePhysics. */
  function UpdateSupportU(l: BallState, platforms: seq<ShadowPoly>): (r: BallState)
    ensures r == l.(supportU := r.supportU)
    ensures r.supportU != l.supportU ==> 0.0 <= r.supportU <= 1.0
    ensures var i := FirstWithId(platforms, l.supportObjectId);
      if l.grounded && l.supportObjectId >= 0 && i.Some? && |platforms[i.value].hull| >= 3
      then r.supportU == SupportUOf(platforms[i.value].hull, l.pos.x)
      else r == l
  {
    if l.grounded && l.supportObjectId >= 0 then
      match FirstWithId(platforms, l.supportObjectId)
      case Some(i) =>
        if |platforms[i].hull| >= 3 then l.(supportU := SupportUOf(platforms[i].hull, l.pos.x)) else l
      case None => l
    else l
  }

  // -----------------------------------------------------------------------
  // One frame

  /** The air phase: an airborne ball meets the side and ceiling walls of
      every platform; a grounded one is left alone (so it can walk off). */
  function AirWalls(g: BallState, prevPos: Vec2, platforms: seq<ShadowPoly>, sqrt: real -> real): (w: BallState)
    requires SqrtPositive(sqrt)
    ensures g.grounded ==> w == g
    ensures w == g.(pos := w.pos, vel := w.vel)
  {
    if g.grounded then g
    else
      var (p, v) := WallsUpTo(platforms, prevPos, g.pos, g.vel, g.radius, sqrt, |platforms|);
      g.(pos := p, vel := v)
  }

  /** The rest of a frame once the ball is in the light and still supported. */
  function AfterSupport(g: BallState, prevPos: Vec2, platforms: seq<ShadowPoly>,
                        lightCenter: Vec2, lightRadius: real, sqrt: real -> real): BallState
    requires SqrtPositive(sqrt)
  {
    UpdateSupportU(Land(AirWalls(g, prevPos, platforms, sqrt), prevPos, platforms, lightCenter, lightRadius), platforms)
  }

  /** What one call of updatePhysics leaves. */
  function PhysicsStep(s: BallState, k: Keys, dt: real, platforms: seq<ShadowPoly>,
                       lightCenter: Vec2, lightRadius: real, sqrt: real -> real): BallState
    requires SqrtPositive(sqrt)
  {
    var m := Integrate(s, k, dt);
    if OutOfLight(m.pos, m.radius, lightCenter, lightRadius) then DropState(m)
    else match SupportCheck(m, platforms)
      case None => DropState(m)
      case Some(g) => AfterSupport(g, s.pos, platforms, lightCenter, lightRadius, sqrt)
  }

  /** A frame keeps the ball's bookkeeping valid. */
  lemma PhysicsStepKeepsValid(s: BallState, k: Keys, dt: real, platforms: seq<ShadowPoly>,
                              lightCenter: Vec2, lightRadius: real, sqrt: real -> real)
    requires SqrtPositive(sqrt) && ValidState(s)
    ensures ValidState(PhysicsStep(s, k, dt, platforms, lightCenter, lightRadius, sqrt))
  {
    var m := Integrate(s, k, dt);
    assert ValidState(m);
    if !OutOfLight(m.pos, m.radius, lightCenter, lightRadius) && SupportCheck(m, platforms).Some? {
      var g := SupportCheck(m, platforms).value;
      assert ValidState(g);
      var w := AirWalls(g, s.pos, platforms, sqrt);
      assert ValidState(w);
      var l := Land(w, s.pos, platforms, lightCenter, lightRadius);
      assert ValidState(l);
    }
  }

  /** The rest of a frame keeps a grounded ball resting, or makes it rest
      on the platform it lands on. */
  lemma AfterSupportRests(g: BallState, prevPos: Vec2, platforms: seq<ShadowPoly>,
                          lightCenter: Vec2, lightRadius: real, sqrt: real -> real)
    requires SqrtPositive(sqrt)
    requires g.grounded ==> g.vel.y == 0.0 && exists i :: 0 <= i < |platforms| && RestsOn(g, platforms[i])
    ensures var r := AfterSupport(g, prevPos, platforms, lightCenter, lightRadius, sqrt);
      r.grounded ==> r.vel.y == 0.0 && exists i :: 0 <= i < |platforms| && RestsOn(r, platforms[i])
  {
    var w := AirWalls(g, prevPos, platforms, sqrt);
    var l := Land(w, prevPos, platforms, lightCenter, lightRadius);
    var r := UpdateSupportU(l, platforms);
    if g.grounded {
      var i :| 0 <= i < |platforms| && RestsOn(g, platforms[i]);
      assert r == g.(supportU := r.supportU);
      RestsOnSameFooting(g, r, platforms[i]);
    } else if r.grounded {
      LandOntoHighest(w, prevPos, platforms, lightCenter, lightRadius);
      var i :| 0 <= i < |platforms| && RestsOn(l, platforms[i]);
      RestsOnSameFooting(l, r, platforms[i]);
    }
  }

  /** After a frame a grounded ball rests on a platform of the block it
      names, with no vertical speed. (A ball the setters left grounded with
      no support id is not checked at all, hence the validity premise.) */
  lemma PhysicsStepGroundedRests(s: BallState, k: Keys, dt: real, platforms: seq<ShadowPoly>,
                                 lightCenter: Vec2, lightRadius: real, sqrt: real -> real)
    requires SqrtPositive(sqrt) && ValidState(s)
    ensures var r := PhysicsStep(s, k, dt, platforms, lightCenter, lightRadius, sqrt);
      r.grounded ==> r.vel.y == 0.0 && exists i :: 0 <= i < |platforms| && RestsOn(r, platforms[i])
  {
    var m := Integrate(s, k, dt);
    var r := PhysicsStep(s, k, dt, platforms, lightCenter, lightRadius, sqrt);
    if OutOfLight(m.pos, m.radius, lightCenter, lightRadius) {
      assert r == DropState(m);
    } else if SupportCheck(m, platforms).None? {
      assert r == DropState(m);
    } else {
      var g := SupportCheck(m, platforms).value;
      assert r == AfterSupport(g, s.pos, platforms, lightCenter, lightRadius, sqrt);
      if g.grounded {
        assert m.grounded && m.supportObjectId >= 0;
        var i := FirstWithId(platforms, m.supportObjectId).value;
        assert RestsOn(g, platforms[i]);
      }
      AfterSupportRests(g, s.pos, platforms, lightCenter, lightRadius, sqrt);
    }
  }

  /** A ball that was in the air lands only on a top it was above (within
      1e-3) at the start of the frame: platforms are one-way. */
  lemma PhysicsStepLandsFromAbove(s: BallState, k: Keys, dt: real, platforms: seq<ShadowPoly>,
                                  lightCenter: Vec2, lightRadius: real, sqrt: real -> real)
    requires SqrtPositive(sqrt) && !s.grounded
    ensures var r := PhysicsStep(s, k, dt, platforms, lightCenter, lightRadius, sqrt);
      r.grounded ==> s.pos.y >= r.pos.y - LandingEps
  {
    var m := Integrate(s, k, dt);
    var r := PhysicsStep(s, k, dt, platforms, lightCenter, lightRadius, sqrt);
    if OutOfLight(m.pos, m.radius, lightCenter, lightRadius) {
      assert r == DropState(m);
    } else {
      assert SupportCheck(m, platforms) == Some(m);
      var w := AirWalls(m, s.pos, platforms, sqrt);
      var l := Land(w, s.pos, platforms, lightCenter, lightRadius);
      assert r == UpdateSupportU(l, platforms);
      if r.grounded {
        assert l != w;
        LandOntoHighest(w, s.pos, platforms, lightCenter, lightRadius);
      }
    }
  }

  /** A ball that leaves the light (after moving) is dropped where it moved
      to, and nothing else of the frame happens. */
  lemma PhysicsStepDropsOutsideLight(s: BallState, k: Keys, dt: real, platforms: seq<ShadowPoly>,
                                     lightCenter: Vec2, lightRadius: real, sqrt: real -> real)
    requires SqrtPositive(sqrt)
    requires OutOfLight(Add(s.pos, Scale(Integrate(s, k, dt).vel, dt)), s.radius, lightCenter, lightRadius)
    ensures var r := PhysicsStep(s, k, dt, platforms, lightCenter, lightRadius, sqrt);
      !r.grounded && r.supportObjectId == -1 && r.supportU == 0.0 &&
      r.pos == Add(s.pos, Scale(r.vel, dt)) && r.vel.x == Direction(k) * s.moveSpeed
    ensures PhysicsStep(s, k, dt, platforms, lightCenter, lightRadius, sqrt) == DropState(Integrate(s, k, dt))
  {
  }

  // -----------------------------------------------------------------------
  // The ball object

  class ShadowBall {
    var pos: Vec2
    var vel: Vec2
    var radius: real
    var moveSpeed: real
    var jumpSpeed: real
    var gravity: real
    var grounded: bool
    var supportObjectId: int
    var supportU: real
    /** the static "last" flag of jumpPressedEdge */
    var jumpLatch: bool

    function State(): BallState
      reads this
    {
      BallState(pos, vel, radius, moveSpeed, jumpSpeed, gravity, grounded, supportObjectId, supportU, jumpLatch)
    }

    predicate Valid()
      reads this
    {
      ValidState(State())
    }

    /** The defaults of the member initialisers. */
    constructor()
      ensures State() == Initial && Valid()
    {
      pos, vel := Zero2, Zero2;
      radius, moveSpeed, jumpSpeed, gravity := DefaultRadius, DefaultMoveSpeed, DefaultJumpSpeed, DefaultGravity;
      grounded, supportObjectId, supportU := false, -1, CentreU;
      jumpLatch := false;
    }

    method Reset(p: Vec2)
      modifies this
      ensures State() == ResetState(old(State()), p) && Valid()
    {
      pos := p;
      vel := Zero2;
      grounded := false;
      supportObjectId := -1;
      supportU := CentreU;
    }

    method Drop()
      modifies this
      ensures State() == DropState(old(State())) && Valid()
    {
      grounded := false;
      supportObjectId := -1;
      supportU := 0.0;
    }

    method IsGrounded() returns (g: bool)
      ensures g == grounded
    {
      g := grounded;
    }

    method GetSupportObjectId() returns (id: int)
      ensures id == supportObjectId
    {
      id := supportObjectId;
    }

    method GetSupportU() returns (u: real)
      ensures u == supportU
    {
      u := supportU;
    }

    /** setSupportObjectId: no check, so it can leave the ball invalid. */
    method SetSupportObjectId(id: int)
      modifies this
      ensures State() == old(State()).(supportObjectId := id)
    {
      supportObjectId := id;
    }

    /** setSupportU: no clamping. */
    method SetSupportU(u: real)
      modifies this
      ensures State() == old(State()).(supportU := u)
    {
      supportU := u;
    }

    /** forceGrounded */
    method ForceGrounded(g: bool)
      modifies this
      ensures State() == old(State()).(grounded := g)
    {
      grounded := g;
    }

    /** jumpPressedEdge, with `now` the W-or-SPACE sample. */
    method JumpPressedEdge(now: bool) returns (edge: bool)
      modifies this
      ensures (edge, jumpLatch) == JumpEdge(now, old(jumpLatch))
      ensures State() == old(State()).(jumpLatch := now)
    {
      edge := now && !jumpLatch;
      jumpLatch := now;
    }

    /** updatePhysics */
    method UpdatePhysics(keys: Keys, dt: real, platforms: seq<ShadowPoly>,
                         lightCenter: Vec2, lightRadius: real, sqrt: real -> real)
      requires SqrtPositive(sqrt)
      modifies this
      ensures State() == PhysicsStep(old(State()), keys, dt, platforms, lightCenter, lightRadius, sqrt)
      ensures old(Valid()) ==> Valid()
    {
      ghost var s := State();
      if Valid() {
        PhysicsStepKeepsValid(s, keys, dt, platforms, lightCenter, lightRadius, sqrt);
      }

      var prevPos := IntegrateStep(keys, dt);
      ghost var m := State();
      assert m == Integrate(s, keys, dt) && prevPos == s.pos;

      if OutOfLight(pos, radius, lightCenter, lightRadius) {
        Drop();
        return;
      }

      var stays := SupportStep(platforms);
      if !stays {
        return;
      }
      ghost var g := State();
      assert SupportCheck(m, platforms) == Some(g);
      assert PhysicsStep(s, keys, dt, platforms, lightCenter, lightRadius, sqrt) == AfterSupport(g, s.pos, platforms, lightCenter, lightRadius, sqrt);

      if !grounded {
        pos, vel := SideWalls(platforms, prevPos, pos, vel, radius, sqrt);
      }
      assert State() == AirWalls(g, s.pos, platforms, sqrt);

      LandStep(prevPos, platforms, lightCenter, lightRadius);

      SupportUStep(platforms);
    }

    /** Input, gravity, the jump and the move; returns prevPos. */
    method IntegrateStep(keys: Keys, dt: real) returns (prevPos: Vec2)
      modifies this
      ensures State() == Integrate(old(State()), keys, dt) && prevPos == old(pos)
    {
      var dir := 0.0;
      if keys.a { dir := dir - 1.0; }
      if keys.d { dir := dir + 1.0; }
      vel := Vec2(dir * moveSpeed, vel.y + gravity * dt);
      if grounded {
        var jump := JumpPressedEdge(keys.w || keys.space);
        if jump {
          vel := Vec2(vel.x, jumpSpeed);
          grounded := false;
          supportObjectId := -1;
        }
      }
      prevPos := pos;
      pos := Add(pos, Scale(vel, dt));
    }

    /** The one-way landing block. */
    method LandStep(prevPos: Vec2, platforms: seq<ShadowPoly>, lightCenter: Vec2, lightRadius: real)
      modifies this
      ensures State() == Land(old(State()), prevPos, platforms, lightCenter, lightRadius)
    {
      if !grounded && vel.y <= 0.0 {
        var best := BestLanding(platforms, prevPos, pos, radius, lightCenter, lightRadius);
        LandOnBest(best);
      }
    }

    /** Landing on the scan's result. */
    method LandOnBest(best: Option<Landing>)
      modifies this
      ensures State() == LandOn(old(State()), best)
    {
      if best.Some? && best.value.objectId >= 0 {
        pos := Vec2(pos.x, best.value.top + radius);
        vel := Vec2(vel.x, 0.0);
        grounded := true;
        supportObjectId := best.value.objectId;
      }
    }

    /** The grounded support check: false when it dropped the ball. */
    method SupportStep(platforms: seq<ShadowPoly>) returns (stays: bool)
      modifies this
      ensures stays <==> SupportCheck(old(State()), platforms).Some?
      ensures stays ==> State() == SupportCheck(old(State()), platforms).value
      ensures !stays ==> State() == DropState(old(State()))
    {
      if grounded && supportObjectId >= 0 {
        var found := FindPlatformByObjectId(platforms, supportObjectId);
        if found.None? {
          Drop();
          return false;
        }
        var top := SupportTopAt(platforms[found.value].hull, pos.x, radius);
        if top.None? {
          Drop();
          return false;
        }
        pos := Vec2(pos.x, top.value + radius);
        vel := Vec2(vel.x, 0.0);
      }
      return true;
    }

    /** The supportU update. */
    method SupportUStep(platforms: seq<ShadowPoly>)
      modifies this
      ensures State() == UpdateSupportU(old(State()), platforms)
    {
      if grounded && supportObjectId >= 0 {
        var found := FindPlatformByObjectId(platforms, supportObjectId);
        if found.Some? && |platforms[found.value].hull| >= 3 {
          var hull := platforms[found.value].hull;
          var span := XRange(hull);
          var minX, maxX := span.value.minX, span.value.maxX;
          var w := Max(maxX - minX, MinSupportWidth);
          supportU := Clamp((pos.x - minX) / w, 0.0, 1.0);
        }
      }
    }
  }

  /** The air phase: preventEnterSideWalls against every platform in turn. */
  method SideWalls(platforms: seq<ShadowPoly>, prevPos: Vec2, pos: Vec2, vel: Vec2, radius: real, sqrt: real -> real)
    returns (newPos: Vec2, newVel: Vec2)
    requires SqrtPositive(sqrt)
    ensures (newPos, newVel) == WallsUpTo(platforms, prevPos, pos, vel, radius, sqrt, |platforms|)
  {
    newPos, newVel := pos, vel;
    for i := 0 to |platforms|
      invariant (newPos, newVel) == WallsUpTo(platforms, prevPos, pos, vel, radius, sqrt, i)
    {
      newPos, newVel := PreventEnterSideWalls(platforms[i].hull, prevPos, newPos, newVel, radius, sqrt);
    }
  }

  /** The top a hull offers a circle, with the early exits of the
      support check and of the landing loop: fewer than three points, no
      x-overlap, no top at the clamped x. */
  method SupportTopAt(hull: seq<Vec2>, x: real, radius: real) returns (top: Option<real>)
    ensures top == SupportTop(hull, x, radius)
  {
    if |hull| < 3 {
      return None;
    }
    var span := XRange(hull);
    var minX, maxX := span.value.minX, span.value.maxX;
    if x + radius < minX || x - radius > maxX {
      return None;
    }
    var xQuery := Clamp(x, minX, maxX);
    assert xQuery == ClampToHull(hull, x);
    top := TopYAtX(hull, xQuery);
  }

  /** One platform's landing candidate, with updatePhysics's `continue`s. */
  method LandingCandidate(p: ShadowPoly, prevPos: Vec2, pos: Vec2, radius: real, lightCenter: Vec2, lightRadius: real)
    returns (top: Option<real>)
    ensures top == LandingTop(p, prevPos, pos, radius, lightCenter, lightRadius)
  {
    var yTop := SupportTopAt(p.hull, pos.x, radius);
    top := Qualify(yTop, prevPos, pos, radius, lightCenter, lightRadius);
  }

  /** The crossing and in-light `continue`s of the landing loop. */
  method Qualify(yTop: Option<real>, prevPos: Vec2, pos: Vec2, radius: real, lightCenter: Vec2, lightRadius: real)
    returns (top: Option<real>)
    ensures top == QualifyingTop(yTop, prevPos, pos, radius, lightCenter, lightRadius)
  {
    if yTop.None? {
      return None;
    }
    var y := yTop.value;
    var crossed := prevPos.y - radius >= y - LandingEps && pos.y - radius <= y + LandingEps;
    if !crossed {
      return None;
    }
    if FartherThan(Vec2(pos.x, y + radius), lightCenter, lightRadius - radius) {
      return None;
    }
    return yTop;
  }

  /** The `yTop > bestYTop` update of the landing scan. */
  method ConsiderLanding(best: Option<Landing>, id: int, y: Option<real>) returns (next: Option<Landing>)
    ensures next == Consider(best, id, y)
  {
    next := best;
    if y.Some? && (best.None? || y.value > best.value.top) {
      next := Some(Landing(id, y.value));
    }
  }

  /** The landing scan: the highest qualifying top, first on ties. */
  method BestLanding(platforms: seq<ShadowPoly>, prevPos: Vec2, pos: Vec2, radius: real, lightCenter: Vec2, lightRadius: real)
    returns (best: Option<Landing>)
    ensures best == BestLandingUpTo(Ids(platforms), LandingTops(platforms, prevPos, pos, radius, lightCenter, lightRadius), |platforms|)
  {
    ghost var tops := LandingTops(platforms, prevPos, pos, radius, lightCenter, lightRadius);
    ghost var ids := Ids(platforms);
    best := None;
    for i := 0 to |platforms|
      invariant best == BestLandingUpTo(ids, tops, i)
    {
      var y := LandingCandidate(platforms[i], prevPos, pos, radius, lightCenter, lightRadius);
      assert y == tops[i] && platforms[i].objectId == ids[i];
      best := ConsiderLanding(best, platforms[i].objectId, y);
    }
  }
}
