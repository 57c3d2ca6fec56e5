/** The static geometry helpers of ShadowBall (shadow.cpp): the closest
    point of a segment, the inside test for a counter-clockwise convex
    polygon, the circle-versus-edge penetration test and the side/ceiling
    obstruction pass preventEnterSideWalls. */
module BallGeometry {
  import opened Numbers
  import opened Vectors

  /** below this squared length a segment or an edge is degenerate */
  const DegenerateLen2: real := 0.0000000001
  /** how far to the right of an edge a point may lie and still be inside */
  const InsideEps: real := 0.000001
  /** |n.x| above this makes an edge a side, n.y below its negation a ceiling */
  const WallCos: real := 0.6
  /** the squared distance is raised to at least this before its root is taken */
  const MinDist2: real := 0.000000000001
  /** below this distance the edge normal replaces the centre direction */
  const NormalEps: real := 0.000001
  /** the extra distance a push adds beyond the penetration */
  const Skin: real := 0.001
  /** the obstruction pass's iteration limit */
  const WallPasses: nat := 4

  // ---------------------------------------------------------------------
  // closestPointOnSegment

  predicate DegenerateSegment(a: Vec2, b: Vec2)
  {
    Len2(Sub(b, a)) < DegenerateLen2
  }

  /** The parameter of the closest point: the projection of p onto the
      segment's line, clamped to [0, 1]. */
  function SegmentParam(p: Vec2, a: Vec2, b: Vec2): (t: real)
    requires !DegenerateSegment(a, b)
    ensures 0.0 <= t <= 1.0
  {
    var ab := Sub(b, a);
    Clamp(Dot(Sub(p, a), ab) / Len2(ab), 0.0, 1.0)
  }

  /** closestPointOnSegment: a for a degenerate segment, otherwise the point
      a + t (b - a) of parameter t in [0, 1]. */
  function ClosestPointOnSegment(p: Vec2, a: Vec2, b: Vec2): (c: Vec2)
    ensures DegenerateSegment(a, b) ==> c == a
    ensures !DegenerateSegment(a, b) ==>
      var t := SegmentParam(p, a, b);
      0.0 <= t <= 1.0 && c == Add(a, Scale(Sub(b, a), t))
  {
    var ab := Sub(b, a);
    if Len2(ab) < DegenerateLen2 then a
    else Add(a, Scale(ab, SegmentParam(p, a, b)))
  }

  /** The squared distance from p to the point of parameter s on the line
      through a with direction ab, as a quadratic in s. */
  lemma DistAlongLine(p: Vec2, a: Vec2, ab: Vec2, s: real)
    ensures DistSq(p, Add(a, Scale(ab, s)))
         == Len2(Sub(p, a)) - 2.0 * s * Dot(Sub(p, a), ab) + s * s * Len2(ab)
  {
    var w := Sub(p, a);
    assert Sub(p, Add(a, Scale(ab, s))) == Vec2(w.x - s * ab.x, w.y - s * ab.y);
    calc {
      Len2(Vec2(w.x - s * ab.x, w.y - s * ab.y));
      (w.x - s * ab.x) * (w.x - s * ab.x) + (w.y - s * ab.y) * (w.y - s * ab.y);
      (w.x * w.x + w.y * w.y) - 2.0 * s * (w.x * ab.x + w.y * ab.y) + s * s * (ab.x * ab.x + ab.y * ab.y);
    }
  }

  /** The product of two non-positive reals is non-negative. */
  lemma MulNonPos(x: real, y: real)
    requires x <= 0.0 && y <= 0.0
    ensures x * y >= 0.0
  {
    if x < 0.0 && y < 0.0 { MulPos(-x, -y); }
  }

  /** The product of two non-negative reals is non-negative. */
  lemma MulNonNeg(x: real, y: real)
    requires x >= 0.0 && y >= 0.0
    ensures x * y >= 0.0
  {
    if x > 0.0 && y > 0.0 { MulPos(x, y); }
  }

  /** On [0, 1] the quadratic s*s*L - 2*s*q (L > 0) is smallest at q/L
      clamped to [0, 1]. */
  lemma ClampedMinimiser(L: real, q: real, s: real)
    requires L > 0.0 && 0.0 <= s <= 1.0
    ensures var t := Clamp(q / L, 0.0, 1.0);
            t * t * L - 2.0 * t * q <= s * s * L - 2.0 * s * q
  {
    var u := q / L;
    var t := Clamp(u, 0.0, 1.0);
    assert u * L == q;
    var diff := (s - t) * ((s + t) * L - 2.0 * q);
    assert (s * s * L - 2.0 * s * q) - (t * t * L - 2.0 * t * q) == diff;
    if u < 0.0 {
      assert q < 0.0 by { MulPos(-u, L); }
      MulNonNeg(s, s * L - 2.0 * q) by { MulNonNeg(s, L); }
    } else if u > 1.0 {
      assert q > L by { MulPos(u - 1.0, L); }
      MulNonPos(s - 1.0, (s + 1.0) * L - 2.0 * q) by {
        assert (s + 1.0) * L - 2.0 * q == (s - 1.0) * L + 2.0 * (L - q);
        MulNonPos(s - 1.0, -L);
      }
    } else {
      assert diff == (s - t) * (s - t) * L;
      MulNonNeg((s - t) * (s - t), L);
    }
  }

  /** No point of a (non-degenerate) segment is closer to p than
      closestPointOnSegment's answer. */
  lemma ClosestPointIsClosest(p: Vec2, a: Vec2, b: Vec2, s: real)
    requires !DegenerateSegment(a, b) && 0.0 <= s <= 1.0
    ensures DistSq(p, ClosestPointOnSegment(p, a, b)) <= DistSq(p, Add(a, Scale(Sub(b, a), s)))
  {
    var ab := Sub(b, a);
    var t := SegmentParam(p, a, b);
    DistAlongLine(p, a, ab, s);
    DistAlongLine(p, a, ab, t);
    ClampedMinimiser(Len2(ab), Dot(Sub(p, a), ab), s);
  }

  // ---------------------------------------------------------------------
  // isInsideConvexCCW

  /** The cross product the inside test computes for edge i: positive when
      p lies to the left of poly[i] -> poly[i+1]. */
  function EdgeCross(poly: seq<Vec2>, i: nat, p: Vec2): (c: real)
    requires i < |poly|
  {
    var a := poly[i];
    Cross(Sub(poly[(i + 1) % |poly|], a), Sub(p, a))
  }

  /** The loop of isInsideConvexCCW from edge i on: false at the first edge
      with p more than InsideEps to its right. */
  function LeftOfEdgesFrom(poly: seq<Vec2>, p: Vec2, i: nat): (r: bool)
    requires i <= |poly|
    ensures r <==> forall j :: i <= j < |poly| ==> EdgeCross(poly, j, p) >= -InsideEps
    decreases |poly| - i
  {
    if i == |poly| then true
    else if EdgeCross(poly, i, p) < -InsideEps then false
    else LeftOfEdgesFrom(poly, p, i + 1)
  }

  /** isInsideConvexCCW: false below three vertices; otherwise true exactly
      when p lies left of (or within InsideEps of) every edge. */
  function IsInsideConvexCCW(poly: seq<Vec2>, p: Vec2): (r: bool)
    ensures |poly| < 3 ==> !r
    ensures r <==> |poly| >= 3 && forall j :: 0 <= j < |poly| ==> EdgeCross(poly, j, p) >= -InsideEps
  {
    if |poly| < 3 then false else LeftOfEdgesFrom(poly, p, 0)
  }

  // ---------------------------------------------------------------------
  // edgeCirclePenetration

  /** A circle's penetration of one edge: the direction from the edge to the
      centre (unit length with an exact root) and the depth. */
  datatype Penetration = Penetration(normal: Vec2, depth: real)

  /** The unit outward normal of a counter-clockwise edge a -> b (the right
      normal (e.y, -e.x) divided by its length). */
  function OutwardNormal(a: Vec2, b: Vec2, sqrt: real -> real): (n: Vec2)
    requires SqrtPositive(sqrt) && !DegenerateSegment(a, b)
    // n is perpendicular to the edge and points to its right
    ensures Dot(Sub(b, a), n) == 0.0 && Cross(Sub(b, a), n) < 0.0
    ensures IsSqrt(sqrt) ==> Len2(n) == 1.0
  {
    var e := Sub(b, a);
    var rn := Vec2(e.y, -e.x);
    assert Len2(rn) == Len2(e);
    var k := 1.0 / sqrt(Len2(rn));
    assert Cross(e, Scale(rn, k)) == -(k * Len2(e));
    MulPos(k, Len2(e));
    assert IsSqrt(sqrt) ==> Len2(Scale(rn, k)) == 1.0 by {
      if IsSqrt(sqrt) { UnitAfterDivide(rn, sqrt(Len2(rn))); }
    }
    Scale(rn, k)
  }

  /** A side edge: its normal is closer to horizontal than WallCos. */
  predicate IsSide(n: Vec2) { Abs(n.x) > WallCos }

  /** A ceiling edge: its outward normal points down. */
  predicate IsCeiling(n: Vec2) { n.y < -WallCos }

  /** Whether the obstruction pass looks at an edge with outward normal n
      while the ball moves with vel: sides always, ceilings only while
      moving up, a ceiling that is also a side never while falling. */
  predicate Relevant(n: Vec2, vel: Vec2)
  {
    (IsSide(n) || IsCeiling(n)) && !(IsCeiling(n) && vel.y <= 0.0)
  }

  /** edgeCirclePenetration: how far the circle of radius r around center
      penetrates the edge a -> b, if that edge is relevant and penetrated. */
  function EdgePenetration(center: Vec2, a: Vec2, b: Vec2, vel: Vec2, r: real, sqrt: real -> real): (o: Option<Penetration>)
    requires SqrtPositive(sqrt)
    ensures o.Some? ==> !DegenerateSegment(a, b) && Relevant(OutwardNormal(a, b, sqrt), vel)
    ensures o.Some? ==> DistSq(center, ClosestPointOnSegment(center, a, b)) < r * r
    ensures o.Some? ==> 0.0 < o.value.depth < r
  {
    var e := Sub(b, a);
    if Len2(e) < DegenerateLen2 then None
    else
      var rn := Vec2(e.y, -e.x);
      // the same squared length as e: this test never fails
      if Len2(rn) < DegenerateLen2 then None
      else
        var n := OutwardNormal(a, b, sqrt);
        if !IsSide(n) && !IsCeiling(n) then None
        else if IsCeiling(n) && vel.y <= 0.0 then None
        else
          var d := Sub(center, ClosestPointOnSegment(center, a, b));
          var d2 := Len2(d);
          if d2 >= r * r then None
          else
            var dist := sqrt(Max(d2, MinDist2));
            var normal := if dist > NormalEps then Scale(d, 1.0 / dist) else n;
            var pen := r - dist;
            if pen > 0.0 then Some(Penetration(normal, pen)) else None
  }

  /** With an exact root, and unless the centre lies within 1e-6 of the
      edge, the depth is r minus the centre's distance to the edge. */
  lemma PenetrationDepthIsDistance(center: Vec2, a: Vec2, b: Vec2, vel: Vec2, r: real, sqrt: real -> real)
    requires SqrtPositive(sqrt) && IsSqrt(sqrt) && EdgePenetration(center, a, b, vel, r, sqrt).Some?
    requires DistSq(center, ClosestPointOnSegment(center, a, b)) >= MinDist2
    ensures var depth := EdgePenetration(center, a, b, vel, r, sqrt).value.depth;
            (r - depth) * (r - depth) == DistSq(center, ClosestPointOnSegment(center, a, b))
  {
    var d2 := DistSq(center, ClosestPointOnSegment(center, a, b));
    assert Max(d2, MinDist2) == d2;
    assert sqrt(d2) * sqrt(d2) == d2;
  }

  /** With an exact root a penetration's normal has unit length. */
  lemma PenetrationNormalIsUnit(center: Vec2, a: Vec2, b: Vec2, vel: Vec2, r: real, sqrt: real -> real)
    requires SqrtPositive(sqrt) && IsSqrt(sqrt) && EdgePenetration(center, a, b, vel, r, sqrt).Some?
    ensures Len2(EdgePenetration(center, a, b, vel, r, sqrt).value.normal) == 1.0
  {
    var d := Sub(center, ClosestPointOnSegment(center, a, b));
    var d2 := Len2(d);
    var dist := sqrt(Max(d2, MinDist2));
    if dist > NormalEps {
      // dist > 1e-6 means d2 was not raised to MinDist2
      assert dist * dist > NormalEps * NormalEps by { MulPos(dist - NormalEps, dist + NormalEps); }
      UnitAfterDivide(d, dist);
    }
  }

  /** Conversely, with an exact root and a radius above 1e-6, a relevant
      non-degenerate edge closer to the centre than r is penetrated. */
  lemma PenetrationIsFound(center: Vec2, a: Vec2, b: Vec2, vel: Vec2, r: real, sqrt: real -> real)
    requires SqrtPositive(sqrt) && IsSqrt(sqrt) && r > NormalEps
    requires !DegenerateSegment(a, b) && Relevant(OutwardNormal(a, b, sqrt), vel)
    requires DistSq(center, ClosestPointOnSegment(center, a, b)) < r * r
    ensures EdgePenetration(center, a, b, vel, r, sqrt).Some?
  {
    var d2 := DistSq(center, ClosestPointOnSegment(center, a, b));
    var m := Max(d2, MinDist2);
    var dist := sqrt(m);
    assert m < r * r by { MulPos(r - NormalEps, r + NormalEps); }
    assert dist < r by {
      if dist >= r { MulNonNeg(dist - r, dist + r); }
    }
  }

  // ---------------------------------------------------------------------
  // preventEnterSideWalls

  /** Edge i's penetration, edge i running from poly[i] to the next vertex. */
  function EdgePenetrationAt(poly: seq<Vec2>, i: nat, center: Vec2, vel: Vec2, r: real, sqrt: real -> real): Option<Penetration>
    requires SqrtPositive(sqrt) && i < |poly|
  {
    EdgePenetration(center, poly[i], poly[(i + 1) % |poly|], vel, r, sqrt)
  }

  /** Every edge's penetration, in edge order. */
  function Penetrations(poly: seq<Vec2>, center: Vec2, vel: Vec2, r: real, sqrt: real -> real): (ps: seq<Option<Penetration>>)
    requires SqrtPositive(sqrt)
    ensures |ps| == |poly| && forall i :: 0 <= i < |poly| ==> ps[i] == EdgePenetrationAt(poly, i, center, vel, r, sqrt)
  {
    seq(|poly|, i requires 0 <= i < |poly| => EdgePenetrationAt(poly, i, center, vel, r, sqrt))
  }

  /** penetratesAnyRelevantEdge */
  predicate PenetratesAny(poly: seq<Vec2>, center: Vec2, vel: Vec2, r: real, sqrt: real -> real)
    requires SqrtPositive(sqrt)
  {
    exists i :: 0 <= i < |poly| && Penetrations(poly, center, vel, r, sqrt)[i].Some?
  }

  /** The scan of one iteration over the first k entries: the first strictly
      deepest penetration, starting from depth 0 and normal (0, 0). */
  function DeepestUpTo(ps: seq<Option<Penetration>>, k: nat): (best: Penetration)
    requires k <= |ps|
    ensures best.depth >= 0.0
    ensures forall i :: 0 <= i < k && ps[i].Some? ==> ps[i].value.depth <= best.depth
    ensures best == Penetration(Zero2, 0.0) || exists i :: 0 <= i < k && ps[i] == Some(best)
    ensures best.depth > 0.0 ==> exists i :: 0 <= i < k && ps[i] == Some(best)
  {
    if k == 0 then Penetration(Zero2, 0.0) else Deeper(DeepestUpTo(ps, k - 1), ps[k - 1])
  }

  /** The `pen > bestDepth` update of the scan: a strictly deeper
      penetration replaces the best so far. */
  function Deeper(best: Penetration, o: Option<Penetration>): Penetration
  {
    if o.Some? && o.value.depth > best.depth then o.value else best
  }

  /** One push: move along the chosen normal by the depth plus the skin,
      and cancel the velocity component into the obstacle, if any. */
  function PushOut(pos: Vec2, vel: Vec2, best: Penetration): (r: (Vec2, Vec2))
    ensures r.0 == Add(pos, Scale(best.normal, best.depth + Skin))
    // the velocity changes only when it points into the obstacle, and only
    // along the normal: its component across the normal is kept
    ensures r.1 != vel ==> Dot(vel, best.normal) < 0.0
    ensures Cross(r.1, best.normal) == Cross(vel, best.normal)
    // along a unit normal nothing is left moving into the obstacle and the
    // speed does not grow
    ensures Len2(best.normal) == 1.0 ==>
      Dot(r.1, best.normal) == Max(Dot(vel, best.normal), 0.0) && Len2(r.1) <= Len2(vel)
  {
    var n := best.normal;
    var vn := Dot(vel, n);
    var newVel := if vn < 0.0 then Sub(vel, Scale(n, vn)) else vel;
    assert Cross(newVel, n) == Cross(vel, n) by {
      if vn < 0.0 {
        assert Cross(Sub(vel, Scale(n, vn)), n) == Cross(vel, n) - vn * Cross(n, n);
      }
    }
    assert Len2(n) == 1.0 && vn < 0.0 ==> Dot(newVel, n) == 0.0 && Len2(newVel) <= Len2(vel) by {
      if Len2(n) == 1.0 && vn < 0.0 {
        RemoveComponent(vel, n);
      }
    }
    (Add(pos, Scale(n, best.depth + Skin)), newVel)
  }

  /** Removing a velocity's component along a unit vector leaves nothing
      along it and does not lengthen the velocity. */
  lemma RemoveComponent(v: Vec2, n: Vec2)
    requires Len2(n) == 1.0
    ensures Dot(Sub(v, Scale(n, Dot(v, n))), n) == 0.0
    ensures Len2(Sub(v, Scale(n, Dot(v, n)))) == Len2(v) - Dot(v, n) * Dot(v, n)
    ensures Len2(Sub(v, Scale(n, Dot(v, n)))) <= Len2(v)
  {
    var k := Dot(v, n);
    var w := Sub(v, Scale(n, k));
    calc {
      Dot(w, n);
      (v.x - n.x * k) * n.x + (v.y - n.y * k) * n.y;
      k - k * (n.x * n.x + n.y * n.y);
    }
    calc {
      Len2(w);
      (v.x - n.x * k) * (v.x - n.x * k) + (v.y - n.y * k) * (v.y - n.y * k);
      Len2(v) - 2.0 * k * k + k * k * (n.x * n.x + n.y * n.y);
    }
    assert k * k >= 0.0;
  }

  /** One resolution iteration: push out of the deepest relevant edge.
      The flag says the loop stops here, either because nothing was
      penetrated (no push) or because the push cleared every relevant edge. */
  function WallStep(poly: seq<Vec2>, pos: Vec2, vel: Vec2, r: real, sqrt: real -> real): (res: (Vec2, Vec2, bool))
    requires SqrtPositive(sqrt)
  {
    var best := DeepestUpTo(Penetrations(poly, pos, vel, r, sqrt), |poly|);
    if best.depth <= 0.0 then (pos, vel, true)
    else
      var (pos1, vel1) := PushOut(pos, vel, best);
      (pos1, vel1, !PenetratesAny(poly, pos1, vel1, r, sqrt))
  }

  /** The resolution iterations, at most n of them. */
  function WallIterations(poly: seq<Vec2>, pos: Vec2, vel: Vec2, r: real, sqrt: real -> real, n: nat): (Vec2, Vec2)
    requires SqrtPositive(sqrt)
    decreases n
  {
    if n == 0 then (pos, vel)
    else
      var step := WallStep(poly, pos, vel, r, sqrt);
      if step.2 then (step.0, step.1) else WallIterations(poly, step.0, step.1, r, sqrt, n - 1)
  }

  /** What preventEnterSideWalls leaves in pos and vel. It acts only on an
      outside -> penetrated crossing: a polygon below three vertices, a
      previous position that already penetrated, or a position that
      penetrates nothing leave both unchanged. */
  function SideWallsOf(poly: seq<Vec2>, prevPos: Vec2, pos: Vec2, vel: Vec2, r: real, sqrt: real -> real): (res: (Vec2, Vec2))
    requires SqrtPositive(sqrt)
    ensures |poly| < 3 ==> res == (pos, vel)
    ensures PenetratesAny(poly, prevPos, vel, r, sqrt) ==> res == (pos, vel)
    ensures !PenetratesAny(poly, pos, vel, r, sqrt) ==> res == (pos, vel)
  {
    if |poly| < 3 then (pos, vel)
    else if PenetratesAny(poly, prevPos, vel, r, sqrt) || !PenetratesAny(poly, pos, vel, r, sqrt) then (pos, vel)
    else WallIterations(poly, pos, vel, r, sqrt, WallPasses)
  }

  /** With an exact root the deepest penetration's normal is a unit vector. */
  lemma DeepestNormalIsUnit(poly: seq<Vec2>, pos: Vec2, vel: Vec2, r: real, sqrt: real -> real)
    requires SqrtPositive(sqrt) && IsSqrt(sqrt)
    requires DeepestUpTo(Penetrations(poly, pos, vel, r, sqrt), |poly|).depth > 0.0
    ensures Len2(DeepestUpTo(Penetrations(poly, pos, vel, r, sqrt), |poly|).normal) == 1.0
  {
    var ps := Penetrations(poly, pos, vel, r, sqrt);
    var best := DeepestUpTo(ps, |poly|);
    var i :| 0 <= i < |poly| && ps[i] == Some(best);
    PenetrationNormalIsUnit(pos, poly[i], poly[(i + 1) % |poly|], vel, r, sqrt);
  }

  /** One unfolding of the iterations: a step that stops ends them, any
      other step leaves one iteration fewer. */
  lemma IterationsAfterStep(poly: seq<Vec2>, pos: Vec2, vel: Vec2, r: real, sqrt: real -> real, n: nat)
    requires SqrtPositive(sqrt) && n > 0
    ensures var step := WallStep(poly, pos, vel, r, sqrt);
            WallIterations(poly, pos, vel, r, sqrt, n) ==
              if step.2 then (step.0, step.1) else WallIterations(poly, step.0, step.1, r, sqrt, n - 1)
  {
  }

  /** One iteration never speeds the ball up (exact root). */
  lemma WallStepNeverSpeedsUp(poly: seq<Vec2>, pos: Vec2, vel: Vec2, r: real, sqrt: real -> real)
    requires SqrtPositive(sqrt) && IsSqrt(sqrt)
    ensures Len2(WallStep(poly, pos, vel, r, sqrt).1) <= Len2(vel)
  {
    var best := DeepestUpTo(Penetrations(poly, pos, vel, r, sqrt), |poly|);
    if best.depth > 0.0 {
      DeepestNormalIsUnit(poly, pos, vel, r, sqrt);
      assert WallStep(poly, pos, vel, r, sqrt).1 == PushOut(pos, vel, best).1;
    }
  }

  /** penetratesAnyRelevantEdge, as the loop with an early return. */
  method PenetratesAnyRelevantEdge(poly: seq<Vec2>, center: Vec2, vel: Vec2, r: real, sqrt: real -> real) returns (b: bool)
    requires SqrtPositive(sqrt)
    ensures b == PenetratesAny(poly, center, vel, r, sqrt)
  {
    ghost var ps := Penetrations(poly, center, vel, r, sqrt);
    for i := 0 to |poly|
      invariant forall j :: 0 <= j < i ==> ps[j].None?
    {
      var pn := EdgePenetration(center, poly[i], poly[(i + 1) % |poly|], vel, r, sqrt);
      assert pn == ps[i];
      if pn.Some? {
        return true;
      }
    }
    return false;
  }

  /** The scan of one resolution iteration. */
  method DeepestPenetration(poly: seq<Vec2>, center: Vec2, vel: Vec2, r: real, sqrt: real -> real) returns (best: Penetration)
    requires SqrtPositive(sqrt)
    ensures best == DeepestUpTo(Penetrations(poly, center, vel, r, sqrt), |poly|)
  {
    ghost var ps := Penetrations(poly, center, vel, r, sqrt);
    best := Penetration(Zero2, 0.0);
    for i := 0 to |poly|
      invariant best == DeepestUpTo(ps, i)
    {
      var pn := EdgePenetration(center, poly[i], poly[(i + 1) % |poly|], vel, r, sqrt);
      assert pn == ps[i];
      best := Deeper(best, pn);
    }
  }

  /** The body of one resolution iteration. */
  method ResolveWallStep(poly: seq<Vec2>, pos: Vec2, vel: Vec2, r: real, sqrt: real -> real)
    returns (newPos: Vec2, newVel: Vec2, stop: bool)
    requires SqrtPositive(sqrt)
    ensures (newPos, newVel, stop) == WallStep(poly, pos, vel, r, sqrt)
  {
    var best := DeepestPenetration(poly, pos, vel, r, sqrt);
    if best.depth <= 0.0 {
      return pos, vel, true;
    }
    var pushed := PushOut(pos, vel, best);
    newPos, newVel := pushed.0, pushed.1;
    var still := PenetratesAnyRelevantEdge(poly, newPos, newVel, r, sqrt);
    stop := !still;
  }

  /** One turn of the resolution loop, against the iterations left. */
  method WallPass(poly: seq<Vec2>, pos: Vec2, vel: Vec2, r: real, sqrt: real -> real, ghost left: nat)
    returns (newPos: Vec2, newVel: Vec2, stop: bool)
    requires SqrtPositive(sqrt) && left > 0
    ensures stop ==> WallIterations(poly, pos, vel, r, sqrt, left) == (newPos, newVel)
    ensures !stop ==> WallIterations(poly, pos, vel, r, sqrt, left) ==
                      WallIterations(poly, newPos, newVel, r, sqrt, left - 1)
  {
    newPos, newVel, stop := ResolveWallStep(poly, pos, vel, r, sqrt);
    IterationsAfterStep(poly, pos, vel, r, sqrt, left);
  }

  /** preventEnterSideWalls: pos and vel are the C++ reference parameters. */
  method PreventEnterSideWalls(poly: seq<Vec2>, prevPos: Vec2, pos: Vec2, vel: Vec2, r: real, sqrt: real -> real)
    returns (newPos: Vec2, newVel: Vec2)
    requires SqrtPositive(sqrt)
    ensures (newPos, newVel) == SideWallsOf(poly, prevPos, pos, vel, r, sqrt)
  {
    newPos, newVel := pos, vel;
    if |poly| < 3 {
      return;
    }
    var prevPen := PenetratesAnyRelevantEdge(poly, prevPos, vel, r, sqrt);
    var nowPen := PenetratesAnyRelevantEdge(poly, pos, vel, r, sqrt);
    if prevPen || !nowPen {
      return;
    }
    newPos, newVel := ResolveWalls(poly, pos, vel, r, sqrt);
  }

  /** The resolution loop of preventEnterSideWalls: at most WallPasses
      pushes, stopping early once nothing relevant is penetrated. */
  method ResolveWalls(poly: seq<Vec2>, pos: Vec2, vel: Vec2, r: real, sqrt: real -> real)
    returns (newPos: Vec2, newVel: Vec2)
    requires SqrtPositive(sqrt)
    ensures (newPos, newVel) == WallIterations(poly, pos, vel, r, sqrt, WallPasses)
  {
    newPos, newVel := pos, vel;
    ghost var left: nat := WallPasses;
    ghost var goal := WallIterations(poly, pos, vel, r, sqrt, left);
    var iter := 0;
    while iter < WallPasses
      invariant iter <= WallPasses && left == WallPasses - iter
      invariant WallIterations(poly, newPos, newVel, r, sqrt, left) == goal
    {
      var stop;
      newPos, newVel, stop := WallPass(poly, newPos, newVel, r, sqrt, left);
      if stop {
        break;
      }
      iter := iter + 1;
      left := left - 1;
    }
  }
}
