/** The separating-axis collision helpers of collision_detect.cpp: interval
    projections, overlap on one axis, the minimum translation vector (MTV)
    of a circle against a convex polygon, and the one-way resolver that
    only ever pushes a falling circle up onto a platform top. */
module Collision {
  import opened Numbers
  import opened Vectors
  import opened Platforms

  /** below this squared length normalizeSafe gives up and answers (0, 1) */
  const TinyLen2: real := 0.0000000001
  /** the resolver's pass limit */
  const ResolvePasses: nat := 4

  /** perp: the vector turned a quarter turn counter-clockwise. */
  function Perp(v: Vec2): (r: Vec2)
    ensures Dot(r, v) == 0.0 && Len2(r) == Len2(v)
    ensures Cross(v, r) == Len2(v)
  {
    Vec2(-v.y, v.x)
  }

  /** normalizeSafe: v scaled to unit length, or (0, 1) for a (near) zero v. */
  function NormalizeSafe(v: Vec2, sqrt: real -> real): (r: Vec2)
    requires SqrtPositive(sqrt)
    ensures Len2(v) < TinyLen2 ==> r == Vec2(0.0, 1.0)
    // otherwise r points the same way as v ...
    ensures Len2(v) >= TinyLen2 ==> Cross(r, v) == 0.0 && Dot(r, v) > 0.0
    // ... and has unit length when sqrt is the square root
    ensures IsSqrt(sqrt) ==> Len2(r) == 1.0
  {
    var l2 := Dot(v, v);
    if l2 < TinyLen2 then Vec2(0.0, 1.0)
    else
      var s := sqrt(l2);
      var k := 1.0 / s;
      assert Cross(Scale(v, k), v) == k * Cross(v, v);
      assert Dot(Scale(v, k), v) == k * l2;
      MulPos(k, l2);
      assert IsSqrt(sqrt) ==> Len2(Scale(v, k)) == 1.0 by {
        if IsSqrt(sqrt) { UnitAfterDivide(v, s); }
      }
      Scale(v, k)
  }

  /** A closed interval [lo, hi] on an axis. */
  datatype Interval = Interval(lo: real, hi: real)

  /** The projections of the polygon's vertices onto the axis. */
  function Dots(p: seq<Vec2>, axis: Vec2): (r: seq<real>)
    ensures |r| == |p| && forall i :: 0 <= i < |p| ==> r[i] == Dot(p[i], axis)
  {
    seq(|p|, i requires 0 <= i < |p| => Dot(p[i], axis))
  }

  /** The shadow of a polygon on an axis. */
  function PolyInterval(p: seq<Vec2>, axis: Vec2): Interval
    requires |p| > 0
  {
    Interval(SeqMin(Dots(p, axis)), SeqMax(Dots(p, axis)))
  }

  /** projectPoly; the C++ reads p[0], so the polygon must not be empty. */
  method ProjectPoly(p: seq<Vec2>, axis: Vec2) returns (mn: real, mx: real)
    requires |p| > 0
    ensures Interval(mn, mx) == PolyInterval(p, axis)
    ensures mn <= mx
    ensures forall i :: 0 <= i < |p| ==> mn <= Dot(p[i], axis) <= mx
    ensures exists i :: 0 <= i < |p| && Dot(p[i], axis) == mn
    ensures exists i :: 0 <= i < |p| && Dot(p[i], axis) == mx
  {
    var ds := Dots(p, axis);
    mn := Dot(p[0], axis);
    mx := mn;
    assert ds[..1] == [ds[0]];
    for i := 1 to |p|
      invariant mn == SeqMin(ds[..i]) && mx == SeqMax(ds[..i])
    {
      SeqMinMaxStep(ds, i);
      var v := Dot(p[i], axis);
      mn := Min(mn, v);
      mx := Max(mx, v);
    }
    assert ds[..|p|] == ds;
  }

  /** projectCircle: the interval centred on the centre's projection, of
      width 2r. */
  function ProjectCircle(c: Vec2, r: real, axis: Vec2): (iv: Interval)
    ensures (iv.lo + iv.hi) / 2.0 == Dot(c, axis)
    ensures iv.hi - iv.lo == 2.0 * r
  {
    var p := Dot(c, axis);
    Interval(p - r, p + r)
  }

  /** How far two intervals overlap, and which way the second must move. */
  datatype AxisOverlap = AxisOverlap(overlap: real, sign: real)

  /** The decision part of overlapOnAxis on the two intervals. */
  function OverlapOf(pI: Interval, cI: Interval): (r: Option<AxisOverlap>)
    ensures r.None? <==> pI.hi < cI.lo || cI.hi < pI.lo
    ensures r.Some? ==> r.value.overlap == Min(pI.hi - cI.lo, cI.hi - pI.lo) && r.value.overlap >= 0.0
    ensures r.Some? ==> (r.value.sign == 1.0 <==> pI.hi - cI.lo < cI.hi - pI.lo)
    ensures r.Some? ==> r.value.sign == 1.0 || r.value.sign == -1.0
  {
    if pI.hi < cI.lo || cI.hi < pI.lo then None
    else
      var o1 := pI.hi - cI.lo;
      var o2 := cI.hi - pI.lo;
      if o1 < o2 then Some(AxisOverlap(o1, 1.0)) else Some(AxisOverlap(o2, -1.0))
  }

  /** overlapOnAxis */
  function OverlapOnAxis(poly: seq<Vec2>, c: Vec2, r: real, axis: Vec2): Option<AxisOverlap>
    requires |poly| > 0
  {
    OverlapOf(PolyInterval(poly, axis), ProjectCircle(c, r, axis))
  }

  /** Moving the circle by sign * overlap along a unit axis makes the two
      intervals just touch: the push overlapOnAxis reports separates them. */
  lemma PushSeparatesOnAxis(poly: seq<Vec2>, c: Vec2, r: real, axis: Vec2)
    requires |poly| > 0 && Len2(axis) == 1.0 && OverlapOnAxis(poly, c, r, axis).Some?
    ensures var o := OverlapOnAxis(poly, c, r, axis).value;
            var moved := ProjectCircle(Add(c, Scale(axis, o.overlap * o.sign)), r, axis);
            var pI := PolyInterval(poly, axis);
            (o.sign == 1.0 ==> moved.lo == pI.hi) && (o.sign == -1.0 ==> moved.hi == pI.lo)
  {
    var o := OverlapOnAxis(poly, c, r, axis).value;
    var k := o.overlap * o.sign;
    assert k == o.overlap || k == -o.overlap;
    DotShift(c, axis, k);
  }

  /** The axis of edge i: the normalised perpendicular of poly[i] -> poly[i+1]. */
  function EdgeAxis(poly: seq<Vec2>, i: nat, sqrt: real -> real): Vec2
    requires i < |poly| && SqrtPositive(sqrt)
  {
    NormalizeSafe(Perp(Sub(poly[(i + 1) % |poly|], poly[i])), sqrt)
  }

  /** Every edge axis, in edge order. */
  function EdgeAxes(poly: seq<Vec2>, sqrt: real -> real): (r: seq<Vec2>)
    requires SqrtPositive(sqrt)
    ensures |r| == |poly| && forall i :: 0 <= i < |poly| ==> r[i] == EdgeAxis(poly, i, sqrt)
  {
    seq(|poly|, i requires 0 <= i < |poly| => EdgeAxis(poly, i, sqrt))
  }

  /** The overlap of circle and polygon on every edge axis, in edge order. */
  function EdgeOverlaps(pos: Vec2, r: real, poly: seq<Vec2>, sqrt: real -> real): (o: seq<Option<AxisOverlap>>)
    requires SqrtPositive(sqrt)
    ensures |o| == |poly| && forall i :: 0 <= i < |poly| ==> o[i] == OverlapOnAxis(poly, pos, r, EdgeAxis(poly, i, sqrt))
  {
    seq(|poly|, i requires 0 <= i < |poly| => OverlapOnAxis(poly, pos, r, EdgeAxis(poly, i, sqrt)))
  }

  /** The state of the edge-axis loop: an axis has separated, no edge seen
      yet (minOverlap still infinite), or the best edge so far. */
  datatype EdgeScan = Separated | NoneYet | Best(overlap: real, axis: Vec2, sign: real)

  /** The edge-axis loop over the first k edges: the first edge with the
      strictly smallest overlap wins; a separating edge ends the search. */
  function ScanUpTo(axes: seq<Vec2>, ovs: seq<Option<AxisOverlap>>, k: nat): EdgeScan
    requires |axes| == |ovs| && k <= |ovs|
  {
    if k == 0 then NoneYet
    else
      var prev := ScanUpTo(axes, ovs, k - 1);
      if prev.Separated? then prev
      else
        match ovs[k - 1]
        case None => Separated
        case Some(o) =>
          if prev.NoneYet? || o.overlap < prev.overlap then Best(o.overlap, axes[k - 1], o.sign)
          else prev
  }

  /** The scan has seen no edge only before the first one; it separates
      exactly when some edge overlap is missing; otherwise its best is the
      smallest overlap so far, found on one of the edges. */
  lemma {:induction false} ScanUpToFacts(axes: seq<Vec2>, ovs: seq<Option<AxisOverlap>>, k: nat)
    requires |axes| == |ovs| && k <= |ovs|
    ensures var s := ScanUpTo(axes, ovs, k);
      && (s.NoneYet? <==> k == 0)
      && (s.Separated? <==> exists i :: 0 <= i < k && ovs[i].None?)
      && (s.Best? ==> forall i :: 0 <= i < k ==> ovs[i].Some? && s.overlap <= ovs[i].value.overlap)
      && (s.Best? ==> exists i :: 0 <= i < k && axes[i] == s.axis && ovs[i] == Some(AxisOverlap(s.overlap, s.sign)))
    decreases k
  {
    if k > 0 {
      ScanUpToFacts(axes, ovs, k - 1);
    }
  }

  /** One more edge: a separating edge ends the scan, a smaller overlap
      (or the first one) becomes the best. */
  lemma ScanStep(axes: seq<Vec2>, ovs: seq<Option<AxisOverlap>>, i: nat, st: EdgeScan)
    requires |axes| == |ovs| && i < |ovs| && ScanUpTo(axes, ovs, i) == st && !st.Separated?
    ensures ovs[i].None? ==> ScanUpTo(axes, ovs, |ovs|).Separated?
    ensures ovs[i].Some? ==>
      ScanUpTo(axes, ovs, i + 1) ==
        if st.NoneYet? || ovs[i].value.overlap < st.overlap then Best(ovs[i].value.overlap, axes[i], ovs[i].value.sign) else st
  {
    if ovs[i].None? {
      ScanUpToFacts(axes, ovs, |ovs|);
      assert 0 <= i < |ovs| && ovs[i].None?;
    }
  }

  /** The vertex-axis loop over the first k entries: the first index with
      the strictly smallest value. */
  function ArgMinUpTo(ds: seq<real>, k: nat): (b: nat)
    requires 1 <= k <= |ds|
    ensures b < k
    ensures forall i :: 0 <= i < k ==> ds[b] <= ds[i]
    ensures forall i :: 0 <= i < b ==> ds[b] < ds[i]
  {
    if k == 1 then 0
    else
      var b := ArgMinUpTo(ds, k - 1);
      if ds[k - 1] < ds[b] then k - 1 else b
  }

  /** The squared distance from every vertex to pos. */
  function VertexDists(poly: seq<Vec2>, pos: Vec2): (ds: seq<real>)
    ensures |ds| == |poly| && forall i :: 0 <= i < |poly| ==> ds[i] == DistSq(poly[i], pos)
  {
    seq(|poly|, i requires 0 <= i < |poly| => DistSq(poly[i], pos))
  }

  /** The vertex nearest to pos (the first one among equals). */
  function NearestVertex(poly: seq<Vec2>, pos: Vec2): nat
    requires |poly| > 0
  {
    ArgMinUpTo(VertexDists(poly, pos), |poly|)
  }

  /** The vertex axis: from the nearest vertex towards pos. */
  function VertexAxis(pos: Vec2, poly: seq<Vec2>, sqrt: real -> real): Vec2
    requires |poly| > 0 && SqrtPositive(sqrt)
  {
    NormalizeSafe(Sub(pos, poly[NearestVertex(poly, pos)]), sqrt)
  }

  /** The chosen push: its depth, its unit axis and its sign. */
  datatype Mtv = Mtv(depth: real, axis: Vec2, sign: real)

  /** The final comparison of mtvCirclePoly: the vertex axis replaces the
      best edge axis only when its overlap is strictly smaller. */
  function Choose(s: EdgeScan, vAxis: Vec2, vo: Option<AxisOverlap>): Option<Mtv>
  {
    if !s.Best? then None
    else
      match vo
      case Some(o) =>
        if o.overlap < s.overlap then Some(Mtv(o.overlap, vAxis, o.sign)) else Some(Mtv(s.overlap, s.axis, s.sign))
      case None => Some(Mtv(s.overlap, s.axis, s.sign))
  }

  /** After a full edge scan, the choice is the smallest overlap over every
      edge axis and the vertex axis, and it is one of them. */
  lemma ChooseIsMinimal(axes: seq<Vec2>, ovs: seq<Option<AxisOverlap>>, vAxis: Vec2, vo: Option<AxisOverlap>)
    requires |axes| == |ovs|
    requires ScanUpTo(axes, ovs, |ovs|).Best?
    ensures var m := Choose(ScanUpTo(axes, ovs, |ovs|), vAxis, vo).value;
            && (forall i :: 0 <= i < |ovs| ==> ovs[i].Some? && m.depth <= ovs[i].value.overlap)
            && (vo.Some? ==> m.depth <= vo.value.overlap)
            && ((m.axis == vAxis && vo == Some(AxisOverlap(m.depth, m.sign)))
                || exists i :: 0 <= i < |ovs| && m.axis == axes[i] && ovs[i] == Some(AxisOverlap(m.depth, m.sign)))
  {
    ScanUpToFacts(axes, ovs, |ovs|);
  }

  /** What mtvCirclePoly settles on before scaling. */
  function MtvChoice(pos: Vec2, r: real, poly: seq<Vec2>, sqrt: real -> real): (m: Option<Mtv>)
    requires SqrtPositive(sqrt)
  {
    if |poly| < 3 then None
    else
      var vAxis := VertexAxis(pos, poly, sqrt);
      Choose(ScanUpTo(EdgeAxes(poly, sqrt), EdgeOverlaps(pos, r, poly, sqrt), |poly|),
             vAxis, OverlapOnAxis(poly, pos, r, vAxis))
  }

  /** The translation a choice stands for: axis * (depth * sign). */
  function Push(m: Mtv): Vec2
  {
    Scale(m.axis, m.depth * m.sign)
  }

  /** mtvCirclePoly's result. */
  function MtvOf(pos: Vec2, r: real, poly: seq<Vec2>, sqrt: real -> real): Option<Vec2>
    requires SqrtPositive(sqrt)
  {
    match MtvChoice(pos, r, poly, sqrt)
    case None => None
    case Some(m) => Some(Push(m))
  }

  /** There is no MTV exactly for a polygon of fewer than three vertices or
      when some edge axis separates the circle from the polygon. */
  lemma MtvNoneIffSeparated(pos: Vec2, r: real, poly: seq<Vec2>, sqrt: real -> real)
    requires SqrtPositive(sqrt)
    ensures MtvOf(pos, r, poly, sqrt).None? <==>
      |poly| < 3 || exists i :: 0 <= i < |poly| && EdgeOverlaps(pos, r, poly, sqrt)[i].None?
  {
    if |poly| >= 3 {
      ScanUpToFacts(EdgeAxes(poly, sqrt), EdgeOverlaps(pos, r, poly, sqrt), |poly|);
    }
  }

  /** The MTV's depth is the smallest overlap over every edge axis and, when
      the circle overlaps on it, the vertex axis; it is one of those
      overlaps, it is not negative, and the push uses that axis. */
  lemma MtvDepthIsMinimalOverlap(pos: Vec2, r: real, poly: seq<Vec2>, sqrt: real -> real)
    requires SqrtPositive(sqrt) && MtvChoice(pos, r, poly, sqrt).Some?
    ensures var m := MtvChoice(pos, r, poly, sqrt).value;
            var ovs := EdgeOverlaps(pos, r, poly, sqrt);
            var vAxis := VertexAxis(pos, poly, sqrt);
            var vo := OverlapOnAxis(poly, pos, r, vAxis);
            && (forall i :: 0 <= i < |poly| ==> ovs[i].Some? && m.depth <= ovs[i].value.overlap)
            && (vo.Some? ==> m.depth <= vo.value.overlap)
            && ((m.axis == vAxis && vo == Some(AxisOverlap(m.depth, m.sign)))
                || exists i :: 0 <= i < |poly| && m.axis == EdgeAxes(poly, sqrt)[i] && ovs[i] == Some(AxisOverlap(m.depth, m.sign)))
            && m.depth >= 0.0 && (m.sign == 1.0 || m.sign == -1.0)
  {
    var axes := EdgeAxes(poly, sqrt);
    var ovs := EdgeOverlaps(pos, r, poly, sqrt);
    var vAxis := VertexAxis(pos, poly, sqrt);
    var vo := OverlapOnAxis(poly, pos, r, vAxis);
    ChooseIsMinimal(axes, ovs, vAxis, vo);
    var m := MtvChoice(pos, r, poly, sqrt).value;
    if !(m.axis == vAxis && vo == Some(AxisOverlap(m.depth, m.sign))) {
      var i :| 0 <= i < |poly| && m.axis == axes[i] && ovs[i] == Some(AxisOverlap(m.depth, m.sign));
      assert ovs[i] == OverlapOnAxis(poly, pos, r, EdgeAxis(poly, i, sqrt));
    }
  }

  /** With an exact square root the MTV's axis has unit length. */
  lemma MtvAxisIsUnit(pos: Vec2, r: real, poly: seq<Vec2>, sqrt: real -> real)
    requires SqrtPositive(sqrt) && IsSqrt(sqrt) && MtvChoice(pos, r, poly, sqrt).Some?
    ensures Len2(MtvChoice(pos, r, poly, sqrt).value.axis) == 1.0
  {
    var m := MtvChoice(pos, r, poly, sqrt).value;
    MtvDepthIsMinimalOverlap(pos, r, poly, sqrt);
    if m.axis != VertexAxis(pos, poly, sqrt) {
      var i :| 0 <= i < |poly| && m.axis == EdgeAxes(poly, sqrt)[i];
      assert m.axis == EdgeAxis(poly, i, sqrt);
    }
  }

  /** A push along a unit axis with sign +-1 is depth long: with an exact
      square root (MtvAxisIsUnit, MtvDepthIsMinimalOverlap) the MTV is
      exactly as long as the smallest overlap. */
  lemma PushLength(m: Mtv)
    requires Len2(m.axis) == 1.0 && (m.sign == 1.0 || m.sign == -1.0)
    ensures Len2(Push(m)) == m.depth * m.depth
  {
    Len2Scale(m.axis, m.depth * m.sign);
    assert (m.depth * m.sign) * (m.depth * m.sign) == m.depth * m.depth * (m.sign * m.sign);
  }

  /** The edge-axis loop of mtvCirclePoly, over the axes and overlaps of
      the edges in order: it stops at the first separating axis, and
      otherwise keeps the first edge with the smallest overlap. */
  method BestEdgeAxis(axes: seq<Vec2>, ovs: seq<Option<AxisOverlap>>)
    returns (separated: bool, minOverlap: real, bestAxis: Vec2, bestSign: real)
    requires |axes| == |ovs| > 0
    ensures var s := ScanUpTo(axes, ovs, |ovs|);
            if separated then s.Separated? else s == Best(minOverlap, bestAxis, bestSign)
  {
    // minOverlap starts at +infinity: the first edge always replaces it
    minOverlap, bestAxis, bestSign := 0.0, Vec2(0.0, 0.0), 1.0;
    for i := 0 to |ovs|
      invariant i == 0 || ScanUpTo(axes, ovs, i) == Best(minOverlap, bestAxis, bestSign)
    {
      var ov := ovs[i];
      ScanStep(axes, ovs, i, if i == 0 then NoneYet else Best(minOverlap, bestAxis, bestSign));
      if ov.None? {
        separated := true;
        return;
      }
      if i == 0 || ov.value.overlap < minOverlap {
        minOverlap, bestAxis, bestSign := ov.value.overlap, axes[i], ov.value.sign;
      }
    }
    separated := false;
  }

  /** The vertex loop of mtvCirclePoly: the nearest vertex, the first one
      among equals. */
  method NearestVertexIndex(poly: seq<Vec2>, pos: Vec2) returns (bestV: nat)
    requires |poly| > 0
    ensures bestV == NearestVertex(poly, pos)
    ensures bestV < |poly| && forall i :: 0 <= i < |poly| ==> DistSq(poly[bestV], pos) <= DistSq(poly[i], pos)
  {
    ghost var ds := VertexDists(poly, pos);
    // bestD starts at +infinity: the first vertex always replaces it
    bestV := 0;
    var bestD := Len2(Sub(poly[0], pos));
    for i := 1 to |poly|
      invariant bestV == ArgMinUpTo(ds, i) && bestD == ds[bestV]
    {
      var d := Len2(Sub(poly[i], pos));
      assert d == ds[i];
      if d < bestD {
        bestD, bestV := d, i;
      }
    }
  }

  /** mtvCirclePoly */
  method MtvCirclePoly(pos: Vec2, r: real, poly: seq<Vec2>, sqrt: real -> real) returns (mtv: Option<Vec2>)
    requires SqrtPositive(sqrt)
    ensures mtv == MtvOf(pos, r, poly, sqrt)
  {
    if |poly| < 3 {
      return None;
    }
    var separated, minOverlap, bestAxis, bestSign :=
      BestEdgeAxis(EdgeAxes(poly, sqrt), EdgeOverlaps(pos, r, poly, sqrt));
    if separated {
      return None;
    }
    var bestV := NearestVertexIndex(poly, pos);
    var vAxis := NormalizeSafe(Sub(pos, poly[bestV]), sqrt);
    var ov := OverlapOnAxis(poly, pos, r, vAxis);
    ghost var choice := Choose(Best(minOverlap, bestAxis, bestSign), vAxis, ov);
    assert MtvChoice(pos, r, poly, sqrt) == choice;
    if ov.Some? && ov.value.overlap < minOverlap {
      minOverlap, bestAxis, bestSign := ov.value.overlap, vAxis, ov.value.sign;
    }
    assert choice == Some(Mtv(minOverlap, bestAxis, bestSign));
    mtv := Some(Push(Mtv(minOverlap, bestAxis, bestSign)));
  }

  /** The resolver's running state: the circle's position and velocity,
      whether it has landed, on which block, and the largest upward push
      recorded so far. */
  datatype Contact = Contact(pos: Vec2, vel: Vec2, grounded: bool, groundId: int, bestUp: real)

  /** The state resolveCircleAgainstPlatforms starts from. */
  function Start(pos: Vec2, vel: Vec2): Contact
  {
    Contact(pos, vel, false, -1, 0.0)
  }

  /** What one MTV does to the state: an upward push on a falling (or
      resting) circle is applied, anything else is ignored. The flag says
      whether a push happened. */
  function ApplyMtv(st: Contact, id: int, mtv: Option<Vec2>): (Contact, bool)
  {
    match mtv
    case None => (st, false)
    case Some(m) =>
      if m.y > 0.0 && st.vel.y <= 0.0 then
        var higher := m.y > st.bestUp;
        (Contact(Add(st.pos, m), Vec2(st.vel.x, 0.0), true,
                 if higher then id else st.groundId,
                 if higher then m.y else st.bestUp), true)
      else (st, false)
  }

  /** One platform within a pass. */
  function PlatformStep(st: Contact, radius: real, pl: ShadowPoly, sqrt: real -> real): (Contact, bool)
    requires SqrtPositive(sqrt)
  {
    if |pl.hull| < 3 then (st, false)
    else ApplyMtv(st, pl.objectId, MtvOf(st.pos, radius, pl.hull, sqrt))
  }

  /** A pass over the first k platforms, with the pass's `any` flag. */
  function PassUpTo(st: Contact, radius: real, ps: seq<ShadowPoly>, k: nat, sqrt: real -> real): (Contact, bool)
    requires SqrtPositive(sqrt) && k <= |ps|
    decreases k, 1
  {
    if k == 0 then (st, false)
    else
      var step := StepAt(st, radius, ps, k, sqrt);
      (step.0, PassUpTo(st, radius, ps, k - 1, sqrt).1 || step.1)
  }

  /** Platform k-1's step within a pass, on the state the platforms before
      it leave. */
  function StepAt(st: Contact, radius: real, ps: seq<ShadowPoly>, k: nat, sqrt: real -> real): (Contact, bool)
    requires SqrtPositive(sqrt) && 0 < k <= |ps|
    decreases k, 0
  {
    PlatformStep(PassUpTo(st, radius, ps, k - 1, sqrt).0, radius, ps[k - 1], sqrt)
  }

  /** At most n more passes; a pass without any push ends the search. */
  function Passes(st: Contact, radius: real, ps: seq<ShadowPoly>, n: nat, sqrt: real -> real): Contact
    requires SqrtPositive(sqrt)
    decreases n
  {
    if n == 0 then st
    else
      var (next, any) := PassUpTo(st, radius, ps, |ps|, sqrt);
      if !any then next else Passes(next, radius, ps, n - 1, sqrt)
  }

  /** What resolveCircleAgainstPlatforms leaves behind. */
  function Resolved(pos: Vec2, radius: real, ps: seq<ShadowPoly>, vel: Vec2, sqrt: real -> real): Contact
    requires SqrtPositive(sqrt)
  {
    Passes(Start(pos, vel), radius, ps, ResolvePasses, sqrt)
  }

  /** What holds of every state the resolver goes through: the horizontal
      velocity is untouched; a landed circle has stopped falling, has only
      been pushed up, and stands on the block of platform g; a circle that
      has not landed is exactly where it started. */
  predicate ContactInvariant(st: Contact, pos0: Vec2, vel0: Vec2, ps: seq<ShadowPoly>, g: int)
  {
    && st.vel.x == vel0.x
    && (st.grounded ==>
          && vel0.y <= 0.0 && st.vel.y == 0.0 && st.pos.y > pos0.y && st.bestUp > 0.0
          && 0 <= g < |ps| && ps[g].objectId == st.groundId)
    && (!st.grounded ==> st == Start(pos0, vel0))
  }

  /** A step from st (standing on platform g) to r (with its push flag,
      standing on platform g') keeps the invariant: it lands when it pushes
      and changes nothing when it does not. */
  predicate KeepsInvariant(st: Contact, r: (Contact, bool), pos0: Vec2, vel0: Vec2, ps: seq<ShadowPoly>, g: int, g': int)
  {
    ContactInvariant(r.0, pos0, vel0, ps, g') && (r.1 ==> r.0.grounded) && (!r.1 ==> r.0 == st && g' == g)
  }

  /** A push happens only as a landing, and keeps the invariant. */
  lemma PlatformStepKeepsInvariant(st: Contact, radius: real, ps: seq<ShadowPoly>, j: nat, pos0: Vec2, vel0: Vec2,
                                   sqrt: real -> real, g: int) returns (g': int)
    requires SqrtPositive(sqrt) && j < |ps| && ContactInvariant(st, pos0, vel0, ps, g)
    ensures KeepsInvariant(st, PlatformStep(st, radius, ps[j], sqrt), pos0, vel0, ps, g, g')
  {
    var (next, pushed) := PlatformStep(st, radius, ps[j], sqrt);
    g' := g;
    if pushed {
      var m := MtvOf(st.pos, radius, ps[j].hull, sqrt).value;
      assert next.pos.y == st.pos.y + m.y;
      if next.groundId == ps[j].objectId {
        g' := j;
      } else {
        assert st.grounded;
      }
    }
  }

  /** Every pass keeps the invariant; a pass that pushed leaves the circle
      landed, and one that did not changes nothing. */
  lemma {:induction false} PassKeepsInvariant(st: Contact, radius: real, ps: seq<ShadowPoly>, k: nat, pos0: Vec2, vel0: Vec2,
                                              sqrt: real -> real, g: int) returns (g': int)
    requires SqrtPositive(sqrt) && k <= |ps| && ContactInvariant(st, pos0, vel0, ps, g)
    ensures KeepsInvariant(st, PassUpTo(st, radius, ps, k, sqrt), pos0, vel0, ps, g, g')
  {
    if k > 0 {
      var g1 := PassKeepsInvariant(st, radius, ps, k - 1, pos0, vel0, sqrt, g);
      var before := PassUpTo(st, radius, ps, k - 1, sqrt);
      g' := PlatformStepKeepsInvariant(before.0, radius, ps, k - 1, pos0, vel0, sqrt, g1);
      var step := PlatformStep(before.0, radius, ps[k - 1], sqrt);
      PassUpToUnfold(st, radius, ps, k, sqrt);
      PassStepKeepsInvariant(st, before, step, pos0, vel0, ps, g, g1, g');
    } else {
      g' := g;
    }
  }

  /** A pass over k platforms is the pass over k - 1 and then platform k - 1's step. */
  lemma PassUpToUnfold(st: Contact, radius: real, ps: seq<ShadowPoly>, k: nat, sqrt: real -> real)
    requires SqrtPositive(sqrt) && 0 < k <= |ps|
    ensures var before := PassUpTo(st, radius, ps, k - 1, sqrt);
            var step := PlatformStep(before.0, radius, ps[k - 1], sqrt);
            PassUpTo(st, radius, ps, k, sqrt) == (step.0, before.1 || step.1)
  {
    assert StepAt(st, radius, ps, k, sqrt) == PlatformStep(PassUpTo(st, radius, ps, k - 1, sqrt).0, radius, ps[k - 1], sqrt);
  }

  /** The pass invariant after one more platform, from the invariant before
      it and the platform step's own promise. */
  lemma PassStepKeepsInvariant(st: Contact, before: (Contact, bool), step: (Contact, bool),
                               pos0: Vec2, vel0: Vec2, ps: seq<ShadowPoly>, g: int, g1: int, g2: int)
    requires KeepsInvariant(st, before, pos0, vel0, ps, g, g1)
    requires KeepsInvariant(before.0, step, pos0, vel0, ps, g1, g2)
    ensures KeepsInvariant(st, (step.0, before.1 || step.1), pos0, vel0, ps, g, g2)
  {
  }

  lemma {:induction false} PassesKeepInvariant(st: Contact, radius: real, ps: seq<ShadowPoly>, n: nat, pos0: Vec2, vel0: Vec2,
                                               sqrt: real -> real, g: int) returns (g': int)
    requires SqrtPositive(sqrt) && ContactInvariant(st, pos0, vel0, ps, g)
    ensures ContactInvariant(Passes(st, radius, ps, n, sqrt), pos0, vel0, ps, g')
    decreases n
  {
    g' := g;
    if n > 0 {
      g' := PassKeepsInvariant(st, radius, ps, |ps|, pos0, vel0, sqrt, g);
      var (next, any) := PassUpTo(st, radius, ps, |ps|, sqrt);
      if any {
        g' := PassesKeepInvariant(next, radius, ps, n - 1, pos0, vel0, sqrt, g');
      }
    }
  }

  /** The one-way resolver's promises: it never touches the horizontal
      velocity; a circle moving up is never pushed; when it lands it has
      stopped falling, it has been pushed strictly up, and the reported
      block casts one of the platforms; when it does not land, position,
      velocity and id (-1) are as they were. */
  lemma ResolveIsOneWay(pos: Vec2, radius: real, ps: seq<ShadowPoly>, vel: Vec2, sqrt: real -> real)
    requires SqrtPositive(sqrt)
    ensures var c := Resolved(pos, radius, ps, vel, sqrt);
            && c.vel.x == vel.x
            && (vel.y > 0.0 ==> !c.grounded)
            && (c.grounded ==> c.vel.y == 0.0 && c.pos.y > pos.y
                               && exists i :: 0 <= i < |ps| && ps[i].objectId == c.groundId)
            && (!c.grounded ==> c.pos == pos && c.vel == vel && c.groundId == -1)
  {
    var g := PassesKeepInvariant(Start(pos, vel), radius, ps, ResolvePasses, pos, vel, sqrt, -1);
  }

  // -----------------------------------------------------------------------
  // Which block the circle stands on: the highest landing, the first of equals

  /** A push the resolver applied: the block whose platform pushed the
      circle and how far up. */
  datatype Landing = Landing(id: int, up: real)

  /** The push, if any, that an MTV applies to st: an upward one while the
      circle is not rising. */
  function PushOfMtv(st: Contact, id: int, mtv: Option<Vec2>): seq<Landing>
  {
    match mtv
    case None => []
    case Some(m) => if m.y > 0.0 && st.vel.y <= 0.0 then [Landing(id, m.y)] else []
  }

  /** The push, if any, that one platform of three or more points applies
      to st. */
  function PushOf(st: Contact, radius: real, pl: ShadowPoly, sqrt: real -> real): seq<Landing>
    requires SqrtPositive(sqrt)
  {
    if |pl.hull| < 3 then [] else PushOfMtv(st, pl.objectId, MtvOf(st.pos, radius, pl.hull, sqrt))
  }

  /** The pushes of a pass over the first k platforms, in order. */
  function PushesUpTo(st: Contact, radius: real, ps: seq<ShadowPoly>, k: nat, sqrt: real -> real): seq<Landing>
    requires SqrtPositive(sqrt) && k <= |ps|
  {
    if k == 0 then []
    else PushesUpTo(st, radius, ps, k - 1, sqrt) + PushOf(PassUpTo(st, radius, ps, k - 1, sqrt).0, radius, ps[k - 1], sqrt)
  }

  /** The pushes of at most n passes, in order. */
  function PushesOver(st: Contact, radius: real, ps: seq<ShadowPoly>, n: nat, sqrt: real -> real): seq<Landing>
    requires SqrtPositive(sqrt)
    decreases n
  {
    if n == 0 then []
    else
      var (next, any) := PassUpTo(st, radius, ps, |ps|, sqrt);
      PushesUpTo(st, radius, ps, |ps|, sqrt) + (if any then PushesOver(next, radius, ps, n - 1, sqrt) else [])
  }

  /** Every push resolveCircleAgainstPlatforms applies, in order. */
  function Landings(pos: Vec2, radius: real, ps: seq<ShadowPoly>, vel: Vec2, sqrt: real -> real): seq<Landing>
    requires SqrtPositive(sqrt)
  {
    PushesOver(Start(pos, vel), radius, ps, ResolvePasses, sqrt)
  }

  /** L[i] is a highest push of L and no push before it is as high. */
  predicate IsFirstHighest(L: seq<Landing>, i: int)
  {
    && 0 <= i < |L|
    && (forall j :: 0 <= j < |L| ==> L[j].up <= L[i].up)
    && (forall j :: 0 <= j < i ==> L[j].up < L[i].up)
  }

  /** st after the pushes L, with i the index of their first highest:
      landed exactly when something pushed, and then on the block of push i
      with its height as bestUp; otherwise with id -1 and bestUp 0. */
  predicate RecordsFirstHighest(st: Contact, L: seq<Landing>, i: int)
  {
    && (forall j :: 0 <= j < |L| ==> L[j].up > 0.0)
    && (st.grounded <==> |L| > 0)
    && (|L| == 0 ==> st.groundId == -1 && st.bestUp == 0.0)
    && (|L| > 0 ==> IsFirstHighest(L, i) && st.groundId == L[i].id && st.bestUp == L[i].up)
  }

  /** A push strictly higher than every earlier one takes over the ground
      block; one that is not leaves the earlier first highest in place. */
  lemma ApplyMtvRecords(st: Contact, id: int, mtv: Option<Vec2>, L: seq<Landing>, i: int) returns (i': int)
    requires RecordsFirstHighest(st, L, i)
    ensures RecordsFirstHighest(ApplyMtv(st, id, mtv).0, L + PushOfMtv(st, id, mtv), i')
    ensures ApplyMtv(st, id, mtv).1 <==> PushOfMtv(st, id, mtv) != []
  {
    var P := PushOfMtv(st, id, mtv);
    var L' := L + P;
    i' := i;
    if P != [] {
      if mtv.value.y > st.bestUp {
        i' := |L|;
        assert forall j :: 0 <= j < |L| ==> L'[j] == L[j];
      } else {
        assert IsFirstHighest(L', i);
      }
    } else {
      assert L' == L;
    }
  }

  lemma PlatformStepRecords(st: Contact, radius: real, pl: ShadowPoly, sqrt: real -> real, L: seq<Landing>, i: int) returns (i': int)
    requires SqrtPositive(sqrt) && RecordsFirstHighest(st, L, i)
    ensures RecordsFirstHighest(PlatformStep(st, radius, pl, sqrt).0, L + PushOf(st, radius, pl, sqrt), i')
    ensures PlatformStep(st, radius, pl, sqrt).1 <==> PushOf(st, radius, pl, sqrt) != []
  {
    if |pl.hull| >= 3 {
      i' := ApplyMtvRecords(st, pl.objectId, MtvOf(st.pos, radius, pl.hull, sqrt), L, i);
    } else {
      i' := i;
      assert L + PushOf(st, radius, pl, sqrt) == L;
    }
  }

  /** A pass over the first k platforms records the first highest of all
      pushes so far, and reports a push exactly when it made one. */
  lemma {:induction false} PassRecords(st: Contact, radius: real, ps: seq<ShadowPoly>, k: nat, sqrt: real -> real,
                                       L: seq<Landing>, i: int) returns (i': int)
    requires SqrtPositive(sqrt) && k <= |ps| && RecordsFirstHighest(st, L, i)
    ensures RecordsFirstHighest(PassUpTo(st, radius, ps, k, sqrt).0, L + PushesUpTo(st, radius, ps, k, sqrt), i')
    ensures PassUpTo(st, radius, ps, k, sqrt).1 <==> PushesUpTo(st, radius, ps, k, sqrt) != []
  {
    if k > 0 {
      var i0 := PassRecords(st, radius, ps, k - 1, sqrt, L, i);
      var before := PassUpTo(st, radius, ps, k - 1, sqrt);
      var earlier := PushesUpTo(st, radius, ps, k - 1, sqrt);
      i' := PlatformStepRecords(before.0, radius, ps[k - 1], sqrt, L + earlier, i0);
      var step := PlatformStep(before.0, radius, ps[k - 1], sqrt);
      var P := PushOf(before.0, radius, ps[k - 1], sqrt);
      PassStepRecords(L, earlier, P, before, step, i0, i');
      PassUpToUnfold(st, radius, ps, k, sqrt);
      assert PushesUpTo(st, radius, ps, k, sqrt) == earlier + P;
    } else {
      i' := i;
      assert L + PushesUpTo(st, radius, ps, k, sqrt) == L;
    }
  }

  /** The record after one more platform, from the record before it and
      the platform step's own promise. */
  lemma PassStepRecords(L: seq<Landing>, earlier: seq<Landing>, P: seq<Landing>, before: (Contact, bool), step: (Contact, bool),
                        i0: int, i: int)
    requires RecordsFirstHighest(before.0, L + earlier, i0) && (before.1 <==> earlier != [])
    requires RecordsFirstHighest(step.0, (L + earlier) + P, i) && (step.1 <==> P != [])
    ensures RecordsFirstHighest(step.0, L + (earlier + P), i) && (before.1 || step.1 <==> earlier + P != [])
  {
    assert (L + earlier) + P == L + (earlier + P);
  }

  lemma {:induction false} PassesRecord(st: Contact, radius: real, ps: seq<ShadowPoly>, n: nat, sqrt: real -> real,
                                        L: seq<Landing>, i: int) returns (i': int)
    requires SqrtPositive(sqrt) && RecordsFirstHighest(st, L, i)
    ensures RecordsFirstHighest(Passes(st, radius, ps, n, sqrt), L + PushesOver(st, radius, ps, n, sqrt), i')
    decreases n, 3
  {
    if n == 0 {
      i' := i;
      NoPassesRecord(st, radius, ps, sqrt, L, i);
    } else {
      i' := MorePassesRecord(st, radius, ps, n, sqrt, L, i);
    }
  }

  /** PassesRecord when at least one pass is left. */
  lemma {:induction false} MorePassesRecord(st: Contact, radius: real, ps: seq<ShadowPoly>, n: nat, sqrt: real -> real,
                                            L: seq<Landing>, i: int) returns (i': int)
    requires SqrtPositive(sqrt) && RecordsFirstHighest(st, L, i) && n > 0
    ensures RecordsFirstHighest(Passes(st, radius, ps, n, sqrt), L + PushesOver(st, radius, ps, n, sqrt), i')
    decreases n, 2
  {
    var i0 := PassRecords(st, radius, ps, |ps|, sqrt, L, i);
    if PassUpTo(st, radius, ps, |ps|, sqrt).1 {
      i' := PushedPassesRecord(st, radius, ps, n, sqrt, L, i0);
    } else {
      i' := i0;
      QuietPassRecords(st, radius, ps, n, sqrt, L, i0);
    }
  }

  /** A pass that pushed is followed by the remaining passes. */
  lemma {:induction false} PushedPassesRecord(st: Contact, radius: real, ps: seq<ShadowPoly>, n: nat, sqrt: real -> real,
                                              L: seq<Landing>, i0: int) returns (i': int)
    requires SqrtPositive(sqrt) && n > 0 && PassUpTo(st, radius, ps, |ps|, sqrt).1
    requires RecordsFirstHighest(PassUpTo(st, radius, ps, |ps|, sqrt).0, L + PushesUpTo(st, radius, ps, |ps|, sqrt), i0)
    ensures RecordsFirstHighest(Passes(st, radius, ps, n, sqrt), L + PushesOver(st, radius, ps, n, sqrt), i')
    decreases n, 1
  {
    i' := RecordAfterFirstPass(st, radius, ps, n, sqrt, L, i0);
    PushedPassesUnfold(st, radius, ps, n, sqrt, L, i');
  }

  /** The remaining passes after a first pass that pushed, with the pushes
      regrouped as the first pass's followed by the rest. */
  lemma {:induction false} RecordAfterFirstPass(st: Contact, radius: real, ps: seq<ShadowPoly>, n: nat, sqrt: real -> real,
                                                L: seq<Landing>, i0: int) returns (i': int)
    requires SqrtPositive(sqrt) && n > 0
    requires RecordsFirstHighest(PassUpTo(st, radius, ps, |ps|, sqrt).0, L + PushesUpTo(st, radius, ps, |ps|, sqrt), i0)
    ensures var r := PassUpTo(st, radius, ps, |ps|, sqrt);
            RecordsFirstHighest(Passes(r.0, radius, ps, n - 1, sqrt),
                                L + (PushesUpTo(st, radius, ps, |ps|, sqrt) + PushesOver(r.0, radius, ps, n - 1, sqrt)), i')
    decreases n, 0
  {
    var r := PassUpTo(st, radius, ps, |ps|, sqrt);
    var first := PushesUpTo(st, radius, ps, |ps|, sqrt);
    i' := PassesRecord(r.0, radius, ps, n - 1, sqrt, L + first, i0);
    RecordRegrouped(Passes(r.0, radius, ps, n - 1, sqrt), L, first, PushesOver(r.0, radius, ps, n - 1, sqrt), i');
  }

  lemma RecordRegrouped(c: Contact, L: seq<Landing>, first: seq<Landing>, rest: seq<Landing>, i: int)
    requires RecordsFirstHighest(c, (L + first) + rest, i)
    ensures RecordsFirstHighest(c, L + (first + rest), i)
  {
    assert (L + first) + rest == L + (first + rest);
  }

  /** The record after a pass that pushed and the passes after it is the
      record after all n passes. */
  lemma PushedPassesUnfold(st: Contact, radius: real, ps: seq<ShadowPoly>, n: nat, sqrt: real -> real, L: seq<Landing>, i: int)
    requires SqrtPositive(sqrt) && n > 0 && PassUpTo(st, radius, ps, |ps|, sqrt).1
    requires var r := PassUpTo(st, radius, ps, |ps|, sqrt);
             RecordsFirstHighest(Passes(r.0, radius, ps, n - 1, sqrt),
                                 L + (PushesUpTo(st, radius, ps, |ps|, sqrt) + PushesOver(r.0, radius, ps, n - 1, sqrt)), i)
    ensures RecordsFirstHighest(Passes(st, radius, ps, n, sqrt), L + PushesOver(st, radius, ps, n, sqrt), i)
  {
    PassesUnfold(st, radius, ps, n, sqrt);
  }

  /** A pass that pushed nothing ends the passes. */
  lemma QuietPassRecords(st: Contact, radius: real, ps: seq<ShadowPoly>, n: nat, sqrt: real -> real, L: seq<Landing>, i0: int)
    requires SqrtPositive(sqrt) && n > 0 && !PassUpTo(st, radius, ps, |ps|, sqrt).1
    requires RecordsFirstHighest(PassUpTo(st, radius, ps, |ps|, sqrt).0, L + PushesUpTo(st, radius, ps, |ps|, sqrt), i0)
    ensures RecordsFirstHighest(Passes(st, radius, ps, n, sqrt), L + PushesOver(st, radius, ps, n, sqrt), i0)
  {
    PassesUnfold(st, radius, ps, n, sqrt);
  }

  lemma NoPassesRecord(st: Contact, radius: real, ps: seq<ShadowPoly>, sqrt: real -> real, L: seq<Landing>, i: int)
    requires SqrtPositive(sqrt) && RecordsFirstHighest(st, L, i)
    ensures RecordsFirstHighest(Passes(st, radius, ps, 0, sqrt), L + PushesOver(st, radius, ps, 0, sqrt), i)
  {
    assert L + PushesOver(st, radius, ps, 0, sqrt) == L;
  }

  /** One more pass, unfolded, with the pushes it adds. */
  lemma PassesUnfold(st: Contact, radius: real, ps: seq<ShadowPoly>, n: nat, sqrt: real -> real)
    requires SqrtPositive(sqrt) && n > 0
    ensures var r := PassUpTo(st, radius, ps, |ps|, sqrt);
            var first := PushesUpTo(st, radius, ps, |ps|, sqrt);
            && Passes(st, radius, ps, n, sqrt) == (if r.1 then Passes(r.0, radius, ps, n - 1, sqrt) else r.0)
            && PushesOver(st, radius, ps, n, sqrt) == (if r.1 then first + PushesOver(r.0, radius, ps, n - 1, sqrt) else first)
  {
    var r := PassUpTo(st, radius, ps, |ps|, sqrt);
    var first := PushesUpTo(st, radius, ps, |ps|, sqrt);
    if !r.1 {
      assert first + [] == first;
    }
  }

  /** The reported ground block is the one that pushed the circle up the
      most, the earliest one among equal pushes (the strict `>` against
      bestUp); the circle is grounded exactly when some push was applied,
      and otherwise reports no block. */
  lemma ResolveLandsOnFirstHighest(pos: Vec2, radius: real, ps: seq<ShadowPoly>, vel: Vec2, sqrt: real -> real)
    requires SqrtPositive(sqrt)
    ensures var c := Resolved(pos, radius, ps, vel, sqrt);
            var L := Landings(pos, radius, ps, vel, sqrt);
            && (c.grounded <==> |L| > 0)
            && (forall j :: 0 <= j < |L| ==> L[j].up > 0.0)
            && (c.grounded ==> exists i :: IsFirstHighest(L, i) && c.groundId == L[i].id && c.bestUp == L[i].up)
            && (!c.grounded ==> c.groundId == -1)
  {
    var i := PassesRecord(Start(pos, vel), radius, ps, ResolvePasses, sqrt, [], 0);
    assert [] + Landings(pos, radius, ps, vel, sqrt) == Landings(pos, radius, ps, vel, sqrt);
  }

  /** The body of the resolver's platform loop. */
  method ResolvePlatform(st: Contact, radius: real, pl: ShadowPoly, sqrt: real -> real)
    returns (next: Contact, pushed: bool)
    requires SqrtPositive(sqrt)
    ensures (next, pushed) == PlatformStep(st, radius, pl, sqrt)
  {
    next, pushed := st, false;
    if |pl.hull| < 3 {
      return;
    }
    var mtv := MtvCirclePoly(st.pos, radius, pl.hull, sqrt);
    next, pushed := ApplyPush(st, pl.objectId, mtv);
  }

  /** The rest of the platform loop's body, once the MTV is known. */
  method ApplyPush(st: Contact, id: int, mtv: Option<Vec2>) returns (next: Contact, pushed: bool)
    ensures (next, pushed) == ApplyMtv(st, id, mtv)
  {
    next, pushed := st, false;
    if mtv.None? {
      return;
    }
    // only resolve "standing" collisions
    if mtv.value.y > 0.0 && st.vel.y <= 0.0 {
      pushed := true;
      next := Contact(Add(st.pos, mtv.value), Vec2(st.vel.x, 0.0), true, st.groundId, st.bestUp);
      if mtv.value.y > st.bestUp {
        next := next.(groundId := id, bestUp := mtv.value.y);
      }
    }
  }

  /** One pass of resolveCircleAgainstPlatforms over every platform. */
  method ResolvePass(st: Contact, radius: real, platforms: seq<ShadowPoly>, sqrt: real -> real)
    returns (next: Contact, any: bool)
    requires SqrtPositive(sqrt)
    ensures (next, any) == PassUpTo(st, radius, platforms, |platforms|, sqrt)
  {
    next, any := st, false;
    for j := 0 to |platforms|
      invariant PassUpTo(st, radius, platforms, j, sqrt) == (next, any)
    {
      var pushed;
      next, pushed := ResolvePlatform(next, radius, platforms[j], sqrt);
      any := any || pushed;
    }
  }

  /** resolveCircleAgainstPlatforms: vel, grounded and groundObjectId are
      the C++ reference parameters, returned here with the new position. */
  method ResolveCircleAgainstPlatforms(pos: Vec2, radius: real, platforms: seq<ShadowPoly>, vel: Vec2, sqrt: real -> real)
    returns (newPos: Vec2, newVel: Vec2, grounded: bool, groundObjectId: int)
    requires SqrtPositive(sqrt)
    ensures var c := Resolved(pos, radius, platforms, vel, sqrt);
            newPos == c.pos && newVel == c.vel && grounded == c.grounded && groundObjectId == c.groundId
  {
    var st := Start(pos, vel);
    var iter := 0;
    while iter < ResolvePasses
      invariant iter <= ResolvePasses
      invariant Passes(st, radius, platforms, ResolvePasses - iter, sqrt) == Resolved(pos, radius, platforms, vel, sqrt)
    {
      var any;
      st, any := ResolvePass(st, radius, platforms, sqrt);
      if !any {
        break;
      }
      iter := iter + 1;
    }
    newPos, newVel, grounded, groundObjectId := st.pos, st.vel, st.grounded, st.groundId;
  }
}
