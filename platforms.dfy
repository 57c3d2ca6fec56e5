/** Shadow platforms and the queries the physics and the level logic run on
    them: the horizontal extent of a hull (xRange), the height of its top
    boundary at a given x (topYAtX) and the lookup of a platform by the id
    of the block that casts it. scene.cpp and shadow.cpp carry identical
    copies of xRange and topYAtX, and pickSpawnOnPlatformTopInLight repeats
    topYAtX inline; all of them are this one module. */
module Platforms {
  import opened Numbers
  import opened Vectors

  /** ShadowPoly: the convex shadow of block `objectId` on the wall. */
  datatype ShadowPoly = ShadowPoly(objectId: int, hull: seq<Vec2>)

  /** The horizontal extent of a non-empty polygon. */
  datatype XSpan = XSpan(minX: real, maxX: real)

  /** x-range tolerance of an edge */
  const SpanEps: real := 0.00001
  /** below this |dx| an edge counts as vertical */
  const VerticalEps: real := 0.000001
  /** how close a vertical edge must be to the query x */
  const VerticalHitEps: real := 0.0001
  /** tolerance on the interpolation parameter */
  const ParamEps: real := 0.0001

  function Xs(poly: seq<Vec2>): (r: seq<real>)
    ensures |r| == |poly| && forall i :: 0 <= i < |poly| ==> r[i] == poly[i].x
  {
    seq(|poly|, i requires 0 <= i < |poly| => poly[i].x)
  }

  function MinX(poly: seq<Vec2>): real
    requires |poly| > 0
  {
    SeqMin(Xs(poly))
  }

  function MaxX(poly: seq<Vec2>): real
    requires |poly| > 0
  {
    SeqMax(Xs(poly))
  }

  /** xRange: None stands for the (+infinity, -infinity) pair an empty
      polygon leaves behind. */
  method XRange(poly: seq<Vec2>) returns (r: Option<XSpan>)
    ensures r.None? <==> |poly| == 0
    ensures r.Some? ==> r.value == XSpan(MinX(poly), MaxX(poly))
    ensures r.Some? ==> forall i :: 0 <= i < |poly| ==> r.value.minX <= poly[i].x <= r.value.maxX
    ensures r.Some? ==> exists i :: 0 <= i < |poly| && poly[i].x == r.value.minX
    ensures r.Some? ==> exists i :: 0 <= i < |poly| && poly[i].x == r.value.maxX
  {
    var xs := Xs(poly);
    r := None;
    for i := 0 to |poly|
      invariant r.None? <==> i == 0
      invariant r.Some? ==> r.value == XSpan(SeqMin(xs[..i]), SeqMax(xs[..i]))
    {
      assert xs[..i + 1][..i] == xs[..i];
      if r.None? {
        r := Some(XSpan(poly[i].x, poly[i].x));
      } else {
        r := Some(XSpan(Min(r.value.minX, poly[i].x), Max(r.value.maxX, poly[i].x)));
      }
    }
    assert xs[..|poly|] == xs;
    if r.Some? {
      assert forall i :: 0 <= i < |poly| ==> xs[i] == poly[i].x;
    }
  }

  /** The top height one edge a -> b offers at x, if it spans x. */
  function EdgeTop(a: Vec2, b: Vec2, x: real): Option<real>
  {
    if x < Min(a.x, b.x) - SpanEps || x > Max(a.x, b.x) + SpanEps then None
    else
      var dx := b.x - a.x;
      if Abs(dx) < VerticalEps then
        if Abs(a.x - x) < VerticalHitEps then Some(Max(a.y, b.y)) else None
      else
        var t := (x - a.x) / dx;
        if t < -ParamEps || t > 1.0 + ParamEps then None
        else Some(a.y + t * (b.y - a.y))
  }

  /** What an edge answers: only for x inside its own x-range (with
      tolerance); a sloped edge with the point of its line above x, a
      vertical edge with its higher end and only close to its x; and every
      edge answers for an x inside its x-range. */
  lemma EdgeTopMeaning(a: Vec2, b: Vec2, x: real)
    ensures var r := EdgeTop(a, b, x);
      && (r.Some? ==> Min(a.x, b.x) - SpanEps <= x <= Max(a.x, b.x) + SpanEps)
      && (r.Some? && Abs(b.x - a.x) >= VerticalEps ==>
            (r.value - a.y) * (b.x - a.x) == (x - a.x) * (b.y - a.y))
      && (r.Some? && Abs(b.x - a.x) < VerticalEps ==>
            r.value == Max(a.y, b.y) && Abs(a.x - x) < VerticalHitEps)
      && (Min(a.x, b.x) <= x <= Max(a.x, b.x) ==> r.Some?)
  {
    var dx := b.x - a.x;
    if Abs(dx) >= VerticalEps && Min(a.x, b.x) - SpanEps <= x <= Max(a.x, b.x) + SpanEps {
      var t := (x - a.x) / dx;
      assert t * dx == x - a.x;
      if Min(a.x, b.x) <= x <= Max(a.x, b.x) {
        RatioInUnit(x - a.x, dx, t);
      }
      var y := a.y + t * (b.y - a.y);
      assert (y - a.y) * dx == t * dx * (b.y - a.y);
    }
  }

  /** t = num / den lies in [0, 1] when num lies between 0 and den. */
  lemma RatioInUnit(num: real, den: real, t: real)
    requires den != 0.0 && t * den == num
    requires 0.0 <= num <= den || den <= num <= 0.0
    ensures 0.0 <= t <= 1.0
  {
    if den > 0.0 {
      if t < 0.0 { MulPos(-t, den); }
      if t > 1.0 { MulPos(t - 1.0, den); }
    } else {
      if t < 0.0 { MulPos(-t, -den); }
      if t > 1.0 { MulPos(t - 1.0, -den); }
    }
  }

  /** Edge i runs from poly[i] to the next vertex, wrapping at the end. */
  function EdgeTopAt(poly: seq<Vec2>, i: nat, x: real): Option<real>
    requires i < |poly|
  {
    EdgeTop(poly[i], poly[(i + 1) % |poly|], x)
  }

  /** The highest answer among the first k edges; None while none answers. */
  function TopYUpTo(poly: seq<Vec2>, x: real, k: nat): Option<real>
    requires k <= |poly|
  {
    if k == 0 then None
    else
      var best := TopYUpTo(poly, x, k - 1);
      match EdgeTopAt(poly, k - 1, x)
      case None => best
      case Some(y) => if best.None? then Some(y) else Some(Max(best.value, y))
  }

  /** The scan answers exactly when some edge answers, and then with the
      highest answer. */
  lemma {:induction false} TopYUpToIsHighest(poly: seq<Vec2>, x: real, k: nat)
    requires k <= |poly|
    ensures var r := TopYUpTo(poly, x, k);
      && (r.None? <==> forall i :: 0 <= i < k ==> EdgeTopAt(poly, i, x).None?)
      && (r.Some? ==> forall i :: 0 <= i < k && EdgeTopAt(poly, i, x).Some? ==>
            EdgeTopAt(poly, i, x).value <= r.value)
      && (r.Some? ==> exists i :: 0 <= i < k && EdgeTopAt(poly, i, x) == r)
  {
    if k > 0 {
      TopYUpToIsHighest(poly, x, k - 1);
      var best := TopYUpTo(poly, x, k - 1);
      var r := TopYUpTo(poly, x, k);
      if EdgeTopAt(poly, k - 1, x).None? {
        assert r == best;
      } else if best.Some? {
        var i :| 0 <= i < k - 1 && EdgeTopAt(poly, i, x) == best;
        if r != best {
          assert r == EdgeTopAt(poly, k - 1, x);
        }
      }
    }
  }

  /** topYAtX over the whole hull: the highest boundary point above x. */
  function TopY(poly: seq<Vec2>, x: real): Option<real>
  {
    TopYUpTo(poly, x, |poly|)
  }

  /** topYAtX */
  method TopYAtX(poly: seq<Vec2>, x: real) returns (top: Option<real>)
    ensures top == TopY(poly, x)
  {
    top := None;
    for i := 0 to |poly|
      invariant top == TopYUpTo(poly, x, i)
    {
      var y := EdgeTop(poly[i], poly[(i + 1) % |poly|], x);
      if y.Some? {
        top := if top.None? then y else Some(Max(top.value, y.value));
      }
    }
  }

  /** Edge i's x-range holds x. */
  predicate EdgeSpans(poly: seq<Vec2>, i: nat, x: real)
    requires i < |poly|
  {
    Min(poly[i].x, poly[(i + 1) % |poly|].x) <= x <= Max(poly[i].x, poly[(i + 1) % |poly|].x)
  }

  /** Walking forward from a vertex at or left of x to a vertex at or right
      of x crosses an edge whose x-range holds x. */
  lemma {:induction false} CoveringEdgeForward(poly: seq<Vec2>, i: nat, j: nat, x: real)
    requires i <= j < |poly| && poly[i].x <= x <= poly[j].x
    ensures exists k :: 0 <= k < |poly| && EdgeSpans(poly, k, x)
    decreases j - i
  {
    var n := |poly|;
    if i == j {
      assert EdgeSpans(poly, i, x);
    } else {
      assert (i + 1) % n == i + 1;
      if poly[i + 1].x >= x {
        assert EdgeSpans(poly, i, x);
      } else {
        CoveringEdgeForward(poly, i + 1, j, x);
      }
    }
  }

  /** Some edge of a closed polygon spans any x between two of its vertices. */
  lemma CoveringEdge(poly: seq<Vec2>, i: nat, j: nat, x: real)
    requires i < |poly| && j < |poly| && poly[i].x <= x <= poly[j].x
    ensures exists k :: 0 <= k < |poly| && EdgeSpans(poly, k, x)
  {
    var n := |poly|;
    if i <= j {
      CoveringEdgeForward(poly, i, j, x);
    } else if poly[n - 1].x >= x {
      CoveringEdgeForward(poly, i, n - 1, x);
    } else if poly[0].x >= x {
      assert (n - 1 + 1) % n == 0;
      assert EdgeSpans(poly, n - 1, x);
    } else {
      CoveringEdgeForward(poly, 0, j, x);
    }
  }

  /** For any x inside a hull's x-range the hull has a top: a query
      clamped into [minX, maxX] never comes back empty. */
  lemma TopYCoversXRange(poly: seq<Vec2>, x: real)
    requires |poly| > 0 && MinX(poly) <= x <= MaxX(poly)
    ensures TopY(poly, x).Some?
  {
    var xs := Xs(poly);
    var i :| 0 <= i < |xs| && xs[i] == MinX(poly);
    var j :| 0 <= j < |xs| && xs[j] == MaxX(poly);
    CoveringEdge(poly, i, j, x);
    var k :| 0 <= k < |poly| && EdgeSpans(poly, k, x);
    EdgeTopMeaning(poly[k], poly[(k + 1) % |poly|], x);
    assert EdgeTopAt(poly, k, x).Some?;
    TopYUpToIsHighest(poly, x, |poly|);
  }

  /** The index of the first platform cast by block `id`, if any. */
  function FirstWithId(ps: seq<ShadowPoly>, id: int): (r: Option<nat>)
    ensures r.Some? ==> r.value < |ps| && ps[r.value].objectId == id
                        && forall j :: 0 <= j < r.value ==> ps[j].objectId != id
    ensures r.None? <==> forall j :: 0 <= j < |ps| ==> ps[j].objectId != id
  {
    if ps == [] then None
    else if ps[0].objectId == id then Some(0)
    else match FirstWithId(ps[1..], id)
      case None => None
      case Some(k) => Some(k + 1)
  }

  /** findPlatformByObjectId (and the identical search loops in
      updatePhysics): the first platform with this id. */
  method FindPlatformByObjectId(ps: seq<ShadowPoly>, id: int) returns (r: Option<nat>)
    ensures r == FirstWithId(ps, id)
  {
    for i := 0 to |ps|
      invariant forall j :: 0 <= j < i ==> ps[j].objectId != id
    {
      if ps[i].objectId == id {
        return Some(i);
      }
    }
    return None;
  }
}
