/** How the blocks cast their shadows on the wall z = 0: every box corner is
    carried along the ray from the light through it (projectToWallZ0), and
    the convex hull of the eight images is the block's shadow platform
    (rebuildShadowPlatforms). The functions here are the specification the
    Scene's rebuild loop is proved against. */
module ShadowProjector {
  import opened Numbers
  import opened Vectors
  import opened Boxes
  import opened ConvexHulls
  import opened Platforms

  /** below this |p.z - light.z| the ray is taken as parallel to the wall */
  const ParallelEps: real := 0.000001

  /** projectToWallZ0 */
  function ProjectToWallZ0(light: Vec3, p: Vec3): (r: Vec2)
    // a corner level with the light keeps its own x and y
    ensures Abs(p.z - light.z) < ParallelEps ==> r == Vec2(p.x, p.y)
    // otherwise (r.x, r.y, 0) lies on the line through the light and p
    ensures Abs(p.z - light.z) >= ParallelEps ==>
      (r.x - light.x) * (p.z - light.z) == (p.x - light.x) * (0.0 - light.z) &&
      (r.y - light.y) * (p.z - light.z) == (p.y - light.y) * (0.0 - light.z)
  {
    var denom := p.z - light.z;
    if Abs(denom) < ParallelEps then Vec2(p.x, p.y)
    else
      var t := (0.0 - light.z) / denom;
      assert t * denom == 0.0 - light.z;
      var hit := Vec3(light.x + t * (p.x - light.x), light.y + t * (p.y - light.y), light.z + t * (p.z - light.z));
      assert (hit.x - light.x) * denom == (t * denom) * (p.x - light.x);
      assert (hit.y - light.y) * denom == (t * denom) * (p.y - light.y);
      Vec2(hit.x, hit.y)
  }

  /** Where the hit point's height is 0: the image lies on the wall. */
  lemma ProjectionLandsOnWall(light: Vec3, p: Vec3)
    requires Abs(p.z - light.z) >= ParallelEps
    ensures var t := (0.0 - light.z) / (p.z - light.z);
            light.z + t * (p.z - light.z) == 0.0 &&
            ProjectToWallZ0(light, p) == Vec2(light.x + t * (p.x - light.x), light.y + t * (p.y - light.y))
  {
    var t := (0.0 - light.z) / (p.z - light.z);
    assert t * (p.z - light.z) == 0.0 - light.z;
  }

  /** The eight corner images, in worldCorners order. */
  function ProjectedCorners(b: BoxObject, light: Vec3): seq<Vec2>
  {
    var corners := WorldCorners(b);
    seq(8, i requires 0 <= i < 8 => ProjectToWallZ0(light, corners[i]))
  }

  /** The shadow hull of one block. */
  function ShadowOf(b: BoxObject, light: Vec3): seq<Vec2>
  {
    ConvexHullOf(ProjectedCorners(b, light))
  }

  /** The shadow hull of every block, by block index. */
  function ShadowHulls(objects: seq<BoxObject>, light: Vec3): (r: seq<seq<Vec2>>)
    ensures |r| == |objects|
    decreases |objects|
  {
    if objects == [] then []
    else ShadowHulls(objects[..|objects| - 1], light) + [ShadowOf(objects[|objects| - 1], light)]
  }

  /** The platforms the rebuild has produced after the first k hulls: one
      per hull with at least three points, tagged with its index, in order. */
  function PlatformsUpTo(hulls: seq<seq<Vec2>>, k: nat): seq<ShadowPoly>
    requires k <= |hulls|
  {
    if k == 0 then []
    else
      var before := PlatformsUpTo(hulls, k - 1);
      if |hulls[k - 1]| >= 3 then before + [ShadowPoly(k - 1, hulls[k - 1])] else before
  }

  /** The first k hulls give at most k platforms, each a hull of at least
      three points tagged with its own index, in increasing index order. */
  lemma {:induction false} PlatformsUpToShape(hulls: seq<seq<Vec2>>, k: nat)
    requires k <= |hulls|
    ensures var r := PlatformsUpTo(hulls, k);
      && |r| <= k
      && (forall i :: 0 <= i < |r| ==> 0 <= r[i].objectId < k && |r[i].hull| >= 3)
      && (forall i :: 0 <= i < |r| ==> r[i].hull == hulls[r[i].objectId])
      && (forall i, j :: 0 <= i < j < |r| ==> r[i].objectId < r[j].objectId)
  {
    if k > 0 {
      PlatformsUpToShape(hulls, k - 1);
    }
  }

  /** No hull with at least three points is left out. */
  lemma {:induction false} PlatformsUpToKeepsEveryHull(hulls: seq<seq<Vec2>>, k: nat, j: nat)
    requires k <= |hulls| && j < k && |hulls[j]| >= 3
    ensures exists i :: 0 <= i < |PlatformsUpTo(hulls, k)| && PlatformsUpTo(hulls, k)[i].objectId == j
  {
    var r := PlatformsUpTo(hulls, k);
    if j == k - 1 {
      assert r[|r| - 1].objectId == j;
    } else {
      PlatformsUpToKeepsEveryHull(hulls, k - 1, j);
      var before := PlatformsUpTo(hulls, k - 1);
      var i :| 0 <= i < |before| && before[i].objectId == j;
      assert r[i].objectId == j;
    }
  }

  /** The platform list a rebuild leaves for a set of blocks and a light. */
  function ShadowsOf(objects: seq<BoxObject>, light: Vec3): seq<ShadowPoly>
  {
    PlatformsUpTo(ShadowHulls(objects, light), |objects|)
  }

  /** A rebuild keeps one platform per block whose shadow has at least three
      points, in block order, tagged with the block's index and holding that
      block's shadow; it keeps nothing else. */
  lemma ShadowsOfShape(objects: seq<BoxObject>, light: Vec3)
    ensures var r := ShadowsOf(objects, light);
      && |r| <= |objects|
      && (forall i :: 0 <= i < |r| ==> 0 <= r[i].objectId < |objects| && |r[i].hull| >= 3)
      && (forall i :: 0 <= i < |r| ==> r[i].hull == ShadowOf(objects[r[i].objectId], light))
      && (forall i, j :: 0 <= i < j < |r| ==> r[i].objectId < r[j].objectId)
      && (forall j :: 0 <= j < |objects| && |ShadowOf(objects[j], light)| >= 3 ==>
            exists i :: 0 <= i < |r| && r[i].objectId == j)
  {
    var hulls := ShadowHulls(objects, light);
    var r := PlatformsUpTo(hulls, |objects|);
    PlatformsUpToShape(hulls, |objects|);
    forall i | 0 <= i < |r|
      ensures r[i].hull == ShadowOf(objects[r[i].objectId], light)
    {
      ShadowHullsAt(objects, light, r[i].objectId);
    }
    forall j | 0 <= j < |objects| && |ShadowOf(objects[j], light)| >= 3
      ensures exists i :: 0 <= i < |r| && r[i].objectId == j
    {
      ShadowHullsAt(objects, light, j);
      PlatformsUpToKeepsEveryHull(hulls, |objects|, j);
    }
  }

  /** Block j's entry of ShadowHulls is its shadow. */
  lemma {:induction false} ShadowHullsAt(objects: seq<BoxObject>, light: Vec3, j: nat)
    requires j < |objects|
    ensures ShadowHulls(objects, light)[j] == ShadowOf(objects[j], light)
    decreases |objects|
  {
    var init := objects[..|objects| - 1];
    if j < |objects| - 1 {
      ShadowHullsAt(init, light, j);
    }
  }

  /** Every point of a stored shadow is the image of one of its block's
      corners. */
  lemma ShadowPointsAreCornerImages(objects: seq<BoxObject>, light: Vec3, i: nat, q: Vec2)
    requires i < |ShadowsOf(objects, light)| && q in ShadowsOf(objects, light)[i].hull
    ensures var id := ShadowsOf(objects, light)[i].objectId;
            0 <= id < |objects| &&
            exists c :: 0 <= c < 8 && q == ProjectToWallZ0(light, WorldCorners(objects[id])[c])
  {
    ShadowsOfShape(objects, light);
    var id := ShadowsOf(objects, light)[i].objectId;
    var pts := ProjectedCorners(objects[id], light);
    HullPointsAreInputPoints(pts);
    assert q in pts;
    var c :| 0 <= c < 8 && pts[c] == q;
  }

  /** Each block is found among the platforms by its id exactly when its
      shadow has at least three points, and then it is found with its own
      shadow. */
  lemma FindShadowOfBlock(objects: seq<BoxObject>, light: Vec3, j: nat)
    requires j < |objects|
    ensures var ps := ShadowsOf(objects, light);
            var f := FirstWithId(ps, j);
            (f.Some? <==> |ShadowOf(objects[j], light)| >= 3) &&
            (f.Some? ==> ps[f.value].hull == ShadowOf(objects[j], light))
  {
    ShadowsOfShape(objects, light);
  }
}
