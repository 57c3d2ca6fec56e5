/** Scene::convexHull and cross2 (scene.cpp): Andrew's monotone chain over
    the points sorted by (x, y) and cleared of near-duplicates. */
module ConvexHulls {
  import opened Numbers
  import opened Vectors

  /** Two sorted neighbours closer than this on both axes are merged. */
  const MergeEps: real := 0.00001

  /** cross2(o, a, b): positive exactly when o -> a -> b turns left. */
  function Cross2(o: Vec2, a: Vec2, b: Vec2): real
  {
    Cross(Sub(a, o), Sub(b, o))
  }

  /** The comparator given to std::sort: by x, then by y. */
  predicate LexLess(a: Vec2, b: Vec2)
  {
    if a.x != b.x then a.x < b.x else a.y < b.y
  }

  predicate SortedLex(s: seq<Vec2>)
  {
    forall i :: 0 < i < |s| ==> !LexLess(s[i], s[i - 1])
  }

  /** LexLess is a strict total order: of two different points exactly one
      comes first. */
  lemma LexLessTotal(a: Vec2, b: Vec2)
    ensures a != b <==> (LexLess(a, b) || LexLess(b, a))
    ensures !(LexLess(a, b) && LexLess(b, a))
  {
  }

  /** Insert p into a sorted sequence (one step of an insertion sort). */
  function Insert(p: Vec2, s: seq<Vec2>): (r: seq<Vec2>)
    ensures |r| == |s| + 1
  {
    if s == [] then [p]
    else if LexLess(s[0], p) then [s[0]] + Insert(p, s[1..])
    else [p] + s
  }

  /** Inserting adds p to the points, and keeps a sorted sequence sorted. */
  lemma {:induction false} InsertFacts(p: Vec2, s: seq<Vec2>)
    ensures multiset(Insert(p, s)) == multiset(s) + multiset{p}
    ensures Insert(p, s)[0] == p || (s != [] && Insert(p, s)[0] == s[0])
    ensures SortedLex(s) ==> SortedLex(Insert(p, s))
    decreases |s|
  {
    if s != [] && LexLess(s[0], p) {
      var t := Insert(p, s[1..]);
      InsertFacts(p, s[1..]);
      assert s == [s[0]] + s[1..];
      if SortedLex(s) {
        SortedTail(s);
        LexLessTotal(s[0], p);
        if t[0] != p { assert |s| > 1 && t[0] == s[1]; }
        var r := [s[0]] + t;
        forall i | 0 < i < |r| ensures !LexLess(r[i], r[i - 1]) {
          if i > 1 { assert r[i] == t[i - 1] && r[i - 1] == t[i - 2]; }
        }
      }
    }
  }

  /** The order std::sort leaves the points in. Sorting under a strict total
      order of the values has one result, so this insertion sort stands for
      std::sort (see SortedPermutationIsUnique). */
  function SortLex(s: seq<Vec2>): (r: seq<Vec2>)
    ensures |r| == |s|
  {
    if s == [] then [] else Insert(s[0], SortLex(s[1..]))
  }

  /** SortLex sorts: it rearranges the points into lexicographic order. */
  lemma {:induction false} SortLexFacts(s: seq<Vec2>)
    ensures multiset(SortLex(s)) == multiset(s)
    ensures SortedLex(SortLex(s))
    decreases |s|
  {
    if s != [] {
      SortLexFacts(s[1..]);
      InsertFacts(s[0], SortLex(s[1..]));
      assert s == [s[0]] + s[1..];
    }
  }

  /** In a sorted sequence no point comes before the first one. */
  lemma {:induction false} SortedHeadIsLeast(s: seq<Vec2>, i: nat)
    requires SortedLex(s) && i < |s|
    ensures !LexLess(s[i], s[0])
  {
    if i > 0 {
      SortedHeadIsLeast(s, i - 1);
      assert !LexLess(s[i], s[i - 1]);
    }
  }

  lemma SortedTail(s: seq<Vec2>)
    requires SortedLex(s) && |s| > 0
    ensures SortedLex(s[1..])
  {
    forall j | 0 < j < |s[1..]| ensures !LexLess(s[1..][j], s[1..][j - 1]) {
      assert s[1..][j] == s[j + 1] && s[1..][j - 1] == s[j];
    }
  }

  lemma TailMultiset(s: seq<Vec2>)
    requires |s| > 0
    ensures multiset(s[1..]) == multiset(s) - multiset{s[0]}
  {
    assert s == [s[0]] + s[1..];
  }

  /** Two non-empty sorted arrangements of the same points start alike. */
  lemma SortedHeadsAgree(a: seq<Vec2>, b: seq<Vec2>)
    requires SortedLex(a) && SortedLex(b) && multiset(a) == multiset(b) && |a| > 0
    ensures |b| > 0 && a[0] == b[0]
  {
    assert a[0] in multiset(b);
    var i :| 0 <= i < |b| && b[i] == a[0];
    assert b[0] in multiset(a);
    var k :| 0 <= k < |a| && a[k] == b[0];
    SortedHeadIsLeast(b, i);
    SortedHeadIsLeast(a, k);
    LexLessTotal(a[0], b[0]);
  }

  /** Two sorted arrangements of the same points are the same sequence, so
      any correct sort (std::sort included) yields SortLex's result. */
  lemma {:induction false} SortedPermutationIsUnique(a: seq<Vec2>, b: seq<Vec2>)
    requires SortedLex(a) && SortedLex(b) && multiset(a) == multiset(b)
    ensures a == b
    decreases |a|
  {
    assert |a| == |multiset(a)| == |multiset(b)| == |b|;
    if |a| > 0 {
      SortedHeadsAgree(a, b);
      TailMultiset(a);
      TailMultiset(b);
      SortedTail(a);
      SortedTail(b);
      SortedPermutationIsUnique(a[1..], b[1..]);
      assert a == [a[0]] + a[1..] && b == [b[0]] + b[1..];
    }
  }

  /** The tolerance test given to std::unique. */
  predicate Near(a: Vec2, b: Vec2)
  {
    Abs(a.x - b.x) < MergeEps && Abs(a.y - b.y) < MergeEps
  }

  /** std::unique after `kept`: a later point is kept only when it is not
      near the last point kept. */
  function DedupAfter(kept: Vec2, rest: seq<Vec2>): (r: seq<Vec2>)
    ensures 1 <= |r| <= |rest| + 1 && r[0] == kept
    decreases |rest|
  {
    if rest == [] then [kept]
    else if Near(kept, rest[0]) then DedupAfter(kept, rest[1..])
    else [kept] + DedupAfter(rest[0], rest[1..])
  }

  /** What std::unique keeps is drawn from its input, and no two
      neighbours it keeps are near each other. */
  lemma {:induction false} DedupAfterFacts(kept: Vec2, rest: seq<Vec2>)
    ensures forall q :: q in DedupAfter(kept, rest) ==> q == kept || q in rest
    ensures forall i :: 0 < i < |DedupAfter(kept, rest)| ==>
              !Near(DedupAfter(kept, rest)[i - 1], DedupAfter(kept, rest)[i])
    decreases |rest|
  {
    if rest != [] {
      assert forall q :: q in rest[1..] ==> q in rest;
      if Near(kept, rest[0]) {
        DedupAfterFacts(kept, rest[1..]);
      } else {
        DedupAfterFacts(rest[0], rest[1..]);
        var t := DedupAfter(rest[0], rest[1..]);
        var r := [kept] + t;
        forall i | 0 < i < |r| ensures !Near(r[i - 1], r[i]) {
          if i > 1 { assert r[i - 1] == t[i - 2] && r[i] == t[i - 1]; }
        }
      }
    }
  }

  /** pts.erase(std::unique(...), pts.end()) */
  function Dedup(s: seq<Vec2>): (r: seq<Vec2>)
    ensures |r| <= |s|
    ensures s != [] ==> |r| >= 1 && r[0] == s[0]
  {
    if s == [] then [] else DedupAfter(s[0], s[1..])
  }

  /** The de-duplicated points are input points, no two neighbours near. */
  lemma DedupFacts(s: seq<Vec2>)
    ensures forall q :: q in Dedup(s) ==> q in s
    ensures forall i :: 0 < i < |Dedup(s)| ==> !Near(Dedup(s)[i - 1], Dedup(s)[i])
  {
    if s != [] {
      DedupAfterFacts(s[0], s[1..]);
      assert forall q :: q in s[1..] ==> q in s;
    }
  }

  /** Every consecutive triple turns strictly left. */
  predicate LeftTurns(c: seq<Vec2>)
  {
    forall i :: 0 <= i < |c| - 2 ==> Cross2(c[i], c[i + 1], c[i + 2]) > 0.0
  }

  /** The last two points of c and p turn strictly left (or c is too short
      to turn). */
  predicate TurnsLeftTowards(c: seq<Vec2>, p: Vec2)
  {
    |c| >= 2 ==> Cross2(c[|c| - 2], c[|c| - 1], p) > 0.0
  }

  /** The pops before pushing p: drop the last point while the last two
      points and p do not turn strictly left. */
  function PopNonLeft(chain: seq<Vec2>, p: Vec2): (r: seq<Vec2>)
    ensures |r| <= |chain|
    ensures |chain| >= 1 ==> |r| >= 1
    decreases |chain|
  {
    if |chain| >= 2 && Cross2(chain[|chain| - 2], chain[|chain| - 1], p) <= 0.0 then
      PopNonLeft(chain[..|chain| - 1], p)
    else
      chain
  }

  /** The pops leave a prefix of the chain whose last two points turn
      strictly left towards p. */
  lemma {:induction false} PopNonLeftFacts(chain: seq<Vec2>, p: Vec2)
    ensures var r := PopNonLeft(chain, p);
            r == chain[..|r|] && TurnsLeftTowards(r, p)
    decreases |chain|
  {
    if |chain| >= 2 && Cross2(chain[|chain| - 2], chain[|chain| - 1], p) <= 0.0 {
      var c := chain[..|chain| - 1];
      PopNonLeftFacts(c, p);
      var r := PopNonLeft(c, p);
      assert c[..|r|] == chain[..|r|];
    }
  }

  /** The monotone chain built over pts in order (the lower chain over the
      sorted points, the upper chain over them reversed). */
  function Chain(pts: seq<Vec2>): (r: seq<Vec2>)
    ensures |r| <= |pts|
    ensures pts != [] ==> |r| >= 1 && r[|r| - 1] == pts[|pts| - 1]
    decreases |pts|
  {
    if pts == [] then []
    else PopNonLeft(Chain(pts[..|pts| - 1]), pts[|pts| - 1]) + [pts[|pts| - 1]]
  }

  /** A chain starts at the first point and keeps only input points. */
  lemma {:induction false} ChainFacts(pts: seq<Vec2>)
    ensures pts != [] ==> Chain(pts)[0] == pts[0]
    ensures forall q :: q in Chain(pts) ==> q in pts
    decreases |pts|
  {
    if pts != [] {
      var init := pts[..|pts| - 1];
      var c := Chain(init);
      ChainFacts(init);
      PopNonLeftFacts(c, pts[|pts| - 1]);
      var kept := PopNonLeft(c, pts[|pts| - 1]);
      assert forall q :: q in kept ==> q in c;
      assert forall q :: q in init ==> q in pts;
      if |c| == 0 { assert |pts| == 1; } else { assert kept[0] == c[0]; }
    }
  }

  /** Every consecutive triple of a chain turns strictly left. */
  lemma {:induction false} ChainTurnsLeft(pts: seq<Vec2>)
    ensures LeftTurns(Chain(pts))
    decreases |pts|
  {
    if pts != [] {
      ChainTurnsLeft(pts[..|pts| - 1]);
      ChainStepTurnsLeft(Chain(pts[..|pts| - 1]), pts[|pts| - 1]);
    }
  }

  lemma ChainStepTurnsLeft(c: seq<Vec2>, p: Vec2)
    requires LeftTurns(c)
    ensures LeftTurns(PopNonLeft(c, p) + [p])
  {
    var kept := PopNonLeft(c, p);
    PopNonLeftFacts(c, p);
    assert kept == c[..|kept|];
    PrefixKeepsLeftTurns(c, |kept|);
    assert LeftTurns(kept);
    AppendLeftTurn(kept, p);
  }

  lemma PrefixKeepsLeftTurns(c: seq<Vec2>, n: nat)
    requires n <= |c| && LeftTurns(c)
    ensures LeftTurns(c[..n])
  {
    forall i | 0 <= i < n - 2 ensures Cross2(c[..n][i], c[..n][i + 1], c[..n][i + 2]) > 0.0 {
      assert c[..n][i] == c[i] && c[..n][i + 1] == c[i + 1] && c[..n][i + 2] == c[i + 2];
    }
  }

  lemma AppendLeftTurn(c: seq<Vec2>, p: Vec2)
    requires LeftTurns(c) && TurnsLeftTowards(c, p)
    ensures LeftTurns(c + [p])
  {
    var r := c + [p];
    forall i | 0 <= i < |r| - 2 ensures Cross2(r[i], r[i + 1], r[i + 2]) > 0.0 {
      if i < |r| - 3 {
        assert r[i] == c[i] && r[i + 1] == c[i + 1] && r[i + 2] == c[i + 2];
      } else {
        assert r[i] == c[|c| - 2] && r[i + 1] == c[|c| - 1] && r[i + 2] == p;
      }
    }
  }

  function Reverse(s: seq<Vec2>): (r: seq<Vec2>)
    ensures |r| == |s|
    ensures forall i :: 0 <= i < |s| ==> r[i] == s[|s| - 1 - i]
  {
    seq(|s|, i requires 0 <= i < |s| => s[|s| - 1 - i])
  }

  /** What Scene::convexHull returns for a point list. */
  function ConvexHullOf(pts: seq<Vec2>): seq<Vec2>
  {
    if |pts| <= 3 then pts
    else
      var d := Dedup(SortLex(pts));
      var lower := Chain(d);
      var upper := Chain(Reverse(d));
      lower[..|lower| - 1] + upper[..|upper| - 1]
  }

  /** Every hull point is one of the sorted, de-duplicated input points,
      hence one of the input points. */
  lemma HullPointsAreInputPoints(pts: seq<Vec2>)
    ensures forall q :: q in ConvexHullOf(pts) ==> q in pts
    ensures |pts| > 3 ==> forall q :: q in ConvexHullOf(pts) ==> q in Dedup(SortLex(pts))
  {
    if |pts| > 3 {
      var s := SortLex(pts);
      var d := Dedup(s);
      var lower := Chain(d);
      var upper := Chain(Reverse(d));
      SortLexFacts(pts);
      DedupFacts(s);
      ChainFacts(d);
      ChainFacts(Reverse(d));
      assert forall q :: q in lower[..|lower| - 1] ==> q in lower;
      assert forall q :: q in upper[..|upper| - 1] ==> q in upper;
      ReverseHasSameMembers(d);
      forall q | q in d ensures q in pts {
        assert q in multiset(s);
      }
    }
  }

  lemma ReverseHasSameMembers(s: seq<Vec2>)
    ensures forall q :: q in Reverse(s) ==> q in s
  {
    forall q | q in Reverse(s) ensures q in s {
      var k :| 0 <= k < |s| && Reverse(s)[k] == q;
      assert s[|s| - 1 - k] == q;
    }
  }

  /** Above three points the hull is the lower chain and the upper chain,
      each without its last point; both chains turn strictly left at every
      kept triple, the lower one runs from the first sorted point to the
      last and the upper one back. */
  lemma HullIsTwoLeftTurningChains(pts: seq<Vec2>, d: seq<Vec2>, lower: seq<Vec2>, upper: seq<Vec2>)
    requires |pts| > 3 && d == Dedup(SortLex(pts))
    requires lower == Chain(d) && upper == Chain(Reverse(d))
    ensures |d| >= 1 && |lower| >= 1 && |upper| >= 1
    ensures ConvexHullOf(pts) == lower[..|lower| - 1] + upper[..|upper| - 1]
    ensures LeftTurns(lower) && LeftTurns(upper)
    ensures lower[0] == d[0] && lower[|lower| - 1] == d[|d| - 1]
    ensures upper[0] == d[|d| - 1] && upper[|upper| - 1] == d[0]
  {
    HullJoinsChains(pts, d, lower, upper);
    ChainTurnsLeft(d);
    ChainTurnsLeft(Reverse(d));
    ChainFacts(d);
    UpperChainEnds(d);
  }

  /** ConvexHullOf above three points, unfolded. */
  lemma HullJoinsChains(pts: seq<Vec2>, d: seq<Vec2>, lower: seq<Vec2>, upper: seq<Vec2>)
    requires |pts| > 3 && d == Dedup(SortLex(pts))
    requires lower == Chain(d) && upper == Chain(Reverse(d))
    ensures |d| >= 1 && |lower| >= 1 && |upper| >= 1
    ensures ConvexHullOf(pts) == lower[..|lower| - 1] + upper[..|upper| - 1]
  {
  }

  /** The upper chain runs from the last sorted point back to the first. */
  lemma UpperChainEnds(d: seq<Vec2>)
    requires |d| >= 1
    ensures var upper := Chain(Reverse(d));
            upper[0] == d[|d| - 1] && upper[|upper| - 1] == d[0]
  {
    var rd := Reverse(d);
    ChainFacts(rd);
    assert rd[0] == d[|d| - 1] && rd[|rd| - 1] == d[0];
  }

  /** The inner loop of both passes: pop while the turn is not strictly
      left, then push p. */
  method PushTurningLeft(chain: seq<Vec2>, p: Vec2) returns (r: seq<Vec2>)
    ensures r == PopNonLeft(chain, p) + [p]
  {
    r := chain;
    while |r| >= 2 && Cross2(r[|r| - 2], r[|r| - 1], p) <= 0.0
      invariant PopNonLeft(r, p) == PopNonLeft(chain, p)
      decreases |r|
    {
      r := r[..|r| - 1];
    }
    r := r + [p];
  }

  /** The lower pass: one push per point, left to right. */
  method LowerChain(pts: seq<Vec2>) returns (lower: seq<Vec2>)
    ensures lower == Chain(pts)
  {
    lower := [];
    var i := 0;
    while i < |pts|
      invariant 0 <= i <= |pts|
      invariant lower == Chain(pts[..i])
    {
      lower := PushTurningLeft(lower, pts[i]);
      assert pts[..i + 1][..i] == pts[..i];
      i := i + 1;
    }
    assert pts[..|pts|] == pts;
  }

  /** The upper pass: one push per point, right to left. */
  method UpperChain(pts: seq<Vec2>) returns (upper: seq<Vec2>)
    ensures upper == Chain(Reverse(pts))
  {
    upper := [];
    var j := |pts|;
    while j > 0
      invariant 0 <= j <= |pts|
      invariant upper == Chain(Reverse(pts[j..]))
    {
      j := j - 1;
      ReverseDropFirst(pts[j..]);
      assert pts[j..][1..] == pts[j + 1..];
      ChainPush(Reverse(pts[j + 1..]), pts[j]);
      upper := PushTurningLeft(upper, pts[j]);
    }
    assert pts[0..] == pts;
  }

  lemma ReverseDropFirst(s: seq<Vec2>)
    requires |s| > 0
    ensures Reverse(s) == Reverse(s[1..]) + [s[0]]
  {
  }

  /** Building a chain over one more point is one more push. */
  lemma ChainPush(s: seq<Vec2>, p: Vec2)
    ensures Chain(s + [p]) == PopNonLeft(Chain(s), p) + [p]
  {
    assert (s + [p])[..|s|] == s;
  }

  /** Scene::convexHull */
  method ConvexHull(input: seq<Vec2>) returns (hull: seq<Vec2>)
    ensures hull == ConvexHullOf(input)
    ensures |input| <= 3 ==> hull == input
    ensures forall q :: q in hull ==> q in input
    ensures |input| > 3 ==> forall q :: q in input ==> exists k :: k in Dedup(SortLex(input)) && Near(k, q)
    ensures |input| > 3 ==> forall j, i :: 0 <= j < |hull| && 0 <= i < |Dedup(SortLex(input))| ==>
              OnOrLeftOfEdge(hull, j, Dedup(SortLex(input))[i])
    ensures |input| > 3 ==> TurnsLeftEverywhere(hull)
  {
    if |input| <= 3 {
      return input;
    }
    var pts := Dedup(SortLex(input));
    var lower := LowerChain(pts);
    var upper := UpperChain(pts);
    // each chain's last point is the other's first: drop it before joining
    hull := lower[..|lower| - 1] + upper[..|upper| - 1];
    HullPointsAreInputPoints(input);
    DroppedPointsAreNearKeptOnes(input);
    HullContainsPoints(input);
    HullTurnsLeft(input);
  }

  // ---------------------------------------------------------------------
  // Why the joined chains are the convex hull of the de-duplicated points.

  /** v points forward in the sort order: to the right, or straight up. */
  predicate LexPos(v: Vec2) { v.x > 0.0 || (v.x == 0.0 && v.y > 0.0) }

  function Neg(v: Vec2): Vec2 { Vec2(-v.x, -v.y) }

  predicate InCone(v: Vec2, up: bool) { if up then LexPos(v) else LexPos(Neg(v)) }

  lemma LexPosTurnsCompose(u: Vec2, v: Vec2, w: Vec2)
    requires LexPos(u) && LexPos(v) && LexPos(w)
    requires Cross(u, v) > 0.0 && Cross(v, w) > 0.0
    ensures Cross(u, w) > 0.0
  {
    assert Cross(u, v) * w.x + Cross(v, w) * u.x + Cross(w, u) * v.x == 0.0;
    if v.x == 0.0 {
      assert false;
    } else if u.x == 0.0 && w.x == 0.0 {
      assert false;
    } else {
      assert Cross(u, v) * w.x + Cross(v, w) * u.x > 0.0 by {
        if w.x > 0.0 { MulPos(Cross(u, v), w.x); } else { MulPos(Cross(v, w), u.x); }
        assert Cross(u, v) * w.x >= 0.0 && Cross(v, w) * u.x >= 0.0;
      }
    }
  }

  lemma LexPosTurnsComposeWeak(a: Vec2, u: Vec2, b: Vec2)
    requires LexPos(a) && LexPos(u) && LexPos(b)
    requires Cross(a, u) >= 0.0 && Cross(u, b) >= 0.0
    ensures Cross(a, b) >= 0.0
  {
    assert Cross(a, u) * b.x + Cross(u, b) * a.x + Cross(b, a) * u.x == 0.0;
    if u.x == 0.0 {
      assert Cross(u, b) == -(u.y * b.x);
      assert b.x == 0.0;
      assert Cross(a, b) == a.x * b.y;
    } else {
      assert Cross(a, u) * b.x >= 0.0 && Cross(u, b) * a.x >= 0.0;
      if Cross(b, a) > 0.0 { MulPos(Cross(b, a), u.x); }
    }
  }

  lemma LexPosParallel(a: Vec2, c: Vec2, w: Vec2)
    requires LexPos(a) && LexPos(c) && Cross(a, c) == 0.0
    requires Cross(a, w) >= 0.0 && Cross(c, w) <= 0.0
    ensures Cross(a, w) == 0.0
  {
    if a.x > 0.0 {
      assert c.x * Cross(a, w) - a.x * Cross(c, w) == w.x * Cross(a, c);
      if Cross(a, w) > 0.0 { MulPos(c.x, Cross(a, w)); }
    } else {
      assert Cross(a, c) == -(a.y * c.x);
      if c.x > 0.0 { MulPos(a.y, c.x); }
      assert c.y * Cross(a, w) - a.y * Cross(c, w) == w.y * Cross(a, c);
      if Cross(a, w) > 0.0 { MulPos(c.y, Cross(a, w)); }
    }
  }

  lemma CrossNeg(a: Vec2, b: Vec2)
    ensures Cross(Neg(a), Neg(b)) == Cross(a, b)
    ensures Cross(a, Neg(b)) == -Cross(a, b)
    ensures Cross(b, a) == -Cross(a, b)
  {
  }

  lemma ConeTurnsCompose(u: Vec2, v: Vec2, w: Vec2, up: bool)
    requires InCone(u, up) && InCone(v, up) && InCone(w, up)
    requires Cross(u, v) > 0.0 && Cross(v, w) > 0.0
    ensures Cross(u, w) > 0.0
  {
    if up { LexPosTurnsCompose(u, v, w); }
    else {
      CrossNeg(u, v); CrossNeg(v, w); CrossNeg(u, w);
      LexPosTurnsCompose(Neg(u), Neg(v), Neg(w));
    }
  }

  lemma ConeTurnsComposeWeak(a: Vec2, u: Vec2, b: Vec2, up: bool)
    requires InCone(a, up) && InCone(u, up) && InCone(b, up)
    requires Cross(a, u) >= 0.0 && Cross(u, b) >= 0.0
    ensures Cross(a, b) >= 0.0
  {
    if up { LexPosTurnsComposeWeak(a, u, b); }
    else {
      CrossNeg(a, u); CrossNeg(u, b); CrossNeg(a, b);
      LexPosTurnsComposeWeak(Neg(a), Neg(u), Neg(b));
    }
  }

  lemma ConeParallel(a: Vec2, c: Vec2, w: Vec2, up: bool)
    requires InCone(a, up) && InCone(c, up) && Cross(a, c) == 0.0
    requires Cross(a, w) >= 0.0 && Cross(c, w) <= 0.0
    ensures Cross(a, w) == 0.0
  {
    if up { LexPosParallel(a, c, w); }
    else {
      CrossNeg(a, c); CrossNeg(a, w); CrossNeg(c, w);
      assert Cross(Neg(a), Neg(w)) == Cross(a, w);
      LexPosParallel(Neg(a), Neg(c), Neg(w));
    }
  }

  lemma Collinear(a: Vec2, w0: Vec2, w1: Vec2, w2: Vec2)
    requires a != Zero2
    requires Cross(a, w0) == 0.0 && Cross(a, w1) == 0.0 && Cross(a, w2) == 0.0
    ensures Cross(Sub(w1, w0), Sub(w2, w0)) == 0.0
  {
    assert Cross(Sub(w1, w0), Sub(w2, w0)) == Cross(w1, w2) - Cross(w1, w0) - Cross(w0, w2);
    CrossZeroWithParallel(a, w1, w2);
    CrossZeroWithParallel(a, w1, w0);
    CrossZeroWithParallel(a, w0, w2);
  }

  lemma CrossZeroWithParallel(a: Vec2, v: Vec2, w: Vec2)
    requires a != Zero2 && Cross(a, v) == 0.0 && Cross(a, w) == 0.0
    ensures Cross(v, w) == 0.0
  {
    assert Cross(a, v) * w.x + Cross(v, w) * a.x + Cross(w, a) * v.x == 0.0;
    assert Cross(a, v) * w.y + Cross(v, w) * a.y + Cross(w, a) * v.y == 0.0;
    if a.x != 0.0 { assert Cross(v, w) * a.x == 0.0; }
    else { assert Cross(v, w) * a.y == 0.0; }
  }

  /** b comes after a along a pass: later in the sort order for the lower
      chain (`up`), earlier for the upper chain, which runs backwards. */
  predicate Ahead(a: Vec2, b: Vec2, up: bool)
  {
    if up then LexLess(a, b) else LexLess(b, a)
  }

  lemma AheadIsCone(a: Vec2, b: Vec2, up: bool)
    ensures Ahead(a, b, up) <==> InCone(Sub(b, a), up)
  {
  }

  lemma AheadTrichotomy(a: Vec2, b: Vec2, up: bool)
    ensures a == b || Ahead(a, b, up) || Ahead(b, a, up)
    ensures !(Ahead(a, b, up) && Ahead(b, a, up)) && !Ahead(a, a, up)
  {
    LexLessTotal(a, b);
  }

  /** The points come strictly one after another along a pass. */
  predicate Monotone(s: seq<Vec2>, up: bool)
  {
    forall i, j :: 0 <= i < j < |s| ==> Ahead(s[i], s[j], up)
  }

  /** Every edge of c points forward along the pass. */
  predicate EdgesAhead(c: seq<Vec2>, up: bool)
  {
    forall k :: 0 <= k < |c| - 1 ==> Ahead(c[k], c[k + 1], up)
  }

  /** Every point of s lies on or left of the line of every edge of c. */
  predicate Supports(c: seq<Vec2>, s: seq<Vec2>)
  {
    forall k, j :: 0 <= k < |c| - 1 && 0 <= j < |s| ==> Cross2(c[k], c[k + 1], s[j]) >= 0.0
  }

  /** The turn at c measured from c instead of from e. */
  lemma Cross2Shift(e: Vec2, c: Vec2, z: Vec2)
    ensures Cross2(e, c, z) == Cross(Sub(c, e), Sub(z, c))
  {
  }

  /** When the pops stop before the chain is exhausted, the last point they
      removed did not turn strictly left towards p. */
  lemma {:induction false} PopNonLeftStops(chain: seq<Vec2>, p: Vec2)
    ensures var r := PopNonLeft(chain, p);
            |r| < |chain| ==> 1 <= |r| && Cross2(chain[|r| - 1], chain[|r|], p) <= 0.0
    decreases |chain|
  {
    if |chain| >= 2 && Cross2(chain[|chain| - 2], chain[|chain| - 1], p) <= 0.0 {
      var c := chain[..|chain| - 1];
      PopNonLeftStops(c, p);
    }
  }

  /** Geometry of one turn: if x -> y -> z turns left and p, ahead of y,
      is strictly left of y -> z, then p is strictly left of x -> y. */
  lemma LeftOfNextEdge(x: Vec2, y: Vec2, z: Vec2, p: Vec2, up: bool)
    requires Ahead(x, y, up) && Ahead(y, z, up) && Ahead(y, p, up)
    requires Cross2(x, y, z) > 0.0 && Cross2(y, z, p) > 0.0
    ensures Cross2(x, y, p) > 0.0
  {
    Cross2Shift(x, y, z);
    Cross2Shift(x, y, p);
    AheadIsCone(x, y, up);
    AheadIsCone(y, z, up);
    AheadIsCone(y, p, up);
    ConeTurnsCompose(Sub(y, x), Sub(z, y), Sub(p, y), up);
  }

  /** What the pops leave: a non-empty prefix whose last edge turns left
      towards p, and whose first removed point did not. */
  lemma PopNonLeftEnds(c: seq<Vec2>, p: Vec2, t: nat)
    requires |c| >= 1 && t == |PopNonLeft(c, p)|
    ensures 1 <= t <= |c| && PopNonLeft(c, p) == c[..t]
    ensures t >= 2 ==> Cross2(c[t - 2], c[t - 1], p) > 0.0
    ensures t < |c| ==> Cross2(c[t - 1], c[t], p) <= 0.0
  {
    PopNonLeftFacts(c, p);
    PopNonLeftStops(c, p);
  }

  /** A point ahead of a left-turning chain and strictly left of its last
      edge is strictly left of every edge. */
  lemma {:induction false} LeftOfLastEdgeIsLeftOfAll(c: seq<Vec2>, p: Vec2, up: bool, k: nat)
    requires LeftTurns(c) && EdgesAhead(c, up)
    requires forall i :: 0 <= i < |c| ==> Ahead(c[i], p, up)
    requires k < |c| - 1 && Cross2(c[|c| - 2], c[|c| - 1], p) > 0.0
    ensures Cross2(c[k], c[k + 1], p) > 0.0
    decreases |c| - k
  {
    if k < |c| - 2 {
      LeftOfLastEdgeIsLeftOfAll(c, p, up, k + 1);
      LeftOfNextEdge(c[k], c[k + 1], c[k + 2], p, up);
    }
  }

  /** Geometry of the new edge, for a point q behind its start a: the kept
      edge e -> a turns left towards p and has q on or left of it. */
  lemma NewEdgeOverPointBehind(e: Vec2, a: Vec2, p: Vec2, q: Vec2, up: bool)
    requires Ahead(e, a, up) && Ahead(q, a, up) && Ahead(a, p, up)
    requires Cross2(e, a, p) > 0.0 && Cross2(e, a, q) >= 0.0
    ensures Cross2(a, p, q) >= 0.0
  {
    Cross2Shift(e, a, p);
    Cross2Shift(e, a, q);
    AheadIsCone(e, a, up);
    AheadIsCone(q, a, up);
    AheadIsCone(a, p, up);
    CrossNeg(Sub(a, e), Sub(a, q));
    CrossNeg(Sub(p, a), Sub(a, q));
    assert Sub(q, a) == Neg(Sub(a, q));
    ConeTurnsComposeWeak(Sub(a, q), Sub(a, e), Sub(p, a), up);
  }

  /** Geometry of the new edge, for a point q ahead of its start a: the
      popped edge a -> b did not turn left towards p and has q on or left
      of it. */
  lemma NewEdgeOverPointAhead(a: Vec2, b: Vec2, p: Vec2, q: Vec2, up: bool)
    requires Ahead(a, b, up) && Ahead(a, q, up) && Ahead(a, p, up)
    requires Cross2(a, b, p) <= 0.0 && Cross2(a, b, q) >= 0.0
    ensures Cross2(a, p, q) >= 0.0
  {
    AheadIsCone(a, b, up);
    AheadIsCone(a, q, up);
    AheadIsCone(a, p, up);
    CrossNeg(Sub(b, a), Sub(p, a));
    ConeTurnsComposeWeak(Sub(p, a), Sub(b, a), Sub(q, a), up);
  }

  /** The new edge from the last kept point c[t-1] to p has every earlier
      point on or left of its line. */
  lemma NewEdgeSupports(s: seq<Vec2>, c: seq<Vec2>, t: nat, p: Vec2, up: bool, j: nat)
    requires Monotone(s, up) && j < |s|
    requires 1 <= t <= |c| && c[0] == s[0] && c[|c| - 1] == s[|s| - 1]
    requires Supports(c, s) && EdgesAhead(c, up)
    requires forall i :: 0 <= i < |c| ==> Ahead(c[i], p, up)
    requires t >= 2 ==> Cross2(c[t - 2], c[t - 1], p) > 0.0
    requires t < |c| ==> Cross2(c[t - 1], c[t], p) <= 0.0
    ensures Cross2(c[t - 1], p, s[j]) >= 0.0
  {
    var a := c[t - 1];
    var q := s[j];
    AheadTrichotomy(q, a, up);
    if Ahead(q, a, up) {
      if t == 1 {
        assert false;
      }
      NewEdgeOverPointBehind(c[t - 2], a, p, q, up);
    } else if Ahead(a, q, up) {
      if t == |c| {
        assert false;
      }
      NewEdgeOverPointAhead(a, c[t], p, q, up);
    }
  }

  /** The edges after a push still point forward. */
  lemma PushEdgesAhead(c: seq<Vec2>, t: nat, p: Vec2, up: bool)
    requires 1 <= t <= |c| && EdgesAhead(c, up) && Ahead(c[t - 1], p, up)
    ensures EdgesAhead(c[..t] + [p], up)
  {
    var n := c[..t] + [p];
    forall k | 0 <= k < |n| - 1 ensures Ahead(n[k], n[k + 1], up) {
      if k < t - 1 { assert n[k] == c[k] && n[k + 1] == c[k + 1]; }
    }
  }

  /** The pushed point is on or left of every edge it keeps. */
  lemma PushedPointIsLeft(c: seq<Vec2>, t: nat, p: Vec2, up: bool, k: nat)
    requires 1 <= t <= |c| && EdgesAhead(c, up) && LeftTurns(c[..t])
    requires forall i :: 0 <= i < |c| ==> Ahead(c[i], p, up)
    requires t >= 2 ==> Cross2(c[t - 2], c[t - 1], p) > 0.0
    requires k < t
    ensures var n := c[..t] + [p]; Cross2(n[k], n[k + 1], p) >= 0.0
  {
    var kept := c[..t];
    var n := kept + [p];
    if k < t - 1 {
      assert EdgesAhead(kept, up) by {
        forall i | 0 <= i < |kept| - 1 ensures Ahead(kept[i], kept[i + 1], up) {
          assert kept[i] == c[i] && kept[i + 1] == c[i + 1];
        }
      }
      forall i | 0 <= i < |kept| ensures Ahead(kept[i], p, up) {
        assert kept[i] == c[i];
      }
      LeftOfLastEdgeIsLeftOfAll(kept, p, up, k);
      assert n[k] == kept[k] && n[k + 1] == kept[k + 1];
    } else {
      assert n[k + 1] == p;
    }
  }

  /** Every earlier point is on or left of every edge after a push. */
  lemma EarlierPointIsLeft(s: seq<Vec2>, c: seq<Vec2>, t: nat, p: Vec2, up: bool, k: nat, j: nat)
    requires Monotone(s, up) && |s| >= 1 && j < |s|
    requires 1 <= t <= |c| && c[0] == s[0] && c[|c| - 1] == s[|s| - 1]
    requires Supports(c, s) && EdgesAhead(c, up)
    requires forall i :: 0 <= i < |c| ==> Ahead(c[i], p, up)
    requires t >= 2 ==> Cross2(c[t - 2], c[t - 1], p) > 0.0
    requires t < |c| ==> Cross2(c[t - 1], c[t], p) <= 0.0
    requires k < t
    ensures var n := c[..t] + [p]; Cross2(n[k], n[k + 1], s[j]) >= 0.0
  {
    var n := c[..t] + [p];
    if k < t - 1 {
      assert n[k] == c[k] && n[k + 1] == c[k + 1];
    } else {
      assert n[k] == c[t - 1] && n[k + 1] == p;
      NewEdgeSupports(s, c, t, p, up, j);
    }
  }

  /** Pushing p after the kept prefix c[..t] keeps the invariant. */
  lemma PushSupports(s: seq<Vec2>, c: seq<Vec2>, t: nat, p: Vec2, up: bool)
    requires Monotone(s, up) && |s| >= 1
    requires 1 <= t <= |c| && c[0] == s[0] && c[|c| - 1] == s[|s| - 1]
    requires Supports(c, s) && EdgesAhead(c, up) && LeftTurns(c[..t])
    requires forall i :: 0 <= i < |c| ==> Ahead(c[i], p, up)
    requires t >= 2 ==> Cross2(c[t - 2], c[t - 1], p) > 0.0
    requires t < |c| ==> Cross2(c[t - 1], c[t], p) <= 0.0
    ensures Supports(c[..t] + [p], s + [p]) && EdgesAhead(c[..t] + [p], up)
  {
    var n := c[..t] + [p];
    var sp := s + [p];
    PushEdgesAhead(c, t, p, up);
    forall k, j | 0 <= k < |n| - 1 && 0 <= j < |sp| ensures Cross2(n[k], n[k + 1], sp[j]) >= 0.0 {
      if j < |s| {
        EarlierPointIsLeft(s, c, t, p, up, k, j);
        assert sp[j] == s[j];
      } else {
        PushedPointIsLeft(c, t, p, up, k);
        assert sp[j] == p;
      }
    }
  }

  lemma MonotonePrefix(s: seq<Vec2>, p: Vec2, up: bool)
    requires Monotone(s + [p], up)
    ensures Monotone(s, up)
    ensures forall i :: 0 <= i < |s| ==> Ahead(s[i], p, up)
  {
    var sp := s + [p];
    forall i, j | 0 <= i < j < |s| ensures Ahead(s[i], s[j], up) {
      assert sp[i] == s[i] && sp[j] == s[j];
    }
    forall i | 0 <= i < |s| ensures Ahead(s[i], p, up) {
      assert sp[i] == s[i] && sp[|s|] == p;
    }
  }

  /** A chain's points are all behind a point that is ahead of every point
      the chain was built from. */
  lemma ChainIsBehind(s: seq<Vec2>, p: Vec2, up: bool)
    requires forall i :: 0 <= i < |s| ==> Ahead(s[i], p, up)
    ensures forall i :: 0 <= i < |Chain(s)| ==> Ahead(Chain(s)[i], p, up)
  {
    var c := Chain(s);
    ChainFacts(s);
    forall i | 0 <= i < |c| ensures Ahead(c[i], p, up) {
      assert c[i] in s;
    }
  }

  /** Popping the points that do not turn left towards p, then pushing p,
      keeps every point, p included, on or left of every edge. */
  lemma PopThenPushSupports(s: seq<Vec2>, c: seq<Vec2>, p: Vec2, up: bool)
    requires Monotone(s, up) && |s| >= 1
    requires forall i :: 0 <= i < |s| ==> Ahead(s[i], p, up)
    requires |c| >= 1 && c[0] == s[0] && c[|c| - 1] == s[|s| - 1]
    requires forall i :: 0 <= i < |c| ==> Ahead(c[i], p, up)
    requires LeftTurns(c) && Supports(c, s) && EdgesAhead(c, up)
    ensures Supports(PopNonLeft(c, p) + [p], s + [p]) && EdgesAhead(PopNonLeft(c, p) + [p], up)
  {
    var t := |PopNonLeft(c, p)|;
    PopNonLeftEnds(c, p, t);
    PrefixKeepsLeftTurns(c, t);
    PushSupports(s, c, t, p, up);
  }

  /** One push keeps the invariant: all points so far lie on or left of
      every chain edge, and every edge points forward. */
  lemma ChainStepSupports(s: seq<Vec2>, p: Vec2, up: bool)
    requires Monotone(s + [p], up) && |s| >= 1
    requires Supports(Chain(s), s) && EdgesAhead(Chain(s), up)
    ensures Supports(Chain(s + [p]), s + [p]) && EdgesAhead(Chain(s + [p]), up)
  {
    ChainBehindPoint(s, p, up);
    PopThenPushSupports(s, Chain(s), p, up);
    ChainPush(s, p);
  }

  /** The facts about a chain that the next push relies on. */
  lemma ChainBehindPoint(s: seq<Vec2>, p: Vec2, up: bool)
    requires Monotone(s + [p], up) && |s| >= 1
    ensures Monotone(s, up) && forall i :: 0 <= i < |s| ==> Ahead(s[i], p, up)
    ensures var c := Chain(s);
            && |c| >= 1 && c[0] == s[0] && c[|c| - 1] == s[|s| - 1]
            && (forall i :: 0 <= i < |c| ==> Ahead(c[i], p, up))
            && LeftTurns(c)
  {
    MonotonePrefix(s, p, up);
    ChainIsBehind(s, p, up);
    ChainFacts(s);
    ChainTurnsLeft(s);
  }

  /** A chain has every point it was built from on or left of each of its
      edges, and its edges point forward. */
  lemma {:induction false} ChainSupports(s: seq<Vec2>, up: bool)
    requires Monotone(s, up)
    ensures Supports(Chain(s), s) && EdgesAhead(Chain(s), up)
    decreases |s|
  {
    if |s| == 1 {
      assert |Chain(s)| == 1;
    } else if |s| >= 2 {
      var init := s[..|s| - 1];
      assert s == init + [s[|s| - 1]];
      ChainSupports(init, up);
      ChainStepSupports(init, s[|s| - 1], up);
    }
  }

  /** std::unique over sorted points keeps them sorted. */
  lemma {:induction false} DedupAfterKeepsSorted(kept: Vec2, rest: seq<Vec2>)
    requires SortedLex([kept] + rest)
    ensures SortedLex(DedupAfter(kept, rest))
    decreases |rest|
  {
    if rest != [] {
      var s := [kept] + rest;
      assert s[1..] == rest && s[1] == rest[0];
      SortedTail(s);
      if Near(kept, rest[0]) {
        var s2 := [kept] + rest[1..];
        forall i | 0 < i < |s2| ensures !LexLess(s2[i], s2[i - 1]) {
          if i == 1 {
            assert s2[1] == rest[1] && !LexLess(rest[1], rest[0]);
          } else {
            assert s2[i] == rest[i] && s2[i - 1] == rest[i - 1];
          }
        }
        DedupAfterKeepsSorted(kept, rest[1..]);
      } else {
        assert [rest[0]] + rest[1..] == rest;
        DedupAfterKeepsSorted(rest[0], rest[1..]);
        var t := DedupAfter(rest[0], rest[1..]);
        var r := [kept] + t;
        forall i | 0 < i < |r| ensures !LexLess(r[i], r[i - 1]) {
          if i > 1 { assert r[i] == t[i - 1] && r[i - 1] == t[i - 2]; }
        }
      }
    }
  }

  /** Points that step strictly forward one at a time are monotone. */
  lemma {:induction false} StrictStepsReach(d: seq<Vec2>, i: nat, j: nat)
    requires forall k :: 0 < k < |d| ==> LexLess(d[k - 1], d[k])
    requires i < j < |d|
    ensures LexLess(d[i], d[j])
    decreases j - i
  {
    if j > i + 1 {
      StrictStepsReach(d, i, j - 1);
    }
  }

  /** The sorted, de-duplicated points strictly increase. */
  lemma DedupedIsMonotone(pts: seq<Vec2>)
    ensures Monotone(Dedup(SortLex(pts)), true)
  {
    var s := SortLex(pts);
    var d := Dedup(s);
    SortLexFacts(pts);
    DedupFacts(s);
    if s != [] {
      assert s == [s[0]] + s[1..];
      DedupAfterKeepsSorted(s[0], s[1..]);
    }
    forall k | 0 < k < |d| ensures LexLess(d[k - 1], d[k]) {
      LexLessTotal(d[k - 1], d[k]);
    }
    forall i, j | 0 <= i < j < |d| ensures Ahead(d[i], d[j], true) {
      StrictStepsReach(d, i, j);
    }
  }

  lemma ReverseRunsBackwards(d: seq<Vec2>)
    requires Monotone(d, true)
    ensures Monotone(Reverse(d), false)
  {
    var r := Reverse(d);
    forall i, j | 0 <= i < j < |r| ensures Ahead(r[i], r[j], false) {
      assert r[i] == d[|d| - 1 - i] && r[j] == d[|d| - 1 - j];
    }
  }

  lemma SupportsReversed(c: seq<Vec2>, d: seq<Vec2>)
    requires Supports(c, Reverse(d))
    ensures Supports(c, d)
  {
    forall k, j | 0 <= k < |c| - 1 && 0 <= j < |d| ensures Cross2(c[k], c[k + 1], d[j]) >= 0.0 {
      assert d[j] == Reverse(d)[|d| - 1 - j];
    }
  }

  /** Edge j of the joined chains, the wrap-around edge included, is an
      edge of one of the two chains. */
  lemma JoinedEdge(lower: seq<Vec2>, upper: seq<Vec2>, j: nat)
    requires |lower| >= 1 && |upper| >= 1
    requires lower[|lower| - 1] == upper[0] && upper[|upper| - 1] == lower[0]
    requires j < |lower| + |upper| - 2
    ensures var h := lower[..|lower| - 1] + upper[..|upper| - 1];
            |h| == |lower| + |upper| - 2 &&
            if j < |lower| - 1 then h[j] == lower[j] && h[(j + 1) % |h|] == lower[j + 1]
            else h[j] == upper[j - |lower| + 1] && h[(j + 1) % |h|] == upper[j - |lower| + 2]
  {
    var h := lower[..|lower| - 1] + upper[..|upper| - 1];
    var n := |h|;
    if j + 1 < n {
      assert (j + 1) % n == j + 1;
    } else {
      assert (j + 1) % n == 0;
    }
  }

  /** q lies on or left of edge j of the closed polygon h; the last edge
      runs from the last vertex back to the first. */
  predicate OnOrLeftOfEdge(h: seq<Vec2>, j: nat, q: Vec2)
    requires j < |h|
  {
    Cross2(h[j], h[(j + 1) % |h|], q) >= 0.0
  }

  /** Both chains over the sorted, de-duplicated points have every point on
      or left of each of their edges. */
  lemma ChainsSupportPoints(pts: seq<Vec2>, d: seq<Vec2>)
    requires d == Dedup(SortLex(pts))
    ensures Monotone(d, true)
    ensures Supports(Chain(d), d) && EdgesAhead(Chain(d), true)
    ensures Supports(Chain(Reverse(d)), d) && EdgesAhead(Chain(Reverse(d)), false)
  {
    DedupedIsMonotone(pts);
    ReverseRunsBackwards(d);
    ChainSupports(d, true);
    ChainSupports(Reverse(d), false);
    SupportsReversed(Chain(Reverse(d)), d);
  }

  /** Both chains keep only points of d, and with two or more points each
      chain has two or more. */
  lemma ChainsOverPoints(d: seq<Vec2>)
    requires Monotone(d, true)
    ensures forall q :: q in Chain(d) ==> q in d
    ensures forall q :: q in Chain(Reverse(d)) ==> q in d
    ensures |d| >= 2 ==> |Chain(d)| >= 2 && |Chain(Reverse(d))| >= 2
  {
    ChainFacts(d);
    ChainFacts(Reverse(d));
    ReverseHasSameMembers(d);
    if |d| >= 2 {
      UpperChainEnds(d);
      AheadTrichotomy(d[0], d[|d| - 1], true);
      assert Ahead(d[0], d[|d| - 1], true);
    }
  }

  /** Joining two chains that meet end to end keeps every point that is on
      or left of all their edges on or left of every edge of the polygon. */
  lemma JoinedChainsContain(lower: seq<Vec2>, upper: seq<Vec2>, d: seq<Vec2>)
    requires |lower| >= 1 && |upper| >= 1
    requires lower[|lower| - 1] == upper[0] && upper[|upper| - 1] == lower[0]
    requires Supports(lower, d) && Supports(upper, d)
    ensures var h := lower[..|lower| - 1] + upper[..|upper| - 1];
            forall j, i :: 0 <= j < |h| && 0 <= i < |d| ==> OnOrLeftOfEdge(h, j, d[i])
  {
    var h := lower[..|lower| - 1] + upper[..|upper| - 1];
    forall j, i | 0 <= j < |h| && 0 <= i < |d| ensures OnOrLeftOfEdge(h, j, d[i]) {
      JoinedEdge(lower, upper, j);
    }
  }

  /** Above three points, every sorted, de-duplicated point lies on or left
      of every edge of the hull, the edge from the last vertex back to the
      first included: the hull contains them. */
  lemma HullContainsPoints(pts: seq<Vec2>)
    requires |pts| > 3
    ensures var d := Dedup(SortLex(pts));
            var h := ConvexHullOf(pts);
            forall j, i :: 0 <= j < |h| && 0 <= i < |d| ==> OnOrLeftOfEdge(h, j, d[i])
  {
    var d := Dedup(SortLex(pts));
    var lower := Chain(d);
    var upper := Chain(Reverse(d));
    HullIsTwoLeftTurningChains(pts, d, lower, upper);
    ChainsSupportPoints(pts, d);
    JoinedChainsContain(lower, upper, d);
  }

  /** What std::unique drops is near a point it keeps. */
  lemma {:induction false} DedupAfterCovers(kept: Vec2, rest: seq<Vec2>)
    ensures forall q :: q in [kept] + rest ==> exists k :: k in DedupAfter(kept, rest) && Near(k, q)
    decreases |rest|
  {
    var r := DedupAfter(kept, rest);
    assert kept in r && Near(kept, kept);
    if rest != [] {
      if Near(kept, rest[0]) {
        DedupAfterCovers(kept, rest[1..]);
        forall q | q in [kept] + rest ensures exists k :: k in r && Near(k, q) {
          if q != rest[0] { assert q in [kept] + rest[1..]; }
        }
      } else {
        DedupAfterCovers(rest[0], rest[1..]);
        var t := DedupAfter(rest[0], rest[1..]);
        assert [rest[0]] + rest[1..] == rest;
        forall q | q in [kept] + rest ensures exists k :: k in r && Near(k, q) {
          if q != kept {
            var k :| k in t && Near(k, q);
            assert k in r;
          }
        }
      }
    }
  }

  /** Every input point the de-duplication drops lies within MergeEps on
      each axis of a point the hull is built from. */
  lemma DroppedPointsAreNearKeptOnes(pts: seq<Vec2>)
    ensures forall q :: q in pts ==> exists k :: k in Dedup(SortLex(pts)) && Near(k, q)
  {
    var s := SortLex(pts);
    SortLexFacts(pts);
    if s != [] {
      assert s == [s[0]] + s[1..];
      DedupAfterCovers(s[0], s[1..]);
      forall q | q in pts ensures exists k :: k in Dedup(s) && Near(k, q) {
        assert q in multiset(s);
        assert q in [s[0]] + s[1..];
      }
    }
  }

  /** A flat turn e -> o -> f between two edges that have every point on or
      left of them puts every point on the line through o. */
  lemma FlatJunctionFlattens(e: Vec2, o: Vec2, f: Vec2, q: Vec2, up: bool)
    requires Ahead(e, o, up) && Ahead(f, o, up)
    requires Cross2(e, o, f) == 0.0
    requires Cross2(e, o, q) >= 0.0 && Cross2(o, f, q) >= 0.0
    ensures Cross(Sub(o, e), Sub(q, o)) == 0.0
  {
    var a := Sub(o, e);
    var c := Sub(o, f);
    Cross2Shift(e, o, q);
    Cross2Shift(e, o, f);
    assert Sub(f, o) == Neg(c);
    CrossNeg(a, c);
    CrossNeg(c, Sub(q, o));
    assert Cross2(o, f, q) == Cross(Neg(c), Sub(q, o));
    assert Cross(Neg(c), Sub(q, o)) == -Cross(c, Sub(q, o));
    AheadIsCone(e, o, up);
    AheadIsCone(f, o, up);
    ConeParallel(a, c, Sub(q, o), up);
  }

  /** Three points on one line through o do not turn. */
  lemma PointsOnALine(a: Vec2, o: Vec2, x: Vec2, y: Vec2, z: Vec2)
    requires a != Zero2
    requires Cross(a, Sub(x, o)) == 0.0 && Cross(a, Sub(y, o)) == 0.0 && Cross(a, Sub(z, o)) == 0.0
    ensures Cross2(x, y, z) == 0.0
  {
    Collinear(a, Sub(x, o), Sub(y, o), Sub(z, o));
    assert Sub(Sub(y, o), Sub(x, o)) == Sub(y, x);
    assert Sub(Sub(z, o), Sub(x, o)) == Sub(z, x);
  }

  /** Where the chains meet, the turn is strictly left: otherwise every
      point would lie on one line, and a chain of three or more points
      could not turn strictly left. */
  lemma JunctionTurnsLeft(d: seq<Vec2>, lower: seq<Vec2>, upper: seq<Vec2>, e: Vec2, o: Vec2, f: Vec2, up: bool)
    requires Ahead(e, o, up) && Ahead(f, o, up) && f in d
    requires forall i :: 0 <= i < |d| ==> Cross2(e, o, d[i]) >= 0.0 && Cross2(o, f, d[i]) >= 0.0
    requires LeftTurns(lower) && LeftTurns(upper) && (|lower| >= 3 || |upper| >= 3)
    requires forall q :: q in lower ==> q in d
    requires forall q :: q in upper ==> q in d
    ensures Cross2(e, o, f) > 0.0
  {
    if Cross2(e, o, f) <= 0.0 {
      var a := Sub(o, e);
      AheadIsCone(e, o, up);
      forall i | 0 <= i < |d| ensures Cross(a, Sub(d[i], o)) == 0.0 {
        FlatJunctionFlattens(e, o, f, d[i], up);
      }
      var c := if |lower| >= 3 then lower else upper;
      assert c[0] in d && c[1] in d && c[2] in d;
      var i0 :| 0 <= i0 < |d| && d[i0] == c[0];
      var i1 :| 0 <= i1 < |d| && d[i1] == c[1];
      var i2 :| 0 <= i2 < |d| && d[i2] == c[2];
      PointsOnALine(a, o, c[0], c[1], c[2]);
      assert false;
    }
  }

  /** Vertices j, j+1 and j+2 of the closed polygon h turn strictly left
      (indices wrap around). */
  predicate TurnsLeftAt(h: seq<Vec2>, j: nat)
    requires j < |h|
  {
    Cross2(h[j], h[(j + 1) % |h|], h[(j + 2) % |h|]) > 0.0
  }

  /** Triple j of the joined chains is a triple of one chain, or one of the
      two triples where the chains meet. */
  lemma JoinedTriple(lower: seq<Vec2>, upper: seq<Vec2>, j: nat)
    requires |lower| >= 2 && |upper| >= 2
    requires lower[|lower| - 1] == upper[0] && upper[|upper| - 1] == lower[0]
    requires |lower| + |upper| - 2 >= 3 && j < |lower| + |upper| - 2
    ensures var h := lower[..|lower| - 1] + upper[..|upper| - 1];
            var n := |h|;
            n == |lower| + |upper| - 2 &&
            if j < |lower| - 2 then
              h[j] == lower[j] && h[(j + 1) % n] == lower[j + 1] && h[(j + 2) % n] == lower[j + 2]
            else if j == |lower| - 2 then
              h[j] == lower[j] && h[(j + 1) % n] == lower[j + 1] && h[(j + 2) % n] == upper[1]
            else if j < n - 1 then
              h[j] == upper[j - |lower| + 1] && h[(j + 1) % n] == upper[j - |lower| + 2]
              && h[(j + 2) % n] == upper[j - |lower| + 3]
            else
              h[j] == upper[|upper| - 2] && h[(j + 1) % n] == upper[|upper| - 1] && h[(j + 2) % n] == lower[1]
  {
    var n := |lower| + |upper| - 2;
    var b := (j + 1) % n;
    var c := (j + 2) % n;
    WrapIndex(j + 1, n);
    WrapIndex(j + 2, n);
    JoinedAt(lower, upper, j);
    JoinedAt(lower, upper, b);
    JoinedAt(lower, upper, c);
  }

  /** An index one lap past the end wraps to the start. */
  lemma WrapIndex(a: nat, n: nat)
    requires 0 < n && a < 2 * n
    ensures a % n == if a < n then a else a - n
  {
    if a >= n {
      assert (a - n) % n == a % n;
    }
  }

  /** Vertex x of the joined chains. */
  lemma JoinedAt(lower: seq<Vec2>, upper: seq<Vec2>, x: nat)
    requires |lower| >= 1 && |upper| >= 1 && x < |lower| + |upper| - 2
    ensures var h := lower[..|lower| - 1] + upper[..|upper| - 1];
            h[x] == if x < |lower| - 1 then lower[x] else upper[x - |lower| + 1]
  {
  }

  /** Two left-turning chains that meet end to end, and turn strictly left
      where they meet, join into a polygon that turns strictly left at
      every vertex. */
  lemma JoinedChainsTurnLeft(lower: seq<Vec2>, upper: seq<Vec2>)
    requires |lower| >= 2 && |upper| >= 2 && |lower| + |upper| - 2 >= 3
    requires lower[|lower| - 1] == upper[0] && upper[|upper| - 1] == lower[0]
    requires LeftTurns(lower) && LeftTurns(upper)
    requires Cross2(lower[|lower| - 2], lower[|lower| - 1], upper[1]) > 0.0
    requires Cross2(upper[|upper| - 2], upper[|upper| - 1], lower[1]) > 0.0
    ensures var h := lower[..|lower| - 1] + upper[..|upper| - 1];
            forall j :: 0 <= j < |h| ==> TurnsLeftAt(h, j)
  {
    var h := lower[..|lower| - 1] + upper[..|upper| - 1];
    forall j | 0 <= j < |h| ensures TurnsLeftAt(h, j) {
      JoinedTriple(lower, upper, j);
    }
  }

  /** Chains that have every point on or left of their edges turn strictly
      left where they meet, once they have three vertices between them. */
  lemma ChainsMeetTurningLeft(d: seq<Vec2>, lower: seq<Vec2>, upper: seq<Vec2>)
    requires Supports(lower, d) && EdgesAhead(lower, true)
    requires Supports(upper, d) && EdgesAhead(upper, false)
    requires forall q :: q in lower ==> q in d
    requires forall q :: q in upper ==> q in d
    requires |lower| >= 2 && |upper| >= 2 && |lower| + |upper| - 2 >= 3
    requires lower[|lower| - 1] == upper[0] && upper[|upper| - 1] == lower[0]
    requires LeftTurns(lower) && LeftTurns(upper)
    ensures Cross2(lower[|lower| - 2], lower[|lower| - 1], upper[1]) > 0.0
    ensures Cross2(upper[|upper| - 2], upper[|upper| - 1], lower[1]) > 0.0
  {
    var m := |lower|;
    var k := |upper|;
    assert upper[1] in upper && lower[1] in lower;
    forall i | 0 <= i < |d|
      ensures Cross2(lower[m - 2], lower[m - 1], d[i]) >= 0.0 && Cross2(lower[m - 1], upper[1], d[i]) >= 0.0
    {
    }
    JunctionTurnsLeft(d, lower, upper, lower[m - 2], lower[m - 1], upper[1], true);
    forall i | 0 <= i < |d|
      ensures Cross2(upper[k - 2], upper[k - 1], d[i]) >= 0.0 && Cross2(upper[k - 1], lower[1], d[i]) >= 0.0
    {
    }
    JunctionTurnsLeft(d, lower, upper, upper[k - 2], upper[k - 1], lower[1], false);
  }

  /** Two chains meeting end to end, on or left of each other's edges and
      turning left at every inner point, join into a cycle of three or more
      points that turns strictly left at every vertex. */
  /** A polygon of three or more points that turns strictly left at every
      vertex, the wrap-around included. */
  predicate TurnsLeftEverywhere(h: seq<Vec2>)
  {
    |h| >= 3 ==> forall j :: 0 <= j < |h| ==> TurnsLeftAt(h, j)
  }

  /** A lower and an upper chain over the points d, as the join needs them:
      every point of d on or left of every edge of both, both made of points
      of d and turning left throughout, each ending where the other starts. */
  predicate JoinableChains(d: seq<Vec2>, lower: seq<Vec2>, upper: seq<Vec2>)
  {
    && Supports(lower, d) && EdgesAhead(lower, true)
    && Supports(upper, d) && EdgesAhead(upper, false)
    && (forall q :: q in lower ==> q in d)
    && (forall q :: q in upper ==> q in d)
    && 1 <= |lower| <= |d| && 1 <= |upper| <= |d|
    && (|d| >= 2 ==> |lower| >= 2 && |upper| >= 2)
    && lower[|lower| - 1] == upper[0] && upper[|upper| - 1] == lower[0]
    && LeftTurns(lower) && LeftTurns(upper)
  }

  lemma JoinedHullTurnsLeft(d: seq<Vec2>, lower: seq<Vec2>, upper: seq<Vec2>)
    requires JoinableChains(d, lower, upper)
    ensures TurnsLeftEverywhere(lower[..|lower| - 1] + upper[..|upper| - 1])
  {
    if |lower| + |upper| - 2 >= 3 {
      ChainsMeetTurningLeft(d, lower, upper);
      JoinedChainsTurnLeft(lower, upper);
    }
  }

  /** Above three points, a hull of three or more vertices turns strictly
      left at every vertex, where the two chains meet and at the
      wrap-around included: no three consecutive vertices are collinear. */
  lemma HullTurnsLeft(pts: seq<Vec2>)
    requires |pts| > 3
    ensures TurnsLeftEverywhere(ConvexHullOf(pts))
  {
    var d := Dedup(SortLex(pts));
    var lower := Chain(d);
    var upper := Chain(Reverse(d));
    HullJoinsChains(pts, d, lower, upper);
    JoinedChainsOfSortedPointsTurnLeft(pts, d, lower, upper);
  }

  lemma JoinedChainsOfSortedPointsTurnLeft(pts: seq<Vec2>, d: seq<Vec2>, lower: seq<Vec2>, upper: seq<Vec2>)
    requires |pts| > 3 && d == Dedup(SortLex(pts)) && lower == Chain(d) && upper == Chain(Reverse(d))
    ensures |lower| >= 1 && |upper| >= 1
    ensures TurnsLeftEverywhere(lower[..|lower| - 1] + upper[..|upper| - 1])
  {
    ChainsOfSortedPoints(pts, d, lower, upper);
    JoinedHullTurnsLeft(d, lower, upper);
  }

  /** What the two chains over the sorted, de-duplicated points offer the
      join. */
  lemma ChainsOfSortedPoints(pts: seq<Vec2>, d: seq<Vec2>, lower: seq<Vec2>, upper: seq<Vec2>)
    requires |pts| > 3 && d == Dedup(SortLex(pts)) && lower == Chain(d) && upper == Chain(Reverse(d))
    ensures JoinableChains(d, lower, upper)
  {
    HullIsTwoLeftTurningChains(pts, d, lower, upper);
    ChainsSupportPoints(pts, d);
    ChainsOverPoints(d);
  }
}
