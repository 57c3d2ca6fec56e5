/** Where a level starts the ball: on the top of a shadow platform, inside
    the circle of light. pickSpawnOnPlatformTopInLight samples eleven
    points across one platform and keeps the best-scoring one whose landing
    spot is lit; computeSpawnOnLeftmostPlatformInLight runs it on every
    platform and keeps the leftmost platform that offers a spot. */
module SpawnPlanner {
  import opened Numbers
  import opened Vectors
  import opened Platforms

  /** how many x positions are sampled across a platform */
  const SampleCount: nat := 11
  /** the sampled width never drops below this */
  const MinSampleWidth: real := 0.00001

  /** The spot chosen on one platform and the fraction u of the platform's
      width at which it was sampled. */
  datatype Spawn = Spawn(pos: Vec2, u: Fraction)

  /** A lit sample and its score. */
  datatype Sample = Sample(spawn: Spawn, score: real)

  /** The spawn the level starts from: the spot, the block that casts the
      platform, and the sample fraction. */
  datatype LevelSpawn = LevelSpawn(pos: Vec2, objectId: int, u: Fraction)

  /** A platform's offer in the leftmost scan: its minimum x and its spot. */
  datatype Offer = Offer(minX: real, spawn: LevelSpawn)

  /** u = i / (samples - 1), with samples - 1 = 10 */
  function SampleU(i: nat): (u: real)
    ensures i < SampleCount ==> 0.0 <= u <= 1.0
  {
    (i as real) / 10.0
  }

  /** The sampled width: the hull's width, at least MinSampleWidth. */
  function SampleWidth(hull: seq<Vec2>): (w: real)
    requires |hull| > 0
    ensures w >= MaxX(hull) - MinX(hull) && w >= MinSampleWidth
  {
    Max(MaxX(hull) - MinX(hull), MinSampleWidth)
  }

  /** 1 at the middle of the platform, 0 at its ends. */
  function CenterBias(u: real): real
  {
    1.0 - Abs(u - 0.5) * 2.0
  }

  /** Sample i of a platform whose sampling starts at minX and spans w:
      lit and on the top boundary, or None. */
  function SampleAt(hull: seq<Vec2>, minX: real, w: real, lightCenter: Vec2, lightRadius: real, ballRadius: real, i: nat): Option<Sample>
    requires i < SampleCount
  {
    LitSample(SampleX(minX, w, i), SampleU(i), TopY(hull, SampleX(minX, w, i)), lightCenter, lightRadius, ballRadius)
  }

  /** x = minX + u * w */
  function SampleX(minX: real, w: real, i: nat): real
  {
    minX + SampleU(i) * w
  }

  /** The sample at x, given the top the hull offers there: none without a
      top or when the landing spot is farther than the light's radius. */
  function LitSample(x: real, u: Fraction, top: Option<real>, lightCenter: Vec2, lightRadius: real, ballRadius: real): Option<Sample>
  {
    match top
    case None => None
    case Some(y) =>
      var landing := Vec2(x, y + ballRadius);
      if FartherThan(landing, lightCenter, lightRadius) then None
      else Some(Sample(Spawn(landing, u), y * 10.0 + CenterBias(u)))
  }

  /** A lit sample rests the ball on the hull's top at its x, lies within
      the light, and lies over the sampled range [minX, minX + w]. */
  lemma SampleIsLitTop(hull: seq<Vec2>, minX: real, w: real, lightCenter: Vec2, lightRadius: real, ballRadius: real, i: nat)
    requires i < SampleCount && w > 0.0
    requires SampleAt(hull, minX, w, lightCenter, lightRadius, ballRadius, i).Some?
    ensures var s := SampleAt(hull, minX, w, lightCenter, lightRadius, ballRadius, i).value;
            && TopY(hull, s.spawn.pos.x) == Some(s.spawn.pos.y - ballRadius)
            && !FartherThan(s.spawn.pos, lightCenter, lightRadius)
            && s.spawn.u == SampleU(i)
            && minX <= s.spawn.pos.x <= minX + w
            && s.score == (s.spawn.pos.y - ballRadius) * 10.0 + CenterBias(s.spawn.u)
  {
    var u := SampleU(i);
    var x := SampleX(minX, w, i);
    var y := TopY(hull, x).value;
    var s := SampleAt(hull, minX, w, lightCenter, lightRadius, ballRadius, i).value;
    assert s == Sample(Spawn(Vec2(x, y + ballRadius), u), y * 10.0 + CenterBias(u));
    assert x == minX + u * w;
    assert 0.0 <= u * w <= w by {
      assert 0.0 <= u <= 1.0;
      assert w - u * w == (1.0 - u) * w;
    }
  }

  /** Every sample of one platform, in sampling order, from the hull's
      minimum x across its sampled width. */
  function SamplesOf(hull: seq<Vec2>, lightCenter: Vec2, lightRadius: real, ballRadius: real): (ss: seq<Option<Sample>>)
    requires |hull| > 0
    ensures |ss| == SampleCount
    ensures forall i :: 0 <= i < SampleCount ==>
      ss[i] == SampleAt(hull, MinX(hull), SampleWidth(hull), lightCenter, lightRadius, ballRadius, i)
  {
    seq(SampleCount, i requires 0 <= i < SampleCount =>
      SampleAt(hull, MinX(hull), SampleWidth(hull), lightCenter, lightRadius, ballRadius, i))
  }

  /** The `!found || score > bestScore` update: the first lit sample, then
      only a strictly better one. */
  function Better(best: Option<Sample>, c: Option<Sample>): Option<Sample>
  {
    if c.Some? && (best.None? || c.value.score > best.value.score) then c else best
  }

  /** The scan over the first k samples. */
  function BestSampleUpTo(ss: seq<Option<Sample>>, k: nat): Option<Sample>
    requires k <= |ss|
  {
    if k == 0 then None else Better(BestSampleUpTo(ss, k - 1), ss[k - 1])
  }

  /** The scan finds a sample exactly when one is lit; its score is the
      highest, and it is the first sample with that score. */
  lemma {:induction false} BestSampleIsBest(ss: seq<Option<Sample>>, k: nat)
    requires k <= |ss|
    ensures var r := BestSampleUpTo(ss, k);
      && (r.None? <==> forall i :: 0 <= i < k ==> ss[i].None?)
      && (r.Some? ==> forall i :: 0 <= i < k && ss[i].Some? ==> ss[i].value.score <= r.value.score)
      && (r.Some? ==> exists i :: (0 <= i < k && ss[i] == r &&
            forall j :: 0 <= j < i && ss[j].Some? ==> ss[j].value.score < r.value.score))
  {
    if k > 0 {
      BestSampleIsBest(ss, k - 1);
      var prev := BestSampleUpTo(ss, k - 1);
      var r := BestSampleUpTo(ss, k);
      assert r == Better(prev, ss[k - 1]);
      if r != prev {
        assert r == ss[k - 1];
        assert forall j :: 0 <= j < k - 1 && ss[j].Some? ==> ss[j].value.score < r.value.score;
      } else if r.Some? {
        var i :| 0 <= i < k - 1 && ss[i] == r &&
          forall j :: 0 <= j < i && ss[j].Some? ==> ss[j].value.score < r.value.score;
      }
    }
  }

  /** pickSpawnOnPlatformTopInLight: None for a hull of fewer than three
      points or when no sample is lit. */
  function PickSpawn(hull: seq<Vec2>, lightCenter: Vec2, lightRadius: real, ballRadius: real): Option<Spawn>
  {
    if |hull| < 3 then None
    else
      var ss := SamplesOf(hull, lightCenter, lightRadius, ballRadius);
      match BestSampleUpTo(ss, |ss|)
      case None => None
      case Some(s) => Some(s.spawn)
  }

  /** A platform offers a spawn exactly when it has three points and one of
      its samples is lit; the spot offered is the first best-scoring lit
      sample. */
  lemma PickSpawnIsBestSample(hull: seq<Vec2>, lightCenter: Vec2, lightRadius: real, ballRadius: real)
    ensures |hull| < 3 ==> PickSpawn(hull, lightCenter, lightRadius, ballRadius).None?
    ensures |hull| >= 3 ==>
      var ss := SamplesOf(hull, lightCenter, lightRadius, ballRadius);
      var r := PickSpawn(hull, lightCenter, lightRadius, ballRadius);
      && (r.Some? <==> exists i :: 0 <= i < SampleCount && ss[i].Some?)
      && (r.Some? ==> exists i :: (0 <= i < SampleCount && ss[i].Some? && r == Some(ss[i].value.spawn) &&
            (forall j :: 0 <= j < SampleCount && ss[j].Some? ==> ss[j].value.score <= ss[i].value.score) &&
            (forall j :: 0 <= j < i && ss[j].Some? ==> ss[j].value.score < ss[i].value.score)))
  {
    if |hull| >= 3 {
      var ss := SamplesOf(hull, lightCenter, lightRadius, ballRadius);
      BestSampleIsBest(ss, SampleCount);
    }
  }

  /** A platform's spawn spot stands on the platform's top, inside the
      light, at one of the sample fractions i/10 across its width. */
  lemma PickSpawnIsLitTop(hull: seq<Vec2>, lightCenter: Vec2, lightRadius: real, ballRadius: real)
    requires PickSpawn(hull, lightCenter, lightRadius, ballRadius).Some?
    ensures var s := PickSpawn(hull, lightCenter, lightRadius, ballRadius).value;
      && |hull| >= 3
      && TopY(hull, s.pos.x) == Some(s.pos.y - ballRadius)
      && !FartherThan(s.pos, lightCenter, lightRadius)
      && (exists i :: 0 <= i < SampleCount && s.u == SampleU(i))
      && MinX(hull) <= s.pos.x <= MinX(hull) + SampleWidth(hull)
  {
    PickSpawnIsBestSample(hull, lightCenter, lightRadius, ballRadius);
    var ss := SamplesOf(hull, lightCenter, lightRadius, ballRadius);
    var i :| 0 <= i < SampleCount && ss[i].Some? &&
      PickSpawn(hull, lightCenter, lightRadius, ballRadius) == Some(ss[i].value.spawn);
    SampleIsLitTop(hull, MinX(hull), SampleWidth(hull), lightCenter, lightRadius, ballRadius, i);
  }

  /** What a platform puts into the leftmost scan: nothing below three
      points or without a lit sample, else its minimum x and its spot. */
  function OfferOf(p: ShadowPoly, lightCenter: Vec2, lightRadius: real, ballRadius: real): Option<Offer>
  {
    if |p.hull| < 3 then None
    else match PickSpawn(p.hull, lightCenter, lightRadius, ballRadius)
      case None => None
      case Some(s) => Some(Offer(MinX(p.hull), LevelSpawn(s.pos, p.objectId, s.u)))
  }

  function OffersOf(ps: seq<ShadowPoly>, lightCenter: Vec2, lightRadius: real, ballRadius: real): (os: seq<Option<Offer>>)
    ensures |os| == |ps|
    ensures forall i :: 0 <= i < |ps| ==> os[i] == OfferOf(ps[i], lightCenter, lightRadius, ballRadius)
  {
    seq(|ps|, i requires 0 <= i < |ps| => OfferOf(ps[i], lightCenter, lightRadius, ballRadius))
  }

  /** The `!foundAny || minX < bestMinX` update: the first offer, then
      only one strictly further left. */
  function MoreLeft(best: Option<Offer>, c: Option<Offer>): Option<Offer>
  {
    if c.Some? && (best.None? || c.value.minX < best.value.minX) then c else best
  }

  function LeftmostUpTo(os: seq<Option<Offer>>, k: nat): Option<Offer>
    requires k <= |os|
  {
    if k == 0 then None else MoreLeft(LeftmostUpTo(os, k - 1), os[k - 1])
  }

  /** The scan finds an offer exactly when there is one; it is the
      leftmost, and the first among equally left ones. */
  lemma {:induction false} LeftmostIsLeftmost(os: seq<Option<Offer>>, k: nat)
    requires k <= |os|
    ensures var r := LeftmostUpTo(os, k);
      && (r.None? <==> forall i :: 0 <= i < k ==> os[i].None?)
      && (r.Some? ==> forall i :: 0 <= i < k && os[i].Some? ==> r.value.minX <= os[i].value.minX)
      && (r.Some? ==> exists i :: (0 <= i < k && os[i] == r &&
            forall j :: 0 <= j < i && os[j].Some? ==> r.value.minX < os[j].value.minX))
  {
    if k > 0 {
      LeftmostIsLeftmost(os, k - 1);
      var prev := LeftmostUpTo(os, k - 1);
      var r := LeftmostUpTo(os, k);
      assert r == MoreLeft(prev, os[k - 1]);
      if r != prev {
        assert r == os[k - 1];
        assert forall j :: 0 <= j < k - 1 && os[j].Some? ==> r.value.minX < os[j].value.minX;
      } else if r.Some? {
        var i :| 0 <= i < k - 1 && os[i] == r &&
          forall j :: 0 <= j < i && os[j].Some? ==> r.value.minX < os[j].value.minX;
      }
    }
  }

  /** computeSpawnOnLeftmostPlatformInLight */
  function LeftmostSpawn(ps: seq<ShadowPoly>, lightCenter: Vec2, lightRadius: real, ballRadius: real): Option<LevelSpawn>
  {
    match LeftmostUpTo(OffersOf(ps, lightCenter, lightRadius, ballRadius), |ps|)
    case None => None
    case Some(o) => Some(o.spawn)
  }

  /** A platform's offer is its own spot, tagged with its block id and
      minimum x. */
  lemma OfferIsPlatformSpot(p: ShadowPoly, lightCenter: Vec2, lightRadius: real, ballRadius: real)
    ensures var o := OfferOf(p, lightCenter, lightRadius, ballRadius);
            var s := PickSpawn(p.hull, lightCenter, lightRadius, ballRadius);
      && (o.Some? <==> s.Some?)
      && (o.Some? ==> |p.hull| >= 3 && o.value == Offer(MinX(p.hull), LevelSpawn(s.value.pos, p.objectId, s.value.u)))
  {
  }

  /** Whether a platform offers a spot is whether pickSpawn succeeds on it,
      and the offer's x is the platform's minimum x. */
  lemma OffersArePicks(ps: seq<ShadowPoly>, lightCenter: Vec2, lightRadius: real, ballRadius: real)
    ensures var os := OffersOf(ps, lightCenter, lightRadius, ballRadius);
      forall i :: 0 <= i < |ps| ==>
        && (os[i].Some? <==> PickSpawn(ps[i].hull, lightCenter, lightRadius, ballRadius).Some?)
        && (os[i].Some? ==> |ps[i].hull| >= 3 && os[i].value.minX == MinX(ps[i].hull))
  {
    var os := OffersOf(ps, lightCenter, lightRadius, ballRadius);
    forall i | 0 <= i < |ps|
      ensures os[i].Some? <==> PickSpawn(ps[i].hull, lightCenter, lightRadius, ballRadius).Some?
      ensures os[i].Some? ==> |ps[i].hull| >= 3 && os[i].value.minX == MinX(ps[i].hull)
    {
      OfferIsPlatformSpot(ps[i], lightCenter, lightRadius, ballRadius);
    }
  }

  /** A level spawn exists exactly when some platform offers one. */
  lemma LeftmostSpawnFound(ps: seq<ShadowPoly>, lightCenter: Vec2, lightRadius: real, ballRadius: real)
    ensures LeftmostSpawn(ps, lightCenter, lightRadius, ballRadius).Some? <==>
      exists i :: 0 <= i < |ps| && PickSpawn(ps[i].hull, lightCenter, lightRadius, ballRadius).Some?
  {
    var os := OffersOf(ps, lightCenter, lightRadius, ballRadius);
    LeftmostIsLeftmost(os, |ps|);
    OffersArePicks(ps, lightCenter, lightRadius, ballRadius);
  }

  /** The level spawn comes from the platform with the smallest minimum x
      (the first of equals), carries that platform's block id, and is that
      platform's own spot. */
  lemma LeftmostSpawnIsLeftmostPlatform(ps: seq<ShadowPoly>, lightCenter: Vec2, lightRadius: real, ballRadius: real)
    requires LeftmostSpawn(ps, lightCenter, lightRadius, ballRadius).Some?
    ensures var l := LeftmostSpawn(ps, lightCenter, lightRadius, ballRadius).value;
      exists i :: 0 <= i < |ps| && |ps[i].hull| >= 3 && l.objectId == ps[i].objectId &&
        PickSpawn(ps[i].hull, lightCenter, lightRadius, ballRadius) == Some(Spawn(l.pos, l.u)) &&
        (forall j :: 0 <= j < |ps| && PickSpawn(ps[j].hull, lightCenter, lightRadius, ballRadius).Some? ==>
           MinX(ps[i].hull) <= MinX(ps[j].hull)) &&
        (forall j :: 0 <= j < i && PickSpawn(ps[j].hull, lightCenter, lightRadius, ballRadius).Some? ==>
           MinX(ps[i].hull) < MinX(ps[j].hull))
  {
    var os := OffersOf(ps, lightCenter, lightRadius, ballRadius);
    LeftmostIsLeftmost(os, |ps|);
    var r := LeftmostUpTo(os, |ps|);
    var i :| 0 <= i < |ps| && os[i] == r &&
      forall j :: 0 <= j < i && os[j].Some? ==> r.value.minX < os[j].value.minX;
    LeftmostOfferIsLeftmostPick(ps, lightCenter, lightRadius, ballRadius, i);
    OfferIsPlatformSpot(ps[i], lightCenter, lightRadius, ballRadius);
  }

  /** An offer whose minimum x is no larger than any offer's, and smaller
      than every earlier offer's, belongs to the leftmost platform that has
      a spot, the first of equals. */
  lemma LeftmostOfferIsLeftmostPick(ps: seq<ShadowPoly>, lightCenter: Vec2, lightRadius: real, ballRadius: real, i: nat)
    requires i < |ps|
    requires var os := OffersOf(ps, lightCenter, lightRadius, ballRadius);
      && os[i].Some?
      && (forall j :: 0 <= j < |ps| && os[j].Some? ==> os[i].value.minX <= os[j].value.minX)
      && (forall j :: 0 <= j < i && os[j].Some? ==> os[i].value.minX < os[j].value.minX)
    ensures |ps[i].hull| >= 3
    ensures forall j :: 0 <= j < |ps| && PickSpawn(ps[j].hull, lightCenter, lightRadius, ballRadius).Some? ==>
      MinX(ps[i].hull) <= MinX(ps[j].hull)
    ensures forall j :: 0 <= j < i && PickSpawn(ps[j].hull, lightCenter, lightRadius, ballRadius).Some? ==>
      MinX(ps[i].hull) < MinX(ps[j].hull)
  {
    var os := OffersOf(ps, lightCenter, lightRadius, ballRadius);
    OffersArePicks(ps, lightCenter, lightRadius, ballRadius);
    forall j | 0 <= j < |ps| && PickSpawn(ps[j].hull, lightCenter, lightRadius, ballRadius).Some?
      ensures MinX(ps[i].hull) <= MinX(ps[j].hull)
    {
      assert os[j].Some?;
    }
    forall j | 0 <= j < i && PickSpawn(ps[j].hull, lightCenter, lightRadius, ballRadius).Some?
      ensures MinX(ps[i].hull) < MinX(ps[j].hull)
    {
      assert os[j].Some?;
    }
  }

  /** Sample i of pickSpawnOnPlatformTopInLight's loop, given the hull's
      minimum x and the sampled width. */
  method SampleOf(hull: seq<Vec2>, minX: real, w: real, lightCenter: Vec2, lightRadius: real, ballRadius: real, i: nat)
    returns (c: Option<Sample>)
    requires i < SampleCount
    ensures c == SampleAt(hull, minX, w, lightCenter, lightRadius, ballRadius, i)
  {
    var u := SampleU(i);
    var x := minX + u * w;
    var yTop := TopYAtX(hull, x);
    c := SampleFromTop(x, u, yTop, lightCenter, lightRadius, ballRadius);
    assert x == SampleX(minX, w, i);
  }

  /** The rest of one iteration of the sampling loop, once the top at x is
      known. */
  method SampleFromTop(x: real, u: Fraction, yTop: Option<real>, lightCenter: Vec2, lightRadius: real, ballRadius: real)
    returns (c: Option<Sample>)
    ensures c == LitSample(x, u, yTop, lightCenter, lightRadius, ballRadius)
  {
    if yTop.None? {
      return None;
    }
    var landing := Vec2(x, yTop.value + ballRadius);
    if FartherThan(landing, lightCenter, lightRadius) {
      return None;
    }
    var centerBias := 1.0 - Abs(u - 0.5) * 2.0;
    var score := yTop.value * 10.0 + centerBias;
    return Some(Sample(Spawn(landing, u), score));
  }

  /** pickSpawnOnPlatformTopInLight */
  method PickSpawnOnPlatformTopInLight(sp: ShadowPoly, lightCenter: Vec2, lightRadius: real, ballRadius: real)
    returns (r: Option<Spawn>)
    ensures r == PickSpawn(sp.hull, lightCenter, lightRadius, ballRadius)
  {
    if |sp.hull| < 3 {
      return None;
    }
    var span := XRange(sp.hull);
    var minX, maxX := span.value.minX, span.value.maxX;
    var w := Max(maxX - minX, MinSampleWidth);
    ghost var ss := SamplesOf(sp.hull, lightCenter, lightRadius, ballRadius);
    var best: Option<Sample> := None;
    for i := 0 to SampleCount
      invariant best == BestSampleUpTo(ss, i)
    {
      var c := SampleOf(sp.hull, minX, w, lightCenter, lightRadius, ballRadius, i);
      best := Better(best, c);
    }
    r := if best.Some? then Some(best.value.spawn) else None;
  }

  /** One iteration of computeSpawnOnLeftmostPlatformInLight's loop: the
      platform's offer, or None where the loop continues. */
  method PlatformOffer(sp: ShadowPoly, lightCenter: Vec2, lightRadius: real, ballRadius: real)
    returns (o: Option<Offer>)
    ensures o == OfferOf(sp, lightCenter, lightRadius, ballRadius)
  {
    if |sp.hull| < 3 {
      return None;
    }
    var span := XRange(sp.hull);
    var minX := span.value.minX;
    var spawn := PickSpawnOnPlatformTopInLight(sp, lightCenter, lightRadius, ballRadius);
    if spawn.None? {
      return None;
    }
    return Some(Offer(minX, LevelSpawn(spawn.value.pos, sp.objectId, spawn.value.u)));
  }

  /** computeSpawnOnLeftmostPlatformInLight */
  method ComputeSpawnOnLeftmostPlatformInLight(platforms: seq<ShadowPoly>, lightCenter: Vec2, lightRadius: real, ballRadius: real)
    returns (r: Option<LevelSpawn>)
    ensures r == LeftmostSpawn(platforms, lightCenter, lightRadius, ballRadius)
  {
    ghost var os := OffersOf(platforms, lightCenter, lightRadius, ballRadius);
    var best: Option<Offer> := None;
    for i := 0 to |platforms|
      invariant best == LeftmostUpTo(os, i)
    {
      var o := PlatformOffer(platforms[i], lightCenter, lightRadius, ballRadius);
      best := MoreLeft(best, o);
    }
    r := if best.Some? then Some(best.value.spawn) else None;
  }

  /** A platform's offer stands on that platform's top, inside the light. */
  lemma OfferIsLitTop(p: ShadowPoly, lightCenter: Vec2, lightRadius: real, ballRadius: real)
    requires OfferOf(p, lightCenter, lightRadius, ballRadius).Some?
    ensures var l := OfferOf(p, lightCenter, lightRadius, ballRadius).value.spawn;
      && l.objectId == p.objectId
      && TopY(p.hull, l.pos.x) == Some(l.pos.y - ballRadius)
      && !FartherThan(l.pos, lightCenter, lightRadius)
  {
    OfferIsPlatformSpot(p, lightCenter, lightRadius, ballRadius);
    PickSpawnIsLitTop(p.hull, lightCenter, lightRadius, ballRadius);
  }

  /** The level spawn is some platform's offer. */
  lemma LeftmostSpawnIsAnOffer(ps: seq<ShadowPoly>, lightCenter: Vec2, lightRadius: real, ballRadius: real)
    requires LeftmostSpawn(ps, lightCenter, lightRadius, ballRadius).Some?
    ensures exists i :: (0 <= i < |ps| && OfferOf(ps[i], lightCenter, lightRadius, ballRadius).Some? &&
      OfferOf(ps[i], lightCenter, lightRadius, ballRadius).value.spawn == LeftmostSpawn(ps, lightCenter, lightRadius, ballRadius).value)
  {
    var os := OffersOf(ps, lightCenter, lightRadius, ballRadius);
    LeftmostIsLeftmost(os, |ps|);
    var i :| 0 <= i < |ps| && os[i] == LeftmostUpTo(os, |ps|);
    assert OfferOf(ps[i], lightCenter, lightRadius, ballRadius) == os[i];
  }
}
