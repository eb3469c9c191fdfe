/** The pure part of power-up placement (duel/Powerup.java): the band, the candidate drawn
    for an attempt, the overlap test and the record of a `generatePowerups` run. */
module PowerupPlacement {
  import opened Geometry
  import opened Optional
  import JavaInt
  import JavaRandom
  import Maps

  const REGENERATION_DELAY: int := 7000
  const TARGET_POWERUPS: int := 3
  const SPAWN_INVINCIBILITY_DURATION: int := 500
  const MAX_ATTEMPTS: int := 20
  /** The default power-up footprint used before an image is known. */
  const DEFAULT_SIZE: int := 50
  /** Centres closer than (50 * 0.45) * 2 + 10 = 55 pixels overlap. */
  const OVERLAP_DISTANCE: int := 55

  /** The placement band: from a quarter of the width across half of it, and between top
      and bottom margins of (int)(gameHeight * 0.12), less the default footprint. */
  function MiddleStart(gameWidth: int): int { JavaInt.Div(gameWidth, 4) }
  function MiddleWidth(gameWidth: int): int { JavaInt.Div(gameWidth, 2) }
  function TopMargin(gameHeight: int): int { JavaInt.Div(12 * gameHeight, 100) }
  function UsableHeight(gameHeight: int): int { gameHeight - 2 * TopMargin(gameHeight) }
  function XBound(gameWidth: int): int { MiddleWidth(gameWidth) - DEFAULT_SIZE }
  function YBound(gameHeight: int): int { UsableHeight(gameHeight) - DEFAULT_SIZE }

  /** The game is large enough that `nextInt` gets positive bounds. */
  predicate BandOpen(gameWidth: int, gameHeight: int)
  {
    XBound(gameWidth) > 0 && YBound(gameHeight) > 0
  }

  predicate InBand(p: Point, gameWidth: int, gameHeight: int)
  {
    MiddleStart(gameWidth) <= p.x < MiddleStart(gameWidth) + XBound(gameWidth) &&
    TopMargin(gameHeight) <= p.y < TopMargin(gameHeight) + YBound(gameHeight)
  }

  /** In the 1000 x 600 game, power-ups are placed at x in [250, 700) and y in [72, 478). */
  lemma StandardBand(p: Point)
    ensures BandOpen(1000, 600)
    ensures InBand(p, 1000, 600) <==> 250 <= p.x < 700 && 72 <= p.y < 478
  {
    assert MiddleStart(1000) == 250 && MiddleWidth(1000) == 500;
    assert TopMargin(600) == 72;
  }

  function SquaredDistance(a: Point, b: Point): nat
  {
    (a.x - b.x) * (a.x - b.x) + (a.y - b.y) * (a.y - b.y)
  }

  lemma {:induction false} ScaleReal(a: real, b: real, c: real)
    requires c > 0.0 && a < b
    ensures a * c < b * c
  {}

  /** `Math.sqrt(d) < 55.0` for an integer squared distance d is `d < 55 * 55`. */
  lemma {:induction false} RootBelowOverlapDistance(d: nat, root: real)
    requires root >= 0.0 && root * root == d as real
    ensures root < OVERLAP_DISTANCE as real <==> d < OVERLAP_DISTANCE * OVERLAP_DISTANCE
  {
    var b := OVERLAP_DISTANCE as real;
    if root < b {
      if root > 0.0 {
        ScaleReal(root, b, root);
      }
      ScaleReal(root, b, b);
    } else if root > b {
      ScaleReal(b, root, b);
      ScaleReal(b, root, root);
    }
  }

  function ImageAt(images: map<Point, Size>, p: Point): Option<Size>
  {
    if p in images then Some(images[p]) else None
  }

  /** The candidate an attempt of `generatePowerups` draws when its x offset is draw `k` of
      `source` and its y offset draw `k + 1`. */
  function Candidate(source: nat -> nat, k: nat, gameWidth: int, gameHeight: int): Point
    requires BandOpen(gameWidth, gameHeight)
  {
    Point(MiddleStart(gameWidth) + source(k) % XBound(gameWidth),
          TopMargin(gameHeight) + source(k + 1) % YBound(gameHeight))
  }

  /** Every candidate lies in the placement band. */
  lemma CandidateInBand(source: nat -> nat, k: nat, gameWidth: int, gameHeight: int)
    requires BandOpen(gameWidth, gameHeight)
    ensures InBand(Candidate(source, k, gameWidth, gameHeight), gameWidth, gameHeight)
  {}

  /** The type `getRandomPowerupType` returns when its roll is draw `k` of `source`. */
  function TypeDrawn(source: nat -> nat, k: nat): (t: string)
    ensures t in Maps.POWERUP_TYPES
  {
    Maps.POWERUP_TYPES[source(k) % |Maps.POWERUP_TYPES|]
  }

  /** The power-ups `added` by a run of `tries` attempts whose draws start at `start` came
      from the attempts numbered `picks`, in increasing order: each is the candidate its
      attempt drew. Stated on the last pick; `PickedFromAt` gives it pick by pick. */
  predicate PickedFrom(source: nat -> nat, start: nat, added: seq<Point>, picks: seq<nat>, tries: nat,
                       gameWidth: int, gameHeight: int)
    decreases |picks|
  {
    BandOpen(gameWidth, gameHeight) && |added| == |picks| &&
    (picks != [] ==>
      var n := |picks| - 1;
      picks[n] < tries && added[n] == Candidate(source, start + 2 * picks[n], gameWidth, gameHeight) &&
      PickedFrom(source, start, added[..n], picks[..n], picks[n], gameWidth, gameHeight))
  }

  /** Power-up j is the candidate of attempt `picks[j]`, which came before attempt `tries`. */
  lemma {:induction false} PickedFromAt(source: nat -> nat, start: nat, added: seq<Point>, picks: seq<nat>, tries: nat,
                                        gameWidth: int, gameHeight: int)
    requires PickedFrom(source, start, added, picks, tries, gameWidth, gameHeight)
    ensures |added| == |picks|
    ensures forall j :: 0 <= j < |picks| ==>
      picks[j] < tries && added[j] == Candidate(source, start + 2 * picks[j], gameWidth, gameHeight)
    decreases |picks|
  {
    if picks != [] {
      var n := |picks| - 1;
      var earlier, earlierPicks := added[..n], picks[..n];
      PickedFromAt(source, start, earlier, earlierPicks, picks[n], gameWidth, gameHeight);
      forall j | 0 <= j < n
        ensures picks[j] < tries && added[j] == Candidate(source, start + 2 * picks[j], gameWidth, gameHeight)
      {
        assert picks[j] == earlierPicks[j] && added[j] == earlier[j];
      }
    }
  }

  /** The attempts that placed power-ups are numbered in increasing order. */
  lemma {:induction false} PickedFromIncreasing(source: nat -> nat, start: nat, added: seq<Point>, picks: seq<nat>,
                                                tries: nat, gameWidth: int, gameHeight: int)
    requires PickedFrom(source, start, added, picks, tries, gameWidth, gameHeight)
    ensures forall j, l :: 0 <= j < l < |picks| ==> picks[j] < picks[l]
    decreases |picks|
  {
    if picks != [] {
      var n := |picks| - 1;
      var earlierPicks := picks[..n];
      PickedFromIncreasing(source, start, added[..n], earlierPicks, picks[n], gameWidth, gameHeight);
      PickedFromAt(source, start, added[..n], earlierPicks, picks[n], gameWidth, gameHeight);
      forall j, l | 0 <= j < l < |picks|
        ensures picks[j] < picks[l]
      {
        assert picks[j] == earlierPicks[j];
        if l < n {
          assert picks[l] == earlierPicks[l];
        }
      }
    }
  }

  /** An attempt that places nothing leaves the picks as they are. */
  lemma PickedFromMiss(source: nat -> nat, start: nat, added: seq<Point>, picks: seq<nat>, tries: nat,
                       gameWidth: int, gameHeight: int)
    requires PickedFrom(source, start, added, picks, tries, gameWidth, gameHeight)
    ensures PickedFrom(source, start, added, picks, tries + 1, gameWidth, gameHeight)
  {}

  /** An attempt that places its candidate adds its number to the picks. */
  lemma PickedFromHit(source: nat -> nat, start: nat, added: seq<Point>, picks: seq<nat>, tries: nat,
                      gameWidth: int, gameHeight: int, k: nat, newPoint: Point)
    requires PickedFrom(source, start, added, picks, tries, gameWidth, gameHeight)
    requires k == start + 2 * tries && newPoint == Candidate(source, k, gameWidth, gameHeight)
    ensures PickedFrom(source, start, added + [newPoint], picks + [tries], tries + 1, gameWidth, gameHeight)
  {
    assert (added + [newPoint])[..|added|] == added;
    assert (picks + [tries])[..|picks|] == picks;
  }

  /** The centre `checkOverlap` uses for a candidate: its corner plus a quarter of the default size. */
  function CandidateCenter(p: Point): Point
  {
    Point(p.x + DEFAULT_SIZE / 4, p.y + DEFAULT_SIZE / 4)
  }

  /** The centre used for a placed power-up: its corner plus half of half its image's size,
      or of the default size when it has no image. */
  function PlacedCenter(e: Point, image: Option<Size>): Point
  {
    var w := if image.Some? then image.value.width / 2 else DEFAULT_SIZE;
    var h := if image.Some? then image.value.height / 2 else DEFAULT_SIZE;
    Point(e.x + w / 2, e.y + h / 2)
  }

  /** Candidate `p` lies too close to the placed power-up `e`. */
  predicate TooClose(p: Point, e: Point, images: map<Point, Size>)
  {
    SquaredDistance(CandidateCenter(p), PlacedCenter(e, ImageAt(images, e))) <
      OVERLAP_DISTANCE * OVERLAP_DISTANCE
  }

  /** Candidate `p` lies too close to one of the first `n` positions of `s`. */
  predicate CrowdsEarlier(p: Point, s: seq<Point>, n: int, images: map<Point, Size>)
    requires 0 <= n <= |s|
  {
    exists j :: 0 <= j < n && TooClose(p, s[j], images)
  }

  lemma CrowdsEarlierFrame(p: Point, s: seq<Point>, t: seq<Point>, n: int,
                           images: map<Point, Size>, images': map<Point, Size>)
    requires 0 <= n <= |s| && n <= |t| && s[..n] == t[..n]
    requires forall j :: 0 <= j < n ==> ImageAt(images, s[j]) == ImageAt(images', s[j])
    ensures CrowdsEarlier(p, s, n, images) <==> CrowdsEarlier(p, t, n, images')
  {
    assert forall j :: 0 <= j < n ==> s[j] == s[..n][j] == t[j];
  }

  /** Appending a power-up that crowds none of the live ones, and changing no image but its
      own, keeps every position from `start` on clear of the ones before it. */
  lemma CrowdingAppend(s: seq<Point>, newPoint: Point, start: int,
                       images: map<Point, Size>, loaded: Option<Size>)
    requires 0 <= start <= |s| && newPoint !in s
    requires forall i :: start <= i < |s| ==> !CrowdsEarlier(s[i], s, i, images)
    requires !CrowdsEarlier(newPoint, s, |s|, images)
    ensures var images' := if loaded.Some? then images[newPoint := loaded.value] else images;
      forall i :: start <= i <= |s| ==> !CrowdsEarlier((s + [newPoint])[i], s + [newPoint], i, images')
  {
    var images' := if loaded.Some? then images[newPoint := loaded.value] else images;
    assert forall p :: p != newPoint ==> ImageAt(images, p) == ImageAt(images', p);
    var t := s + [newPoint];
    forall i | start <= i <= |s|
      ensures !CrowdsEarlier(t[i], t, i, images')
    {
      assert forall j :: 0 <= j < i ==> t[j] != newPoint;
      if i < |s| {
        CrowdsEarlierFrame(t[i], s, t, i, images, images');
      } else {
        CrowdsEarlierFrame(newPoint, s, t, i, images, images');
      }
    }
  }

  /** Every position of `s` is a key of `m` exactly when it is one of `m0`, and maps to the
      same value there. */
  predicate Agrees<V(==)>(s: seq<Point>, m0: map<Point, V>, m: map<Point, V>)
  {
    forall q :: q in s ==> (q in m0 <==> q in m) && (q in m0 ==> m0[q] == m[q])
  }

  /** Agreement on `s` carries over a second change that agrees on a list holding `s`. */
  lemma AgreesThen<V>(s: seq<Point>, t: seq<Point>, m0: map<Point, V>, m1: map<Point, V>, m2: map<Point, V>)
    requires forall q :: q in s ==> q in t
    requires Agrees(s, m0, m1) && Agrees(t, m1, m2)
    ensures Agrees(s, m0, m2)
  {
  }

  /** The candidate of attempt `a` (from 0) of a `generatePowerups` run whose draws start at
      draw `start`. */
  function CandidateOf(source: nat -> nat, start: nat, a: nat, gameWidth: int, gameHeight: int): Point
    requires BandOpen(gameWidth, gameHeight)
  {
    Candidate(source, start + 2 * a, gameWidth, gameHeight)
  }

  /** Candidate `c` cannot be placed while the first `m` positions of `s` are live: it is
      one of them, lies too close to one of them, or overlaps an obstacle. */
  predicate Rejected(c: Point, s: seq<Point>, m: int, images: map<Point, Size>,
                     overlaps: (Point, seq<Point>) -> bool, obstaclePositions: seq<Point>)
    requires 0 <= m <= |s|
  {
    c in s[..m] || CrowdsEarlier(c, s, m, images) || overlaps(c, obstaclePositions)
  }

  /** Every attempt of a run of `tries` attempts whose draws start at `start` that is not
      numbered in `picks` drew a candidate that was rejected against the list as it stood
      then: the `first` positions of `s` live before the run and the ones the earlier picks
      appended. Stated on the last pick, as `PickedFrom` is. */
  predicate RejectedFrom(source: nat -> nat, start: nat, s: seq<Point>, first: nat, picks: seq<nat>, tries: nat,
                         images: map<Point, Size>, overlaps: (Point, seq<Point>) -> bool,
                         obstaclePositions: seq<Point>, gameWidth: int, gameHeight: int)
    requires BandOpen(gameWidth, gameHeight) && first + |picks| <= |s|
    decreases |picks|
  {
    var low := if picks == [] then 0 else picks[|picks| - 1] + 1;
    (forall a :: low <= a < tries ==>
      Rejected(CandidateOf(source, start, a, gameWidth, gameHeight), s, first + |picks|, images,
               overlaps, obstaclePositions)) &&
    (picks != [] ==>
      RejectedFrom(source, start, s, first, picks[..|picks| - 1], picks[|picks| - 1], images, overlaps,
                   obstaclePositions, gameWidth, gameHeight))
  }

  /** An attempt whose candidate is rejected against the current list extends the run. */
  lemma RejectedFromMiss(source: nat -> nat, start: nat, s: seq<Point>, first: nat, picks: seq<nat>, tries: nat,
                         images: map<Point, Size>, overlaps: (Point, seq<Point>) -> bool,
                         obstaclePositions: seq<Point>, gameWidth: int, gameHeight: int, k: nat, x: Point)
    requires BandOpen(gameWidth, gameHeight) && first + |picks| == |s|
    requires RejectedFrom(source, start, s, first, picks, tries, images, overlaps, obstaclePositions, gameWidth, gameHeight)
    requires k == start + 2 * tries && x == Candidate(source, k, gameWidth, gameHeight)
    requires x in s || CrowdsEarlier(x, s, |s|, images) || overlaps(x, obstaclePositions)
    ensures RejectedFrom(source, start, s, first, picks, tries + 1, images, overlaps, obstaclePositions,
                         gameWidth, gameHeight)
  {
    assert s[..|s|] == s;
  }

  /** Appending to the list and keeping the images of its positions keeps every rejection. */
  lemma {:induction false} RejectedFromFrame(source: nat -> nat, start: nat, s: seq<Point>, t: seq<Point>, first: nat,
                                             picks: seq<nat>, tries: nat, images: map<Point, Size>,
                                             images': map<Point, Size>, overlaps: (Point, seq<Point>) -> bool,
                                             obstaclePositions: seq<Point>, gameWidth: int, gameHeight: int)
    requires BandOpen(gameWidth, gameHeight) && first + |picks| <= |s| <= |t| && t[..|s|] == s
    requires Agrees(s, images, images')
    requires RejectedFrom(source, start, s, first, picks, tries, images, overlaps, obstaclePositions, gameWidth, gameHeight)
    ensures RejectedFrom(source, start, t, first, picks, tries, images', overlaps, obstaclePositions, gameWidth, gameHeight)
    decreases |picks|
  {
    var m := first + |picks|;
    var low := if picks == [] then 0 else picks[|picks| - 1] + 1;
    assert t[..m] == s[..m];
    forall a | low <= a < tries
      ensures Rejected(CandidateOf(source, start, a, gameWidth, gameHeight), t, m, images', overlaps, obstaclePositions)
    {
      var c := CandidateOf(source, start, a, gameWidth, gameHeight);
      assert forall j :: 0 <= j < m ==> s[j] in s;
      CrowdsEarlierFrame(c, s, t, m, images, images');
    }
    if picks != [] {
      RejectedFromFrame(source, start, s, t, first, picks[..|picks| - 1], picks[|picks| - 1], images, images',
                        overlaps, obstaclePositions, gameWidth, gameHeight);
    }
  }

  /** An attempt that appends its candidate `x` adds its number to the picks, as long as the
      positions already live keep their images. */
  lemma RejectedFromHit(source: nat -> nat, start: nat, s: seq<Point>, x: Point, first: nat, picks: seq<nat>,
                        tries: nat, images: map<Point, Size>, images': map<Point, Size>,
                        overlaps: (Point, seq<Point>) -> bool, obstaclePositions: seq<Point>,
                        gameWidth: int, gameHeight: int)
    requires BandOpen(gameWidth, gameHeight) && first + |picks| == |s|
    requires Agrees(s, images, images')
    requires RejectedFrom(source, start, s, first, picks, tries, images, overlaps, obstaclePositions, gameWidth, gameHeight)
    ensures RejectedFrom(source, start, s + [x], first, picks + [tries], tries + 1, images', overlaps, obstaclePositions,
                         gameWidth, gameHeight)
  {
    RejectedFromFrame(source, start, s, s + [x], first, picks, tries, images, images', overlaps, obstaclePositions,
                      gameWidth, gameHeight);
    assert (picks + [tries])[..|picks|] == picks;
  }

  /** The record after one more attempt, which placed its candidate `x` or not. */
  function Advance(r: RunRecord, placed: bool, x: Point): RunRecord
  {
    if placed then r.(added := r.added + [x], picks := r.picks + [r.tries], tries := r.tries + 1)
    else r.(tries := r.tries + 1)
  }

  /** The run `r` led to the list `s` with `images` and `types`, and to draw `drawn` of
      `source`: `s` is `before` plus the `added` candidates of attempts `picks`, every other
      attempt was rejected, and the positions of `before` keep the images and types they had
      in `images0` and `types0`. */
  predicate Run(r: RunRecord, s: seq<Point>, images: map<Point, Size>, types: map<Point, string>,
                source: nat -> nat, drawn: nat, overlaps: (Point, seq<Point>) -> bool,
                obstaclePositions: seq<Point>, gameWidth: int, gameHeight: int)
  {
    match r
    case RunRecord(before, images0, types0, drawn0, added, picks, tries) =>
      BandOpen(gameWidth, gameHeight) &&
      s == before + added && |added| == |picks| && drawn == drawn0 + 2 * tries &&
      PickedFrom(source, drawn0, added, picks, tries, gameWidth, gameHeight) &&
      RejectedFrom(source, drawn0, s, |before|, picks, tries, images, overlaps, obstaclePositions,
                   gameWidth, gameHeight) &&
      Agrees(before, images0, images) && Agrees(before, types0, types)
  }

  /** One attempt of `generatePowerups` extends the run: it drew `x` from the next two draws,
      placed it exactly when it was new, clear of the live power-ups and of the obstacles,
      and changed no image or type of a live position. */
  lemma RunAttempt(r: RunRecord, s: seq<Point>, images: map<Point, Size>, types: map<Point, string>,
                   source: nat -> nat, drawn: nat, overlaps: (Point, seq<Point>) -> bool,
                   obstaclePositions: seq<Point>, gameWidth: int, gameHeight: int,
                   placed: bool, x: Point, s': seq<Point>, images': map<Point, Size>, types': map<Point, string>)
    requires Run(r, s, images, types, source, drawn, overlaps, obstaclePositions, gameWidth, gameHeight)
    requires x == Candidate(source, drawn, gameWidth, gameHeight)
    requires placed <==> x !in s && !CrowdsEarlier(x, s, |s|, images) && !overlaps(x, obstaclePositions)
    requires placed ==> s' == s + [x] && Agrees(s, images, images') && Agrees(s, types, types')
    requires !placed ==> s' == s && images' == images && types' == types
    ensures Run(Advance(r, placed, x), s', images', types', source, drawn + 2, overlaps, obstaclePositions,
                gameWidth, gameHeight)
  {
    var RunRecord(before, images0, types0, drawn0, added, picks, tries) := r;
    assert forall q :: q in before ==> q in s;
    if placed {
      ExtendsAppend(s, before, added, x);
      PickedFromHit(source, drawn0, added, picks, tries, gameWidth, gameHeight, drawn, x);
      RejectedFromHit(source, drawn0, s, x, |before|, picks, tries, images, images', overlaps, obstaclePositions,
                      gameWidth, gameHeight);
      AgreesThen(before, s, images0, images, images');
      AgreesThen(before, s, types0, types, types');
    } else {
      PickedFromMiss(source, drawn0, added, picks, tries, gameWidth, gameHeight);
      RejectedFromMiss(source, drawn0, s, |before|, picks, tries, images, overlaps, obstaclePositions,
                       gameWidth, gameHeight, drawn, x);
    }
  }

  /** What a run's record says about the list it led to, stated on the list itself. */
  lemma RunEnd(r: RunRecord, s: seq<Point>, images: map<Point, Size>, types: map<Point, string>,
               source: nat -> nat, drawn: nat, overlaps: (Point, seq<Point>) -> bool,
               obstaclePositions: seq<Point>, gameWidth: int, gameHeight: int)
    requires Run(r, s, images, types, source, drawn, overlaps, obstaclePositions, gameWidth, gameHeight)
    ensures BandOpen(gameWidth, gameHeight)
    ensures |r.before| <= |s| && s[..|r.before|] == r.before && s[|r.before|..] == r.added
    ensures |r.added| == |r.picks| && drawn == r.drawn0 + 2 * r.tries
    ensures PickedFrom(source, r.drawn0, s[|r.before|..], r.picks, r.tries, gameWidth, gameHeight)
    ensures RejectedFrom(source, r.drawn0, s, |r.before|, r.picks, r.tries, images, overlaps, obstaclePositions,
                         gameWidth, gameHeight)
    ensures Agrees(r.before, r.images0, images) && Agrees(r.before, r.types0, types)
  {
    assert s[..|r.before|] == r.before && s[|r.before|..] == r.added;
  }

  /** A list that extends `prefix` by `added` extends it by `added + [x]` once `x` is
      appended. */
  lemma ExtendsAppend(s: seq<Point>, prefix: seq<Point>, added: seq<Point>, x: Point)
    requires s == prefix + added
    ensures s + [x] == prefix + (added + [x])
  {
  }

  /** The positions of a prefix of `t` are positions of `t`. */
  lemma PrefixMembers(s: seq<Point>, t: seq<Point>)
    requires |s| <= |t| && t[..|s|] == s
    ensures forall q :: q in s ==> q in t
  {
    forall q | q in s
      ensures q in t
    {
      var i :| 0 <= i < |s| && s[i] == q;
      assert t[i] == t[..|s|][i];
    }
  }

  /** A list that extends `before` keeps every prefix of `before`. */
  lemma PrefixKept(before: seq<Point>, after: seq<Point>, first: int)
    requires 0 <= first <= |before| <= |after| && after[..|before|] == before
    ensures after[..first] == before[..first]
  {
    assert after[..first] == after[..|before|][..first];
  }

  /** Midway through `update`'s pass over the used entries `used0` at time `now`: the
      entries still `pending` are all kept, a visited entry is kept only if it is younger
      than REGENERATION_DELAY, and kept entries keep their times. */
  ghost predicate Expiring(used0: map<Point, int>, used: map<Point, int>, pending: set<Point>, now: int)
  {
    pending <= used0.Keys &&
    (forall p :: p in used <==> p in used0 && (p in pending || now - used0[p] < REGENERATION_DELAY)) &&
    (forall p :: p in used ==> used[p] == used0[p])
  }

  /** Visiting one pending entry `p` either drops it, which counts one more dropped entry,
      or keeps it. */
  lemma ExpiringStep(used0: map<Point, int>, used: map<Point, int>, pending: set<Point>, now: int, p: Point)
    requires Expiring(used0, used, pending, now) && p in pending
    ensures p in used && used[p] == used0[p]
    ensures now - used[p] >= REGENERATION_DELAY ==>
      Expiring(used0, used - {p}, pending - {p}, now) &&
      |used0.Keys - (used - {p}).Keys| == |used0.Keys - used.Keys| + 1
    ensures now - used[p] < REGENERATION_DELAY ==> Expiring(used0, used, pending - {p}, now)
  {
    assert used0.Keys - (used - {p}).Keys == (used0.Keys - used.Keys) + {p};
  }

  predicate Distinct(s: seq<Point>)
  {
    forall i, j :: 0 <= i < j < |s| ==> s[i] != s[j]
  }

  /** `ArrayList.remove(Object)`: drop the first occurrence of `p`, if any. */
  function RemoveFirst(s: seq<Point>, p: Point): (r: seq<Point>)
    ensures multiset(r) == multiset(s) - multiset{p}
    ensures p !in s ==> r == s
  {
    if s == [] then []
    else if s[0] == p then
      assert s == [s[0]] + s[1..];
      s[1..]
    else
      assert s == [s[0]] + s[1..];
      [s[0]] + RemoveFirst(s[1..], p)
  }

  lemma DistinctTail(s: seq<Point>)
    requires Distinct(s) && s != []
    ensures Distinct(s[1..]) && s[0] !in s[1..]
  {
    forall j | 0 <= j < |s| - 1
      ensures s[1..][j] != s[0]
    {
      assert s[1..][j] == s[j + 1];
    }
  }

  lemma DistinctAppend(s: seq<Point>, x: Point)
    requires Distinct(s) && x !in s
    ensures Distinct(s + [x])
  {
  }

  lemma ConsDistinct(x: Point, t: seq<Point>)
    requires Distinct(t) && x !in t
    ensures Distinct([x] + t)
  {
  }

  /** Removing from a list without repeats leaves a list without repeats, and without `p`. */
  lemma {:induction false} RemoveFirstDistinct(s: seq<Point>, p: Point)
    requires Distinct(s)
    ensures Distinct(RemoveFirst(s, p)) && p !in RemoveFirst(s, p)
  {
    if s != [] {
      DistinctTail(s);
      if s[0] != p {
        var rest := RemoveFirst(s[1..], p);
        RemoveFirstDistinct(s[1..], p);
        assert s[0] !in rest by {
          assert multiset(rest)[s[0]] <= multiset(s[1..])[s[0]];
        }
        ConsDistinct(s[0], rest);
      }
    }
  }

  /** Removing `p` keeps exactly the other members. */
  lemma RemoveFirstMembers(s: seq<Point>, p: Point)
    ensures forall q :: q in RemoveFirst(s, p) <==> q in s && (q != p || multiset(s)[p] > 1)
  {
    var r := RemoveFirst(s, p);
    forall q ensures q in r <==> q in s && (q != p || multiset(s)[p] > 1) {
      assert q in r <==> multiset(r)[q] > 0;
      assert q in s <==> multiset(s)[q] > 0;
    }
  }

  /** Removing a present element shortens the list by one. */
  lemma {:induction false} RemoveFirstLength(s: seq<Point>, p: Point)
    requires p in s
    ensures |RemoveFirst(s, p)| == |s| - 1
  {
    if s[0] != p {
      assert p in s[1..] by {
        var j :| 0 <= j < |s| && s[j] == p;
        assert s[1..][j - 1] == p;
      }
      RemoveFirstLength(s[1..], p);
    }
  }

  /** `String.replace(".png", "")`: every ".png", scanning left to right, is removed; a
      string without a dot is left as it is. */
  function WithoutPng(s: string): (r: string)
    ensures |r| <= |s|
    ensures '.' !in s ==> r == s
    decreases |s|
  {
    if |s| < 4 then s
    else if s[..4] == ".png" then assert s[0] == s[..4][0]; WithoutPng(s[4..])
    else [s[0]] + WithoutPng(s[1..])
  }

  /** A name without a dot loses exactly its ".png" extension. */
  lemma {:induction false} WithoutPngStripsExtension(name: string)
    requires '.' !in name
    ensures WithoutPng(name + ".png") == name
    decreases |name|
  {
    var s := name + ".png";
    if name == [] {
      assert s[..4] == ".png";
      assert s[4..] == [];
    } else {
      assert s[0] == name[0] != '.';
      assert s[..4] != ".png";
      assert s[1..] == name[1..] + ".png";
      assert '.' !in name[1..] by {
        forall c | c in name[1..] ensures c != '.' {
          assert c in name;
        }
      }
      WithoutPngStripsExtension(name[1..]);
      assert [name[0]] + name[1..] == name;
    }
  }

  /** The tag `activatePowerup` returns for a power-up type is the type's name without its
      ".png" extension: "Bomb", "Freeze" or "BigBullet". */
  lemma {:induction false} TypeTags(t: string)
    requires t in Maps.POWERUP_TYPES
    ensures WithoutPng(t) + ".png" == t
    ensures WithoutPng(t) in ["Bomb", "Freeze", "BigBullet"]
  {
    if t == "Bomb.png" {
      assert t == "Bomb" + ".png";
      WithoutPngStripsExtension("Bomb");
    } else if t == "Freeze.png" {
      assert t == "Freeze" + ".png";
      WithoutPngStripsExtension("Freeze");
    } else {
      assert t == "BigBullet" + ".png";
      WithoutPngStripsExtension("BigBullet");
    }
  }

  /** A `generatePowerups` run so far: the list before it, the images and types then, the
      first draw, the positions added, the attempts that added them and the attempts made. */
  datatype RunRecord = RunRecord(before: seq<Point>, images0: map<Point, Size>, types0: map<Point, string>,
                                 drawn0: nat, added: seq<Point>, picks: seq<nat>, tries: nat)
}

/** Power-up placement and bookkeeping (duel/Powerup.java): a list of live positions, the
    image and type loaded for each, the times at which used ones were taken, and regeneration. */
module Powerups {
  import opened Geometry
  import opened Optional
  import JavaInt
  import JavaRandom
  import Maps
  import opened PowerupPlacement

  /** What `activatePowerup` can do: refuse during the spawn grace window (Java returns null),
      return the type's tag, or find no type for the position (Java's NullPointerException). */
  datatype Activation = Invincible | Activated(tag: string) | MissingType

  class Powerup {
    const GAME_WIDTH: int
    const GAME_HEIGHT: int
    var powerupImages: map<Point, Size>
    var powerupTypes: map<Point, string>
    var powerupPositions: seq<Point>
    var usedPowerups: map<Point, int>
    var spawnTimes: map<Point, int>
    var circleRadius: int
    const random: JavaRandom.Random
    const mapManager: Maps.MapManager
    /** Reading the image file for a type: its size, or None when ImageIO fails. */
    const loadImage: string -> Option<Size>
    /** The power-up-vs-obstacle branch of `checkOverlap`, which depends on an obstacle
        image accessor that is not part of this model. */
    const obstacleOverlap: (Point, seq<Point>) -> bool

    /** Exactly the positions with a loaded image have a recorded type. */
    predicate KeysAgree(types: map<Point, string>, images: map<Point, Size>)
    {
      types.Keys == images.Keys
    }

    /** Live positions are distinct, at most TARGET_POWERUPS and inside the band; an image is
        held only for a live position and matches that position's recorded type. */
    predicate Valid()
      reads this
    {
      random != mapManager.random && BandOpen(GAME_WIDTH, GAME_HEIGHT) &&
      Distinct(powerupPositions) && |powerupPositions| <= TARGET_POWERUPS &&
      (forall p :: p in powerupPositions ==> InBand(p, GAME_WIDTH, GAME_HEIGHT)) &&
      (forall p :: p in powerupImages ==>
        p in powerupPositions && p in powerupTypes && loadImage(powerupTypes[p]) == Some(powerupImages[p])) &&
      (forall p :: p in powerupTypes ==> powerupTypes[p] in Maps.POWERUP_TYPES)
    }

    constructor (gameWidth: int, gameHeight: int, mapManager: Maps.MapManager, source: nat -> nat,
                 loadImage: string -> Option<Size>, obstacleOverlap: (Point, seq<Point>) -> bool)
      requires BandOpen(gameWidth, gameHeight)
      ensures Valid() && fresh(random) && random.source == source && random.drawn == 0
      ensures GAME_WIDTH == gameWidth && GAME_HEIGHT == gameHeight && this.mapManager == mapManager
      ensures this.loadImage == loadImage && this.obstacleOverlap == obstacleOverlap
      ensures powerupPositions == [] && powerupImages == map[] && powerupTypes == map[]
      ensures usedPowerups == map[] && spawnTimes == map[]
    {
      GAME_WIDTH := gameWidth;
      GAME_HEIGHT := gameHeight;
      this.mapManager := mapManager;
      this.loadImage := loadImage;
      this.obstacleOverlap := obstacleOverlap;
      random := new JavaRandom.Random(source);
      powerupPositions := [];
      powerupImages := map[];
      powerupTypes := map[];
      usedPowerups := map[];
      spawnTimes := map[];
      circleRadius := 0;
    }

    /** Every live position from index `start` on kept its distance from the positions before
        it and from the obstacles. */
    predicate SpacedFrom(start: int, obstaclePositions: seq<Point>)
      requires 0 <= start
      reads this
    {
      forall i :: start <= i < |powerupPositions| ==>
        !CrowdsEarlier(powerupPositions[i], powerupPositions, i, powerupImages) &&
        !obstacleOverlap(powerupPositions[i], obstaclePositions)
    }

    method GetPowerupPositions() returns (r: seq<Point>)
      ensures r == powerupPositions
    {
      r := powerupPositions;
    }

    /** `loadPowerupImage(position)`: draw a type from the map manager and, if its image
        loads, record image and type for the position and size the collision circle to
        (int)(min(width, height) * 0.45). */
    method LoadPowerupImage(position: Point) returns (ghost kind: string)
      requires Valid() && position in powerupPositions
      modifies this, mapManager.random
      ensures Valid()
      ensures kind == TypeDrawn(mapManager.random.source, old(mapManager.random.drawn))
      ensures mapManager.random.drawn == old(mapManager.random.drawn) + 1
      ensures powerupPositions == old(powerupPositions)
      ensures usedPowerups == old(usedPowerups) && spawnTimes == old(spawnTimes)
      ensures loadImage(kind).Some? ==>
        var image := loadImage(kind).value;
        powerupImages == old(powerupImages)[position := image] &&
        powerupTypes == old(powerupTypes)[position := kind] &&
        circleRadius == (if image.width < image.height then image.width else image.height) * 45 / 100
      ensures loadImage(kind).None? ==>
        powerupImages == old(powerupImages) && powerupTypes == old(powerupTypes) &&
        circleRadius == old(circleRadius)
    {
      var powerupType := mapManager.GetRandomPowerupType();
      kind := powerupType;
      var image := loadImage(powerupType);
      if image.Some? {
        powerupImages := powerupImages[position := image.value];
        powerupTypes := powerupTypes[position := powerupType];
        var side := if image.value.width < image.value.height then image.value.width else image.value.height;
        circleRadius := side * 45 / 100;
      }
    }

    /** `checkOverlap(newPoint, obstaclePositions)`: the candidate is too close to a live
        power-up or, through the obstacle branch, to an obstacle. */
    method CheckOverlap(newPoint: Point, obstaclePositions: seq<Point>) returns (overlap: bool)
      ensures overlap <==>
        CrowdsEarlier(newPoint, powerupPositions, |powerupPositions|, powerupImages) ||
        obstacleOverlap(newPoint, obstaclePositions)
    {
      var newCenter := CandidateCenter(newPoint);
      var i := 0;
      while i < |powerupPositions|
        invariant 0 <= i <= |powerupPositions|
        invariant !CrowdsEarlier(newPoint, powerupPositions, i, powerupImages)
      {
        var existing := powerupPositions[i];
        var existingCenter := PlacedCenter(existing, ImageAt(powerupImages, existing));
        if SquaredDistance(newCenter, existingCenter) < OVERLAP_DISTANCE * OVERLAP_DISTANCE {
          assert TooClose(newPoint, powerupPositions[i], powerupImages);
          return true;
        }
        i := i + 1;
      }
      overlap := obstacleOverlap(newPoint, obstaclePositions);
    }

    /** `generatePowerups(count, obstaclePositions)`: at most MAX_ATTEMPTS candidates are
        drawn, stopping after `count` placements; a candidate is placed when it is not yet a
        live position and `checkOverlap` finds no overlap. `tries` counts the attempts and
        `picks` numbers the ones that placed their candidate; every other attempt drew a
        candidate that was rejected against the list as it stood, and the run stops after the
        attempt that makes the `count`-th placement. Each placement draws one type from the map
        manager. The positions live before keep their images and types, and the spacing of the
        live positions from index `start` on is kept and extended to the new ones. */
    method GeneratePowerups(count: int, obstaclePositions: seq<Point>, ghost start: int)
      returns (ghost tries: nat, ghost picks: seq<nat>)
      requires Valid()
      requires 0 <= count <= TARGET_POWERUPS - |powerupPositions|
      requires 0 <= start <= |powerupPositions| && SpacedFrom(start, obstaclePositions)
      modifies this, random, mapManager.random
      ensures Valid() && SpacedFrom(start, obstaclePositions)
      ensures usedPowerups == old(usedPowerups) && spawnTimes == old(spawnTimes)
      ensures |old(powerupPositions)| <= |powerupPositions| <= |old(powerupPositions)| + count
      ensures powerupPositions[..|old(powerupPositions)|] == old(powerupPositions)
      ensures |powerupPositions| - |old(powerupPositions)| <= tries <= MAX_ATTEMPTS
      ensures |powerupPositions| < |old(powerupPositions)| + count ==> tries == MAX_ATTEMPTS
      ensures random.drawn == old(random.drawn) + 2 * tries
      ensures PickedFrom(random.source, old(random.drawn), powerupPositions[|old(powerupPositions)|..], picks, tries,
                         GAME_WIDTH, GAME_HEIGHT)
      ensures RejectedFrom(random.source, old(random.drawn), powerupPositions, |old(powerupPositions)|, picks, tries,
                           powerupImages, obstacleOverlap, obstaclePositions, GAME_WIDTH, GAME_HEIGHT)
      ensures count == 0 ==> tries == 0
      ensures count > 0 && |picks| == count ==> tries == picks[count - 1] + 1
      ensures mapManager.random.drawn == old(mapManager.random.drawn) + |picks|
      ensures Agrees(old(powerupPositions), old(powerupImages), powerupImages)
      ensures Agrees(old(powerupPositions), old(powerupTypes), powerupTypes)
      ensures old(KeysAgree(powerupTypes, powerupImages)) ==> KeysAgree(powerupTypes, powerupImages)
    {
      var successfulPlacements := 0;
      var totalAttempts: nat := 0;
      ghost var typeDrawn0 := mapManager.random.drawn;
      ghost var run := RunRecord(powerupPositions, powerupImages, powerupTypes, random.drawn, [], [], 0);
      while successfulPlacements < count && totalAttempts < MAX_ATTEMPTS
        invariant Valid()
        invariant usedPowerups == old(usedPowerups) && spawnTimes == old(spawnTimes)
        invariant 0 <= successfulPlacements <= count && 0 <= totalAttempts <= MAX_ATTEMPTS
        invariant successfulPlacements <= totalAttempts
        invariant run.before == old(powerupPositions) && run.images0 == old(powerupImages)
        invariant run.types0 == old(powerupTypes) && run.drawn0 == old(random.drawn)
        invariant run.tries == totalAttempts && |run.picks| == successfulPlacements
        invariant Run(run, powerupPositions, powerupImages, powerupTypes, random.source, random.drawn,
                      obstacleOverlap, obstaclePositions, GAME_WIDTH, GAME_HEIGHT)
        invariant successfulPlacements == count ==>
          totalAttempts == (if count == 0 then 0 else run.picks[count - 1] + 1)
        invariant mapManager.random.drawn == typeDrawn0 + successfulPlacements
        invariant start <= |powerupPositions| && SpacedFrom(start, obstaclePositions)
        invariant old(KeysAgree(powerupTypes, powerupImages)) ==> KeysAgree(powerupTypes, powerupImages)
      {
        var placed, newPoint := Step(obstaclePositions, start, run);
        run := Advance(run, placed, newPoint);
        if placed {
          successfulPlacements := successfulPlacements + 1;
        }
        totalAttempts := totalAttempts + 1;
      }
      RunEnd(run, powerupPositions, powerupImages, powerupTypes, random.source, random.drawn, obstacleOverlap,
             obstaclePositions, GAME_WIDTH, GAME_HEIGHT);
      tries, picks := totalAttempts, run.picks;
    }

    /** One pass of `generatePowerups`' loop, which extends the record `run` by its attempt. */
    method Step(obstaclePositions: seq<Point>, ghost start: int, ghost run: RunRecord)
      returns (placed: bool, newPoint: Point)
      requires Valid() && |powerupPositions| < TARGET_POWERUPS
      requires 0 <= start <= |powerupPositions| && SpacedFrom(start, obstaclePositions)
      requires Run(run, powerupPositions, powerupImages, powerupTypes, random.source, random.drawn,
                   obstacleOverlap, obstaclePositions, GAME_WIDTH, GAME_HEIGHT)
      modifies this, random, mapManager.random
      ensures Valid() && SpacedFrom(start, obstaclePositions)
      ensures usedPowerups == old(usedPowerups) && spawnTimes == old(spawnTimes)
      ensures Run(Advance(run, placed, newPoint), powerupPositions, powerupImages, powerupTypes, random.source,
                  random.drawn, obstacleOverlap, obstaclePositions, GAME_WIDTH, GAME_HEIGHT)
      ensures mapManager.random.drawn == old(mapManager.random.drawn) + (if placed then 1 else 0)
      ensures old(KeysAgree(powerupTypes, powerupImages)) ==> KeysAgree(powerupTypes, powerupImages)
    {
      ghost var drawn, before := random.drawn, powerupPositions;
      ghost var imagesBefore, typesBefore := powerupImages, powerupTypes;
      placed, newPoint := Attempt(obstaclePositions, start);
      RunAttempt(run, before, imagesBefore, typesBefore, random.source, drawn, obstacleOverlap, obstaclePositions,
                 GAME_WIDTH, GAME_HEIGHT, placed, newPoint, powerupPositions, powerupImages, powerupTypes);
    }

    /** One attempt of `generatePowerups`: draw a candidate in the band from the next two
        draws and place it when it is not yet live and `checkOverlap` finds no overlap. */
    method Attempt(obstaclePositions: seq<Point>, ghost start: int) returns (placed: bool, newPoint: Point)
      requires Valid() && |powerupPositions| < TARGET_POWERUPS
      requires 0 <= start <= |powerupPositions| && SpacedFrom(start, obstaclePositions)
      modifies this, random, mapManager.random
      ensures Valid() && SpacedFrom(start, obstaclePositions)
      ensures usedPowerups == old(usedPowerups) && spawnTimes == old(spawnTimes)
      ensures random.drawn == old(random.drawn) + 2
      ensures newPoint == Candidate(random.source, old(random.drawn), GAME_WIDTH, GAME_HEIGHT)
      ensures placed <==>
        newPoint !in old(powerupPositions) &&
        !CrowdsEarlier(newPoint, old(powerupPositions), |old(powerupPositions)|, old(powerupImages)) &&
        !obstacleOverlap(newPoint, obstaclePositions)
      ensures !placed ==>
        powerupPositions == old(powerupPositions) && powerupImages == old(powerupImages) &&
        powerupTypes == old(powerupTypes) && mapManager.random.drawn == old(mapManager.random.drawn)
      ensures placed ==>
        powerupPositions == old(powerupPositions) + [newPoint] &&
        mapManager.random.drawn == old(mapManager.random.drawn) + 1
      ensures placed ==>
        var kind := TypeDrawn(mapManager.random.source, old(mapManager.random.drawn));
        (loadImage(kind).Some? ==>
          powerupImages == old(powerupImages)[newPoint := loadImage(kind).value] &&
          powerupTypes == old(powerupTypes)[newPoint := kind]) &&
        (loadImage(kind).None? ==> powerupImages == old(powerupImages) && powerupTypes == old(powerupTypes))
      ensures Agrees(old(powerupPositions), old(powerupImages), powerupImages)
      ensures Agrees(old(powerupPositions), old(powerupTypes), powerupTypes)
      ensures old(KeysAgree(powerupTypes, powerupImages)) ==> KeysAgree(powerupTypes, powerupImages)
    {
      var dx := random.NextInt(MiddleWidth(GAME_WIDTH) - DEFAULT_SIZE);
      var dy := random.NextInt(UsableHeight(GAME_HEIGHT) - DEFAULT_SIZE);
      newPoint := Point(MiddleStart(GAME_WIDTH) + dx, TopMargin(GAME_HEIGHT) + dy);
      var overlap := CheckOverlap(newPoint, obstaclePositions);
      placed := !overlap && newPoint !in powerupPositions;
      if placed {
        var _ := Place(newPoint, obstaclePositions, start);
      }
    }

    /** The body of a successful attempt: append the position and load its image, drawing
        its type from the map manager. */
    method Place(newPoint: Point, obstaclePositions: seq<Point>, ghost start: int) returns (ghost kind: string)
      requires Valid() && |powerupPositions| < TARGET_POWERUPS
      requires newPoint !in powerupPositions && InBand(newPoint, GAME_WIDTH, GAME_HEIGHT)
      requires !CrowdsEarlier(newPoint, powerupPositions, |powerupPositions|, powerupImages)
      requires !obstacleOverlap(newPoint, obstaclePositions)
      requires 0 <= start <= |powerupPositions| && SpacedFrom(start, obstaclePositions)
      modifies this, mapManager.random
      ensures Valid() && SpacedFrom(start, obstaclePositions)
      ensures powerupPositions == old(powerupPositions) + [newPoint]
      ensures usedPowerups == old(usedPowerups) && spawnTimes == old(spawnTimes)
      ensures kind == TypeDrawn(mapManager.random.source, old(mapManager.random.drawn))
      ensures mapManager.random.drawn == old(mapManager.random.drawn) + 1
      ensures loadImage(kind).Some? ==>
        var image := loadImage(kind).value;
        powerupImages == old(powerupImages)[newPoint := image] &&
        powerupTypes == old(powerupTypes)[newPoint := kind] &&
        circleRadius == (if image.width < image.height then image.width else image.height) * 45 / 100
      ensures loadImage(kind).None? ==>
        powerupImages == old(powerupImages) && powerupTypes == old(powerupTypes) &&
        circleRadius == old(circleRadius)
      ensures old(KeysAgree(powerupTypes, powerupImages)) ==> KeysAgree(powerupTypes, powerupImages)
    {
      ghost var before := powerupPositions;
      ghost var imagesBefore := powerupImages;
      DistinctAppend(powerupPositions, newPoint);
      powerupPositions := powerupPositions + [newPoint];
      kind := LoadPowerupImage(newPoint);
      CrowdingAppend(before, newPoint, start, imagesBefore, loadImage(kind));
    }

    /** `generatePowerupPositions(obstaclePositions)`: clear the live positions, images, types
        and used entries, then place up to TARGET_POWERUPS afresh: the live positions are the
        candidates of attempts `picks` of this call's draws, every other attempt drew a
        candidate rejected against the positions placed before it, the run stops at the third
        placement, and each placement drew one type from the map manager. */
    method GeneratePowerupPositions(obstaclePositions: seq<Point>) returns (ghost tries: nat, ghost picks: seq<nat>)
      requires Valid()
      modifies this, random, mapManager.random
      ensures Valid() && SpacedFrom(0, obstaclePositions)
      ensures usedPowerups == map[] && spawnTimes == old(spawnTimes)
      ensures KeysAgree(powerupTypes, powerupImages)
      ensures |powerupPositions| <= tries <= MAX_ATTEMPTS
      ensures |powerupPositions| < TARGET_POWERUPS ==> tries == MAX_ATTEMPTS
      ensures random.drawn == old(random.drawn) + 2 * tries
      ensures PickedFrom(random.source, old(random.drawn), powerupPositions, picks, tries, GAME_WIDTH, GAME_HEIGHT)
      ensures RejectedFrom(random.source, old(random.drawn), powerupPositions, 0, picks, tries, powerupImages,
                           obstacleOverlap, obstaclePositions, GAME_WIDTH, GAME_HEIGHT)
      ensures |picks| == TARGET_POWERUPS ==> tries == picks[TARGET_POWERUPS - 1] + 1
      ensures mapManager.random.drawn == old(mapManager.random.drawn) + |picks|
    {
      powerupPositions := [];
      powerupImages := map[];
      powerupTypes := map[];
      usedPowerups := map[];
      tries, picks := GeneratePowerups(TARGET_POWERUPS, obstaclePositions, 0);
      assert powerupPositions[0..] == powerupPositions;
    }

    /** `regeneratePowerups(obstaclePositions)`: the same as `generatePowerupPositions`, after
        clearing positions, images and types once more. */
    method RegeneratePowerups(obstaclePositions: seq<Point>) returns (ghost tries: nat, ghost picks: seq<nat>)
      requires Valid()
      modifies this, random, mapManager.random
      ensures Valid() && SpacedFrom(0, obstaclePositions)
      ensures usedPowerups == map[] && spawnTimes == old(spawnTimes)
      ensures KeysAgree(powerupTypes, powerupImages)
      ensures |powerupPositions| <= tries <= MAX_ATTEMPTS
      ensures |powerupPositions| < TARGET_POWERUPS ==> tries == MAX_ATTEMPTS
      ensures random.drawn == old(random.drawn) + 2 * tries
      ensures PickedFrom(random.source, old(random.drawn), powerupPositions, picks, tries, GAME_WIDTH, GAME_HEIGHT)
      ensures RejectedFrom(random.source, old(random.drawn), powerupPositions, 0, picks, tries, powerupImages,
                           obstacleOverlap, obstaclePositions, GAME_WIDTH, GAME_HEIGHT)
      ensures |picks| == TARGET_POWERUPS ==> tries == picks[TARGET_POWERUPS - 1] + 1
      ensures mapManager.random.drawn == old(mapManager.random.drawn) + |picks|
    {
      powerupPositions := [];
      powerupImages := map[];
      powerupTypes := map[];
      tries, picks := GeneratePowerupPositions(obstaclePositions);
    }

    /** `update(obstaclePositions)` at time `now`: every used entry at least
        REGENERATION_DELAY old is dropped, and each drop tries one placement while fewer than
        TARGET_POWERUPS are live. Entries are visited in some order the map chooses. A try
        that places nothing has made all MAX_ATTEMPTS attempts, so unless the list is full
        at the end, every drop that did not add a power-up cost 2 * MAX_ATTEMPTS = 40 draws. */
    method Update(obstaclePositions: seq<Point>, now: int)
      requires Valid()
      modifies this, random, mapManager.random
      ensures Valid()
      ensures forall p :: p in usedPowerups <==>
        p in old(usedPowerups) && now - old(usedPowerups)[p] < REGENERATION_DELAY
      ensures forall p :: p in usedPowerups ==> usedPowerups[p] == old(usedPowerups)[p]
      ensures spawnTimes == old(spawnTimes)
      ensures |old(powerupPositions)| <= |powerupPositions|
      ensures powerupPositions[..|old(powerupPositions)|] == old(powerupPositions)
      ensures |powerupPositions| - |old(powerupPositions)| <= |old(usedPowerups).Keys - usedPowerups.Keys|
      ensures SpacedFrom(|old(powerupPositions)|, obstaclePositions)
      ensures random.drawn >= old(random.drawn) + 2 * (|powerupPositions| - |old(powerupPositions)|)
      ensures |powerupPositions| < TARGET_POWERUPS ==>
        random.drawn >= old(random.drawn) + 2 * (|powerupPositions| - |old(powerupPositions)|) +
          40 * (|old(usedPowerups).Keys - usedPowerups.Keys| - (|powerupPositions| - |old(powerupPositions)|))
      ensures Agrees(old(powerupPositions), old(powerupImages), powerupImages)
      ensures Agrees(old(powerupPositions), old(powerupTypes), powerupTypes)
      ensures mapManager.random.drawn == old(mapManager.random.drawn) + (|powerupPositions| - |old(powerupPositions)|)
      ensures usedPowerups == old(usedPowerups) ==>
        powerupPositions == old(powerupPositions) && random.drawn == old(random.drawn) &&
        powerupImages == old(powerupImages) && powerupTypes == old(powerupTypes) &&
        circleRadius == old(circleRadius) && mapManager.random.drawn == old(mapManager.random.drawn)
    {
      ghost var used0 := usedPowerups;
      ghost var first := |powerupPositions|;
      ghost var drawn0, typeDrawn0 := random.drawn, mapManager.random.drawn;
      ghost var images0, types0, radius0 := powerupImages, powerupTypes, circleRadius;
      ghost var removed := 0;
      var pending := usedPowerups.Keys;
      while pending != {}
        invariant Valid() && spawnTimes == old(spawnTimes)
        invariant Expiring(used0, usedPowerups, pending, now)
        invariant first <= |powerupPositions| && powerupPositions[..first] == old(powerupPositions)
        invariant removed == |used0.Keys - usedPowerups.Keys|
        invariant |powerupPositions| - first <= removed
        invariant SpacedFrom(first, obstaclePositions)
        invariant random.drawn >= drawn0 + 2 * (|powerupPositions| - first)
        invariant |powerupPositions| < TARGET_POWERUPS ==>
          random.drawn >= drawn0 + 2 * (|powerupPositions| - first) + 40 * (removed - (|powerupPositions| - first))
        invariant Agrees(old(powerupPositions), images0, powerupImages)
        invariant Agrees(old(powerupPositions), types0, powerupTypes)
        invariant mapManager.random.drawn == typeDrawn0 + (|powerupPositions| - first)
        invariant usedPowerups == used0 ==>
          |powerupPositions| == first && random.drawn == drawn0 && powerupImages == images0 &&
          powerupTypes == types0 && circleRadius == radius0 && mapManager.random.drawn == typeDrawn0
        decreases pending
      {
        var p :| p in pending;
        ExpiringStep(used0, usedPowerups, pending, now, p);
        pending := pending - {p};
        ghost var before, imagesBefore, typesBefore := powerupPositions, powerupImages, powerupTypes;
        if now - usedPowerups[p] >= REGENERATION_DELAY {
          removed := removed + 1;
        }
        ghost var _, _ := Visit(p, obstaclePositions, now, first);
        PrefixKept(before, powerupPositions, first);
        PrefixMembers(old(powerupPositions), before);
        AgreesThen(old(powerupPositions), before, images0, imagesBefore, powerupImages);
        AgreesThen(old(powerupPositions), before, types0, typesBefore, powerupTypes);
      }
    }

    /** The body of `update`'s loop for the used entry `p`: an entry at least
        REGENERATION_DELAY old is dropped and, while fewer than TARGET_POWERUPS are live,
        `generatePowerups(1, obstaclePositions)` either adds one power-up or gives up after
        MAX_ATTEMPTS attempts; `tries` and `picks` are that run's record. A younger entry, or
        a full list, leaves everything else alone. */
    method Visit(p: Point, obstaclePositions: seq<Point>, now: int, ghost first: int)
      returns (ghost tries: nat, ghost picks: seq<nat>)
      requires Valid() && p in usedPowerups
      requires 0 <= first <= |powerupPositions| && SpacedFrom(first, obstaclePositions)
      modifies this, random, mapManager.random
      ensures Valid() && SpacedFrom(first, obstaclePositions) && spawnTimes == old(spawnTimes)
      ensures usedPowerups ==
        if now - old(usedPowerups)[p] >= REGENERATION_DELAY then old(usedPowerups) - {p} else old(usedPowerups)
      ensures |old(powerupPositions)| <= |powerupPositions| <= |old(powerupPositions)| + 1
      ensures powerupPositions[..|old(powerupPositions)|] == old(powerupPositions)
      ensures Agrees(old(powerupPositions), old(powerupImages), powerupImages)
      ensures Agrees(old(powerupPositions), old(powerupTypes), powerupTypes)
      ensures mapManager.random.drawn == old(mapManager.random.drawn) + (|powerupPositions| - |old(powerupPositions)|)
      ensures now - old(usedPowerups)[p] < REGENERATION_DELAY || |old(powerupPositions)| >= TARGET_POWERUPS ==>
        powerupPositions == old(powerupPositions) && random.drawn == old(random.drawn) &&
        powerupImages == old(powerupImages) && powerupTypes == old(powerupTypes) &&
        circleRadius == old(circleRadius) && mapManager.random.drawn == old(mapManager.random.drawn)
      ensures now - old(usedPowerups)[p] >= REGENERATION_DELAY && |old(powerupPositions)| < TARGET_POWERUPS ==>
        if |powerupPositions| == |old(powerupPositions)|
        then random.drawn == old(random.drawn) + 2 * MAX_ATTEMPTS
        else old(random.drawn) + 2 <= random.drawn <= old(random.drawn) + 2 * MAX_ATTEMPTS
      ensures now - old(usedPowerups)[p] >= REGENERATION_DELAY && |old(powerupPositions)| < TARGET_POWERUPS ==>
        random.drawn == old(random.drawn) + 2 * tries &&
        PickedFrom(random.source, old(random.drawn), powerupPositions[|old(powerupPositions)|..], picks, tries,
                   GAME_WIDTH, GAME_HEIGHT) &&
        RejectedFrom(random.source, old(random.drawn), powerupPositions, |old(powerupPositions)|, picks, tries,
                     powerupImages, obstacleOverlap, obstaclePositions, GAME_WIDTH, GAME_HEIGHT) &&
        (|picks| == 1 ==> tries == picks[0] + 1)
    {
      tries, picks := 0, [];
      if now - usedPowerups[p] >= REGENERATION_DELAY {
        usedPowerups := usedPowerups - {p};
        if |powerupPositions| < TARGET_POWERUPS {
          tries, picks := GeneratePowerups(1, obstaclePositions, first);
        }
      }
    }

    /** The bookkeeping of an activation: the position leaves the live list and the image
        map, and its use is stamped with `now`. */
    method Retire(position: Point, now: int)
      requires Valid()
      modifies this
      ensures Valid()
      ensures powerupPositions == RemoveFirst(old(powerupPositions), position)
      ensures position !in powerupPositions
      ensures powerupImages == old(powerupImages) - {position}
      ensures usedPowerups == old(usedPowerups)[position := now]
      ensures powerupTypes == old(powerupTypes) && spawnTimes == old(spawnTimes)
      ensures circleRadius == old(circleRadius)
    {
      RemoveFirstDistinct(powerupPositions, position);
      RemoveFirstMembers(powerupPositions, position);
      powerupPositions := RemoveFirst(powerupPositions, position);
      powerupImages := powerupImages - {position};
      usedPowerups := usedPowerups[position := now];
    }

    /** `activatePowerup(position, bullet, otherPlayer)` at time `now`, reduced to its
        bookkeeping and the tag it returns. */
    method ActivatePowerup(position: Point, now: int) returns (r: Activation)
      requires Valid()
      modifies this
      ensures Valid()
      ensures powerupTypes == old(powerupTypes) && circleRadius == old(circleRadius)
      ensures spawnTimes.Keys <= old(spawnTimes).Keys
      ensures old(spawnTimes) == map[] ==> r != Invincible
      ensures r == Invincible <==>
        position in old(spawnTimes) && now - old(spawnTimes)[position] < SPAWN_INVINCIBILITY_DURATION
      ensures r == Invincible ==>
        powerupPositions == old(powerupPositions) && powerupImages == old(powerupImages) &&
        usedPowerups == old(usedPowerups) && spawnTimes == old(spawnTimes)
      ensures r != Invincible ==>
        powerupPositions == RemoveFirst(old(powerupPositions), position) &&
        position !in powerupPositions &&
        powerupImages == old(powerupImages) - {position} &&
        usedPowerups == old(usedPowerups)[position := now]
      ensures r != Invincible && position !in old(powerupTypes) ==>
        r == MissingType && spawnTimes == old(spawnTimes)
      ensures r != Invincible && position in old(powerupTypes) ==>
        r == Activated(WithoutPng(old(powerupTypes)[position])) &&
        spawnTimes == old(spawnTimes) - {position}
      ensures r.Activated? ==> r.tag in ["Bomb", "Freeze", "BigBullet"]
    {
      if position in spawnTimes && now - spawnTimes[position] < SPAWN_INVINCIBILITY_DURATION {
        return Invincible;
      }
      Retire(position, now);
      if position !in powerupTypes {
        return MissingType;
      }
      var powerupType := powerupTypes[position];
      TypeTags(powerupType);
      spawnTimes := spawnTimes - {position};
      r := Activated(WithoutPng(powerupType));
    }
  }
}
