/** Obstacle placement (duel/Obstacle.java). Java keeps the obstacle image and the list of
    obstacles in static fields; here they are the fields of one ObstacleField object. */
module Obstacles {
  import opened Geometry
  import opened Optional
  import JavaInt
  import JavaRandom

  const NUM_OBSTACLES: int := 5
  const MAX_ATTEMPTS: int := 10

  /** An obstacle is a plain rectangle. */
  type Obstacle = Rect

  /** The placement band: columns from a quarter of the width across half of it, rows
      between a top and bottom margin of (int)(gameHeight * 0.1). */
  function MiddleStart(gameWidth: int): int { JavaInt.Div(gameWidth, 4) }
  function MiddleWidth(gameWidth: int): int { JavaInt.Div(gameWidth, 2) }
  function TopMargin(gameHeight: int): int { JavaInt.Div(gameHeight, 10) }
  function UsableHeight(gameHeight: int): int { gameHeight - 2 * TopMargin(gameHeight) }

  /** Bounds handed to `nextInt` for a candidate's x and y offsets. */
  function XBound(gameWidth: int, image: Size): int { MiddleWidth(gameWidth) - image.width }
  function YBound(gameHeight: int, image: Size): int { UsableHeight(gameHeight) - image.height }

  /** `r` is an image-sized rectangle whose corner lies inside the placement band. */
  predicate Placed(r: Rect, gameWidth: int, gameHeight: int, image: Size)
  {
    r.width == image.width && r.height == image.height &&
    MiddleStart(gameWidth) <= r.x < MiddleStart(gameWidth) + XBound(gameWidth, image) &&
    TopMargin(gameHeight) <= r.y < TopMargin(gameHeight) + YBound(gameHeight, image)
  }

  /** The obstacle an attempt produces when its x offset is draw `k` of `source` and its y
      offset draw `k + 1`. */
  function Drawn(source: nat -> nat, k: nat, gameWidth: int, gameHeight: int, image: Size): (r: Rect)
    requires XBound(gameWidth, image) > 0 && YBound(gameHeight, image) > 0
    ensures Placed(r, gameWidth, gameHeight, image)
  {
    Rect(MiddleStart(gameWidth) + source(k) % XBound(gameWidth, image),
         TopMargin(gameHeight) + source(k + 1) % YBound(gameHeight, image),
         image.width, image.height)
  }

  /** `r` intersects one of the first `n` obstacles of `s`. */
  predicate HitsEarlier(r: Rect, s: seq<Rect>, n: int)
    requires 0 <= n <= |s|
  {
    exists j :: 0 <= j < n && Intersects(r, s[j])
  }

  lemma HitsEarlierPrefix(r: Rect, s: seq<Rect>, t: seq<Rect>, n: int)
    requires 0 <= n <= |s| && n <= |t| && s[..n] == t[..n]
    ensures HitsEarlier(r, s, n) <==> HitsEarlier(r, t, n)
  {
    assert forall j :: 0 <= j < n ==> s[j] == s[..n][j] == t[j];
  }

  /** The candidate of attempt `a` (from 0) of a do-while loop whose first attempt drew from
      draw `base` on. */
  function AttemptAt(source: nat -> nat, base: nat, a: nat, gameWidth: int, gameHeight: int, image: Size): Rect
    requires XBound(gameWidth, image) > 0 && YBound(gameHeight, image) > 0
  {
    Drawn(source, base + 2 * a, gameWidth, gameHeight, image)
  }

  /** The first `n` attempts from draw `base` on each drew a candidate that intersects one of
      the first `k` obstacles of `s`, so the do-while loop went on after each of them. */
  predicate Rejected(source: nat -> nat, base: nat, n: nat, s: seq<Rect>, k: int,
                     gameWidth: int, gameHeight: int, image: Size)
    requires XBound(gameWidth, image) > 0 && YBound(gameHeight, image) > 0 && 0 <= k <= |s|
  {
    forall a :: 0 <= a < n ==> HitsEarlier(AttemptAt(source, base, a, gameWidth, gameHeight, image), s, k)
  }

  lemma RejectedPrefix(source: nat -> nat, base: nat, n: nat, s: seq<Rect>, t: seq<Rect>, k: int,
                       gameWidth: int, gameHeight: int, image: Size)
    requires XBound(gameWidth, image) > 0 && YBound(gameHeight, image) > 0
    requires 0 <= k <= |s| && k <= |t| && s[..k] == t[..k]
    requires Rejected(source, base, n, s, k, gameWidth, gameHeight, image)
    ensures Rejected(source, base, n, t, k, gameWidth, gameHeight, image)
  {
    forall a | 0 <= a < n
      ensures HitsEarlier(AttemptAt(source, base, a, gameWidth, gameHeight, image), t, k)
    {
      HitsEarlierPrefix(AttemptAt(source, base, a, gameWidth, gameHeight, image), s, t, k);
    }
  }

  /** An attempt whose candidate intersects an obstacle extends the rejected run by one. */
  lemma RejectedExtend(source: nat -> nat, base: nat, n: nat, s: seq<Rect>, k: int,
                       gameWidth: int, gameHeight: int, image: Size)
    requires XBound(gameWidth, image) > 0 && YBound(gameHeight, image) > 0 && 0 <= k <= |s|
    requires Rejected(source, base, n, s, k, gameWidth, gameHeight, image)
    requires HitsEarlier(AttemptAt(source, base, n, gameWidth, gameHeight, image), s, k)
    ensures Rejected(source, base, n + 1, s, k, gameWidth, gameHeight, image)
  {
  }

  function Sum(s: seq<nat>): nat
  {
    if s == [] then 0 else Sum(s[..|s| - 1]) + s[|s| - 1]
  }

  /** The index of the first draw of obstacle k's last attempt, when the obstacles took
      `counts` attempts of two draws each from draw `start` on. */
  function LastDraw(start: nat, counts: seq<nat>, k: int): nat
    requires 0 <= k < |counts| && counts[k] >= 1
  {
    start + 2 * Sum(counts[..k]) + 2 * (counts[k] - 1)
  }

  /** What `generateObstacles` promises of obstacle k, drawn from draw `start` on after
      `counts[k]` attempts: it lies in the band with the image's size, is the candidate of its
      last attempt, took 1 to MAX_ATTEMPTS attempts, every attempt before the last drew a
      candidate that intersects an earlier obstacle, and it overlaps an earlier obstacle itself
      only after MAX_ATTEMPTS attempts. */
  predicate GeneratedAt(source: nat -> nat, start: nat, obstacles: seq<Rect>, counts: seq<nat>, k: int,
                        gameWidth: int, gameHeight: int, image: Size)
    requires XBound(gameWidth, image) > 0 && YBound(gameHeight, image) > 0
  {
    0 <= k < |counts| && k < |obstacles| &&
    1 <= counts[k] <= MAX_ATTEMPTS &&
    Rejected(source, start + 2 * Sum(counts[..k]), counts[k] - 1, obstacles, k, gameWidth, gameHeight, image) &&
    obstacles[k] == Drawn(source, LastDraw(start, counts, k), gameWidth, gameHeight, image) &&
    Placed(obstacles[k], gameWidth, gameHeight, image) &&
    (HitsEarlier(obstacles[k], obstacles, k) ==> counts[k] == MAX_ATTEMPTS)
  }

  /** `GeneratedAt` for every obstacle appended so far. */
  predicate Generated(source: nat -> nat, start: nat, obstacles: seq<Rect>, counts: seq<nat>,
                      gameWidth: int, gameHeight: int, image: Size)
  {
    XBound(gameWidth, image) > 0 && YBound(gameHeight, image) > 0 &&
    |obstacles| == |counts| &&
    forall k :: 0 <= k < |counts| ==> GeneratedAt(source, start, obstacles, counts, k, gameWidth, gameHeight, image)
  }

  /** Appending one more obstacle leaves what holds of an earlier one. */
  lemma GeneratedAtKept(source: nat -> nat, start: nat, obstacles: seq<Rect>, counts: seq<nat>, k: int,
                        gameWidth: int, gameHeight: int, image: Size, candidate: Rect, tries: nat)
    requires XBound(gameWidth, image) > 0 && YBound(gameHeight, image) > 0
    requires GeneratedAt(source, start, obstacles, counts, k, gameWidth, gameHeight, image)
    ensures GeneratedAt(source, start, obstacles + [candidate], counts + [tries], k, gameWidth, gameHeight, image)
  {
    assert (counts + [tries])[..k] == counts[..k];
    HitsEarlierPrefix(obstacles[k], obstacles + [candidate], obstacles, k);
    assert (obstacles + [candidate])[..k] == obstacles[..k];
    RejectedPrefix(source, start + 2 * Sum(counts[..k]), counts[k] - 1, obstacles, obstacles + [candidate], k,
                   gameWidth, gameHeight, image);
  }

  /** The last candidate of one more do-while loop, after `tries` attempts, is what
      `GeneratedAt` asks of the obstacle it appends. */
  lemma GeneratedAtLast(source: nat -> nat, start: nat, obstacles: seq<Rect>, counts: seq<nat>,
                        gameWidth: int, gameHeight: int, image: Size, candidate: Rect, tries: nat)
    requires XBound(gameWidth, image) > 0 && YBound(gameHeight, image) > 0 && |obstacles| == |counts|
    requires 1 <= tries <= MAX_ATTEMPTS
    requires candidate == Drawn(source, start + 2 * Sum(counts) + 2 * (tries - 1), gameWidth, gameHeight, image)
    requires HitsEarlier(candidate, obstacles, |obstacles|) ==> tries == MAX_ATTEMPTS
    requires Rejected(source, start + 2 * Sum(counts), tries - 1, obstacles, |obstacles|, gameWidth, gameHeight, image)
    ensures GeneratedAt(source, start, obstacles + [candidate], counts + [tries], |counts|, gameWidth, gameHeight, image)
  {
    assert (counts + [tries])[..|counts|] == counts;
    HitsEarlierPrefix(candidate, obstacles + [candidate], obstacles, |obstacles|);
    assert (obstacles + [candidate])[..|obstacles|] == obstacles;
    RejectedPrefix(source, start + 2 * Sum(counts), tries - 1, obstacles, obstacles + [candidate], |obstacles|,
                   gameWidth, gameHeight, image);
  }

  /** Appending the last candidate of one more do-while loop keeps `Generated`. */
  lemma GeneratedAppend(source: nat -> nat, start: nat, obstacles: seq<Rect>, counts: seq<nat>,
                        gameWidth: int, gameHeight: int, image: Size, candidate: Rect, tries: nat)
    requires Generated(source, start, obstacles, counts, gameWidth, gameHeight, image)
    requires 1 <= tries <= MAX_ATTEMPTS
    requires candidate == Drawn(source, start + 2 * Sum(counts) + 2 * (tries - 1), gameWidth, gameHeight, image)
    requires HitsEarlier(candidate, obstacles, |obstacles|) ==> tries == MAX_ATTEMPTS
    requires Rejected(source, start + 2 * Sum(counts), tries - 1, obstacles, |obstacles|, gameWidth, gameHeight, image)
    ensures Generated(source, start, obstacles + [candidate], counts + [tries], gameWidth, gameHeight, image)
    ensures Sum(counts + [tries]) == Sum(counts) + tries
  {
    assert (counts + [tries])[..|counts|] == counts;
    forall k | 0 <= k < |counts| + 1
      ensures GeneratedAt(source, start, obstacles + [candidate], counts + [tries], k, gameWidth, gameHeight, image)
    {
      if k < |counts| {
        GeneratedAtKept(source, start, obstacles, counts, k, gameWidth, gameHeight, image, candidate, tries);
      } else {
        GeneratedAtLast(source, start, obstacles, counts, gameWidth, gameHeight, image, candidate, tries);
      }
    }
  }

  class ObstacleField {
    var obstacleImage: Option<Size>
    var obstacles: seq<Obstacle>
    const random: JavaRandom.Random

    constructor (source: nat -> nat)
      ensures obstacleImage == None && obstacles == []
      ensures fresh(random) && random.source == source && random.drawn == 0
    {
      obstacleImage := None;
      obstacles := [];
      random := new JavaRandom.Random(source);
    }

    /** `loadObstacleImage`: the size of the decoded image, or None when reading it failed. */
    method LoadObstacleImage(image: Option<Size>)
      modifies this
      ensures obstacleImage == image && obstacles == old(obstacles)
    {
      obstacleImage := image;
    }

    /** `getObstacles`. */
    method GetObstacles() returns (r: seq<Obstacle>)
      ensures r == obstacles
    {
      r := obstacles;
    }

    /** The inner loop of `generateObstacles`: does `candidate` intersect an obstacle already
        in the list? */
    method OverlapsExisting(candidate: Rect) returns (overlaps: bool)
      ensures overlaps <==> HitsEarlier(candidate, obstacles, |obstacles|)
    {
      overlaps := false;
      var k := 0;
      while k < |obstacles|
        invariant 0 <= k <= |obstacles|
        invariant !HitsEarlier(candidate, obstacles, k)
      {
        if Intersects(candidate, obstacles[k]) {
          overlaps := true;
          break;
        }
        k := k + 1;
      }
    }

    /** The do-while loop of `generateObstacles`: draw candidates until one misses every
        obstacle already placed, at most MAX_ATTEMPTS times. `tries` counts the attempts; every
        attempt before the last drew an overlapping candidate, and the result is the last
        candidate, which overlaps only if all attempts did. */
    method DrawObstacle(gameWidth: int, gameHeight: int, image: Size) returns (candidate: Rect, ghost tries: nat)
      requires XBound(gameWidth, image) > 0 && YBound(gameHeight, image) > 0
      modifies random
      ensures 1 <= tries <= MAX_ATTEMPTS && random.drawn == old(random.drawn) + 2 * tries
      ensures candidate == Drawn(random.source, old(random.drawn) + 2 * (tries - 1), gameWidth, gameHeight, image)
      ensures HitsEarlier(candidate, obstacles, |obstacles|) ==> tries == MAX_ATTEMPTS
      ensures Rejected(random.source, old(random.drawn), tries - 1, obstacles, |obstacles|, gameWidth, gameHeight, image)
    {
      var middleStart := MiddleStart(gameWidth);
      var topMargin := TopMargin(gameHeight);
      var overlaps := true;
      candidate := Rect(0, 0, 0, 0);
      var attempts := 0;
      ghost var before := random.drawn;
      // do { ... } while (overlaps && attempts < MAX_ATTEMPTS)
      while attempts == 0 || (overlaps && attempts < MAX_ATTEMPTS)
        invariant 0 <= attempts <= MAX_ATTEMPTS
        invariant random.drawn == before + 2 * attempts
        invariant attempts > 0 ==> candidate == Drawn(random.source, before + 2 * (attempts - 1), gameWidth, gameHeight, image)
        invariant attempts > 0 ==> (overlaps <==> HitsEarlier(candidate, obstacles, |obstacles|))
        invariant Rejected(random.source, before, if attempts == 0 then 0 else attempts - 1, obstacles, |obstacles|,
                           gameWidth, gameHeight, image)
        decreases MAX_ATTEMPTS - attempts
      {
        if attempts > 0 {
          RejectedExtend(random.source, before, attempts - 1, obstacles, |obstacles|, gameWidth, gameHeight, image);
        }
        var dx := random.NextInt(XBound(gameWidth, image));
        var dy := random.NextInt(YBound(gameHeight, image));
        candidate := Rect(middleStart + dx, topMargin + dy, image.width, image.height);
        overlaps := OverlapsExisting(candidate);
        attempts := attempts + 1;
      }
      tries := attempts;
    }

    /** The `for` loop of `generateObstacles`: append NUM_OBSTACLES obstacles, each the last
        candidate of its do-while loop. */
    method PlaceObstacles(gameWidth: int, gameHeight: int, image: Size) returns (ghost attempts: seq<nat>)
      requires XBound(gameWidth, image) > 0 && YBound(gameHeight, image) > 0
      requires obstacles == []
      modifies this, random
      ensures obstacleImage == old(obstacleImage)
      ensures |obstacles| == NUM_OBSTACLES && |attempts| == NUM_OBSTACLES
      ensures random.drawn == old(random.drawn) + 2 * Sum(attempts)
      ensures Generated(random.source, old(random.drawn), obstacles, attempts, gameWidth, gameHeight, image)
    {
      attempts := [];
      ghost var start := random.drawn;
      ghost var src := random.source;
      var i := 0;
      while i < NUM_OBSTACLES
        invariant 0 <= i <= NUM_OBSTACLES
        invariant obstacleImage == old(obstacleImage)
        invariant |obstacles| == i
        invariant random.drawn == start + 2 * Sum(attempts)
        invariant Generated(src, start, obstacles, attempts, gameWidth, gameHeight, image)
      {
        var candidate, tries := DrawObstacle(gameWidth, gameHeight, image);
        GeneratedAppend(src, start, obstacles, attempts, gameWidth, gameHeight, image, candidate, tries);
        obstacles := obstacles + [candidate];
        attempts := attempts + [tries];
        i := i + 1;
      }
    }

    /** `generateObstacles(gameWidth, gameHeight)`. The list is cleared first and stays empty
        without an image. With one, NUM_OBSTACLES image-sized obstacles are appended; each is
        drawn up to MAX_ATTEMPTS times until it misses every earlier one and is kept even if
        the last attempt still overlaps. `attempts[i]` is the number of draws for obstacle i.
        Obstacle i is the one drawn by its last attempt, whose x offset is the draw after the
        2 * (attempts[0] + ... + attempts[i] - 1) draws this call made before it.
        `ok` is false when `nextInt` throws on a band that the image does not fit; the list is
        then left empty. */
    method GenerateObstacles(gameWidth: int, gameHeight: int) returns (ok: bool, ghost attempts: seq<nat>)
      modifies this, random
      ensures obstacleImage == old(obstacleImage)
      ensures obstacleImage == None ==> ok && obstacles == [] && random.drawn == old(random.drawn)
      ensures obstacleImage.Some? ==>
        var image := obstacleImage.value;
        (ok <==> XBound(gameWidth, image) > 0 && YBound(gameHeight, image) > 0) &&
        (!ok ==> (obstacles == [] &&
          random.drawn == old(random.drawn) + (if XBound(gameWidth, image) > 0 then 1 else 0)))
      ensures ok && obstacleImage.Some? ==>
        |obstacles| == NUM_OBSTACLES && random.drawn == old(random.drawn) + 2 * Sum(attempts) &&
        Generated(random.source, old(random.drawn), obstacles, attempts, gameWidth, gameHeight, obstacleImage.value)
    {
      obstacles := [];
      attempts := [];
      if obstacleImage == None {
        return true, attempts;
      }
      var image := obstacleImage.value;
      var xBound := XBound(gameWidth, image);
      var yBound := YBound(gameHeight, image);
      if xBound <= 0 {
        // nextInt throws before the first x offset is drawn
        return false, attempts;
      }
      if yBound <= 0 {
        // the first x offset is drawn, then nextInt throws on the y offset
        var _ := random.NextInt(xBound);
        return false, attempts;
      }
      attempts := PlaceObstacles(gameWidth, gameHeight, image);
      ok := true;
    }
  }
}
