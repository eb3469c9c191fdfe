/** A projectile (duel/Bullet.java): integer motion with a vertical bounce and a
    deflection off obstacles. */
module Bullets {
  import opened Geometry
  import JavaInt
  import Screen
  import Players

  const BASE_SPEED: int := 10

  /** Java's (int) cast of +Infinity and -Infinity. */
  const INT_MAX: int := 0x7fff_ffff
  const INT_MIN: int := -0x8000_0000

  /** The fields of a Bullet that its methods update. */
  datatype Flight = Flight(x: int, y: int, xVelocity: int, yVelocity: int)

  /** The bullet's top edge lies outside [0, GAME_HEIGHT - height]. */
  predicate OffVertically(y: int, height: int)
  {
    y < 0 || y > Screen.GAME_HEIGHT - height
  }

  /** `move`: one step along the velocity. The position is never clamped; the vertical
      velocity is reversed when the new position is off the vertical band. */
  function Advanced(f: Flight, height: int): (r: Flight)
    ensures r.x == f.x + f.xVelocity && r.y == f.y + f.yVelocity
    ensures r.xVelocity == f.xVelocity
    ensures OffVertically(r.y, height) ==> r.yVelocity == -f.yVelocity
    ensures !OffVertically(r.y, height) ==> r.yVelocity == f.yVelocity
    ensures JavaInt.Abs(r.yVelocity) == JavaInt.Abs(f.yVelocity)
  {
    var x, y := f.x + f.xVelocity, f.y + f.yVelocity;
    Flight(x, y, f.xVelocity, if OffVertically(y, height) then -f.yVelocity else f.yVelocity)
  }

  /** `n` calls of `move`. */
  function AdvancedTimes(f: Flight, height: int, n: nat): Flight
    decreases n
  {
    if n == 0 then f else AdvancedTimes(Advanced(f, height), height, n - 1)
  }

  /** Horizontally a bullet flies in a straight line at constant speed, and its vertical speed
      never changes in size: after `n` moves it is `n * xVelocity` further along. */
  lemma {:induction false} StraightFlight(f: Flight, height: int, n: nat)
    ensures var r := AdvancedTimes(f, height, n);
      r.x == f.x + n * f.xVelocity && r.xVelocity == f.xVelocity &&
      JavaInt.Abs(r.yVelocity) == JavaInt.Abs(f.yVelocity)
    decreases n
  {
    if n > 0 {
      var g := Advanced(f, height);
      StraightFlight(g, height, n - 1);
      assert f.x + n * f.xVelocity == g.x + (n - 1) * g.xVelocity;
    }
  }

  /** The vertical speed after hitting an obstacle, from the offset `distance` of the bullet's
      centre below the obstacle's and the obstacle's half height:
      (int)((double) distance / halfHeight * 5). A zero half height divides by 0.0, giving an
      infinity (cast to the int extreme of its sign) or NaN (cast to 0). The double product is
      taken as exact. */
  function DeflectionSpeed(distance: int, halfHeight: int): (v: int)
    ensures halfHeight != 0 && JavaInt.Abs(distance) <= JavaInt.Abs(halfHeight) ==> -5 <= v <= 5
    ensures distance == 0 ==> v == 0
    ensures halfHeight != 0 && distance == halfHeight ==> v == 5
    ensures halfHeight != 0 && distance == -halfHeight ==> v == -5
    ensures v > 0 ==> distance != 0 && (distance > 0 <==> halfHeight >= 0)
    ensures v < 0 ==> distance != 0 && (distance > 0 <==> halfHeight < 0)
    ensures halfHeight == 0 && distance > 0 ==> v == INT_MAX
    ensures halfHeight == 0 && distance < 0 ==> v == INT_MIN
  {
    if halfHeight == 0 then
      (if distance > 0 then INT_MAX else if distance < 0 then INT_MIN else 0)
    else
      ScaledQuotient(distance, halfHeight);
      JavaInt.Div(5 * distance, halfHeight)
  }

  /** What the truncated quotient 5 * distance / halfHeight satisfies. */
  lemma {:induction false} ScaledQuotient(distance: int, halfHeight: int)
    requires halfHeight != 0
    ensures var v := JavaInt.Div(5 * distance, halfHeight);
      (JavaInt.Abs(distance) <= JavaInt.Abs(halfHeight) ==> -5 <= v <= 5) &&
      (distance == 0 ==> v == 0) &&
      (distance == halfHeight ==> v == 5) &&
      (distance == -halfHeight ==> v == -5) &&
      (v > 0 ==> distance != 0 && (distance > 0 <==> halfHeight >= 0)) &&
      (v < 0 ==> distance != 0 && (distance > 0 <==> halfHeight < 0))
  {
    var v := JavaInt.Div(5 * distance, halfHeight);
    var h := JavaInt.Abs(halfHeight);
    JavaInt.AbsOfProduct(v, halfHeight);
    JavaInt.AbsOfProduct(5, distance);
    assert JavaInt.Abs(v) * h <= 5 * JavaInt.Abs(distance) < JavaInt.Abs(v) * h + h;
    if JavaInt.Abs(distance) <= h {
      BoundedQuotient(JavaInt.Abs(v), h, JavaInt.Abs(distance));
    }
    if JavaInt.Abs(distance) == h {
      ExactQuotient(JavaInt.Abs(v), h);
    }
    if distance == 0 {
      ZeroQuotient(JavaInt.Abs(v), h);
    }
    SignOfQuotient(v, halfHeight);
  }

  lemma {:induction false} BoundedQuotient(q: nat, h: nat, d: nat)
    requires h > 0 && d <= h && q * h <= 5 * d
    ensures q <= 5
  {
    assert q * h <= 5 * h;
  }

  lemma {:induction false} ExactQuotient(q: nat, h: nat)
    requires h > 0 && q * h <= 5 * h < q * h + h
    ensures q == 5
  {
  }

  lemma {:induction false} ZeroQuotient(q: nat, h: nat)
    requires h > 0 && q * h <= 0
    ensures q == 0
  {
  }

  lemma {:induction false} SignOfQuotient(v: int, h: int)
    requires h != 0
    ensures v > 0 && h > 0 ==> v * h > 0
    ensures v > 0 && h < 0 ==> v * h < 0
    ensures v < 0 && h > 0 ==> v * h < 0
    ensures v < 0 && h < 0 ==> v * h > 0
  {
    if v > 0 && h < 0 {
      assert v * (-h) > 0;
    } else if v < 0 && h > 0 {
      assert (-v) * h > 0;
    } else if v < 0 && h < 0 {
      assert (-v) * (-h) > 0;
    }
  }

  /** `bounceOffObstacle(obstacle)`: the horizontal velocity is reversed, the position kept,
      and the vertical velocity set from where the bullet's centre hit the obstacle. */
  function Deflected(f: Flight, height: int, obstacle: Rect): (r: Flight)
    ensures r.x == f.x && r.y == f.y && r.xVelocity == -f.xVelocity
    ensures var offset := (f.y + JavaInt.Div(height, 2)) - (obstacle.y + JavaInt.Div(obstacle.height, 2));
      var half := JavaInt.Div(obstacle.height, 2);
      r.yVelocity == DeflectionSpeed(offset, half) &&
      (half != 0 && JavaInt.Abs(offset) <= JavaInt.Abs(half) ==> -5 <= r.yVelocity <= 5)
  {
    var obstacleCenterY := obstacle.y + JavaInt.Div(obstacle.height, 2);
    var bulletCenterY := f.y + JavaInt.Div(height, 2);
    f.(xVelocity := -f.xVelocity,
       yVelocity := DeflectionSpeed(bulletCenterY - obstacleCenterY, JavaInt.Div(obstacle.height, 2)))
  }

  class Bullet {
    var x: int
    var y: int
    const width: int
    const height: int
    var xVelocity: int
    var yVelocity: int
    const isFromLeftPlayer: bool

    function State(): Flight
      reads this
    {
      Flight(x, y, xVelocity, yVelocity)
    }

    function Bounds(): Rect
      reads this
    {
      Rect(x, y, width, height)
    }

    /** A new bullet flies horizontally at BASE_SPEED away from the player who fired it. */
    constructor (x: int, y: int, width: int, height: int, isFromLeftPlayer: bool)
      ensures Bounds() == Rect(x, y, width, height) && this.isFromLeftPlayer == isFromLeftPlayer
      ensures xVelocity == (if isFromLeftPlayer then BASE_SPEED else -BASE_SPEED)
      ensures yVelocity == 0
    {
      this.x := x;
      this.y := y;
      this.width := width;
      this.height := height;
      this.isFromLeftPlayer := isFromLeftPlayer;
      xVelocity := if isFromLeftPlayer then BASE_SPEED else -BASE_SPEED;
      yVelocity := 0;
    }

    method Move()
      modifies this
      ensures State() == Advanced(old(State()), height)
    {
      x := x + xVelocity;
      y := y + yVelocity;
      if y < 0 || y > Screen.GAME_HEIGHT - height {
        yVelocity := -yVelocity;
      }
    }

    method BounceOffObstacle(obstacle: Rect)
      modifies this
      ensures State() == Deflected(old(State()), height, obstacle)
    {
      xVelocity := -xVelocity;
      var obstacleCenterY := obstacle.y + JavaInt.Div(obstacle.height, 2);
      var bulletCenterY := y + JavaInt.Div(height, 2);
      var distanceFromCenter := bulletCenterY - obstacleCenterY;
      yVelocity := DeflectionSpeed(distanceFromCenter, JavaInt.Div(obstacle.height, 2));
    }

    /** The bullet has left the arena sideways: x is outside the closed range [0, screenWidth]. */
    predicate IsOutOfBounds(screenWidth: int)
      reads this
      ensures !IsOutOfBounds(screenWidth) <==> 0 <= x <= screenWidth
    {
      x < 0 || x > screenWidth
    }

    /** `collidesWith(player)` is Rectangle.intersects: the two boxes share a cell. */
    predicate CollidesWith(player: Players.Player)
      reads this, player
      ensures CollidesWith(player) <==> ShareCell(Bounds(), player.Bounds())
      ensures CollidesWith(player) <==> Intersects(player.Bounds(), Bounds())
    {
      IntersectsIffShareCell(Bounds(), player.Bounds());
      Intersects(Bounds(), player.Bounds())
    }
  }
}
