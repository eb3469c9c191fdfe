/** A player patrolling one vertical edge of the arena (duel/Player.java). */
module Players {
  import opened Geometry
  import JavaInt

  const SPEED: int := 5
  const SHOOT_PAUSE_DURATION: int := 250

  /** A movement direction as the player keeps it: up (-1) or down (1). */
  predicate IsDirection(d: int)
  {
    d == 1 || d == -1
  }

  /** The fields of a Player that its methods update. */
  datatype Motion = Motion(
    y: int,
    yVelocity: int,
    movementDirection: int,
    isMoving: bool,
    hasGun: bool,
    lastShootTime: int)

  /** The cooldown since the last successful shot has elapsed at `now`. */
  predicate CooledDown(m: Motion, now: int)
  {
    now - m.lastShootTime >= SHOOT_PAUSE_DURATION
  }

  /** `setYDirection(direction)`: the sign of `direction` picks the new direction, zero
      flips it, and the velocity becomes `direction * SPEED` as given (not the sign). */
  function WithYDirection(m: Motion, direction: int): (r: Motion)
    ensures direction > 0 ==> r.movementDirection == 1
    ensures direction < 0 ==> r.movementDirection == -1
    ensures direction == 0 ==> r.movementDirection == -m.movementDirection
    ensures IsDirection(m.movementDirection) ==> IsDirection(r.movementDirection)
    ensures r.yVelocity == direction * SPEED
    ensures direction == 0 ==> r.yVelocity == 0
    ensures r.(movementDirection := m.movementDirection, yVelocity := m.yVelocity) == m
  {
    var d := if direction > 0 then 1 else if direction < 0 then -1 else -m.movementDirection;
    m.(movementDirection := d, yVelocity := direction * SPEED)
  }

  /** `reverseDirection`: turn round and travel at full speed the new way. */
  function Reversed(m: Motion): (r: Motion)
    ensures IsDirection(m.movementDirection) ==>
      r.movementDirection == -m.movementDirection && r.yVelocity == r.movementDirection * SPEED
    ensures r.(movementDirection := m.movementDirection, yVelocity := m.yVelocity) == m
  {
    WithYDirection(m, -m.movementDirection)
  }

  /** Clamp at the top margin or the bottom edge, turning round. */
  function Bounced(m: Motion, y: int): Motion
  {
    m.(y := y, movementDirection := -m.movementDirection,
       yVelocity := -m.movementDirection * SPEED)
  }

  /** `move`: a stopped player stays put; a moving one advances by its velocity and, if that
      leaves the band [topMargin, screenHeight - height], is clamped to the crossed edge and
      turns round. */
  function Moved(m: Motion, topMargin: int, screenHeight: int, height: int): (r: Motion)
    ensures !m.isMoving ==> r == m
    ensures m.isMoving && topMargin <= screenHeight - height ==>
      topMargin <= r.y <= screenHeight - height
    ensures m.isMoving && topMargin <= m.y + m.yVelocity <= screenHeight - height ==>
      r == m.(y := m.y + m.yVelocity)
    ensures m.isMoving && m.y + m.yVelocity < topMargin ==> r.y == topMargin
    ensures m.isMoving && topMargin <= m.y + m.yVelocity && m.y + m.yVelocity > screenHeight - height ==>
      r.y == screenHeight - height
    ensures r.y != m.y + m.yVelocity && m.isMoving ==>
      r.movementDirection == -m.movementDirection && r.yVelocity == r.movementDirection * SPEED
    ensures IsDirection(m.movementDirection) ==> IsDirection(r.movementDirection)
    ensures r.isMoving == m.isMoving && r.hasGun == m.hasGun && r.lastShootTime == m.lastShootTime
  {
    if !m.isMoving then m
    else
      var y := m.y + m.yVelocity;
      if y < topMargin then Bounced(m, topMargin)
      else if y > screenHeight - height then Bounced(m, screenHeight - height)
      else m.(y := y)
  }

  /** `shoot(now)`: the new fields and whether a shot was fired. Inside the cooldown nothing
      happens; an armed player fires, gives up the gun and stops; an unarmed player turns round. */
  function Shot(m: Motion, now: int): (r: (Motion, bool))
    ensures r.1 <==> CooledDown(m, now) && m.hasGun
    ensures !CooledDown(m, now) ==> r.0 == m
    ensures CooledDown(m, now) && m.hasGun ==>
      r.0 == m.(hasGun := false, isMoving := false, lastShootTime := now)
    ensures CooledDown(m, now) && !m.hasGun ==>
      r.0.movementDirection == -m.movementDirection &&
      r.0.yVelocity == r.0.movementDirection * SPEED &&
      r.0.(movementDirection := m.movementDirection, yVelocity := m.yVelocity) == m
    ensures IsDirection(m.movementDirection) ==> IsDirection(r.0.movementDirection)
  {
    if !CooledDown(m, now) then (m, false)
    else if m.hasGun then (m.(isMoving := false, lastShootTime := now, hasGun := false), true)
    else
      var d := -m.movementDirection;
      (m.(movementDirection := d, yVelocity := d * SPEED), false)
  }

  /** `resumeMovement(now)`: once the cooldown has elapsed the player moves again at full
      speed in its current direction; before that nothing changes. */
  function Resumed(m: Motion, now: int): (r: Motion)
    ensures !CooledDown(m, now) ==> r == m
    ensures CooledDown(m, now) ==>
      r == m.(isMoving := true, yVelocity := m.movementDirection * SPEED)
    ensures IsDirection(m.movementDirection) && CooledDown(m, now) ==>
      r.isMoving && JavaInt.Abs(r.yVelocity) == SPEED
  {
    if CooledDown(m, now) then m.(isMoving := true, yVelocity := m.movementDirection * SPEED)
    else m
  }

  /** Turning round twice restores a player travelling at full speed. */
  lemma ReversedTwice(m: Motion)
    requires IsDirection(m.movementDirection) && m.yVelocity == m.movementDirection * SPEED
    ensures Reversed(Reversed(m)) == m
  {
  }

  /** An armed player that fires at `now` stands still for exactly SHOOT_PAUSE_DURATION
      milliseconds: a release inside the pause does not restart it, one at or after the end
      restarts it at full speed in its old direction, unarmed. */
  lemma ShotPausesMovement(m: Motion, now: int, release: int)
    requires CooledDown(m, now) && m.hasGun && IsDirection(m.movementDirection)
    ensures var fired := Shot(m, now).0;
      !fired.isMoving && !fired.hasGun &&
      (release < now + SHOOT_PAUSE_DURATION ==> Resumed(fired, release) == fired) &&
      (release >= now + SHOOT_PAUSE_DURATION ==>
        var r := Resumed(fired, release);
        r.isMoving && r.yVelocity == m.movementDirection * SPEED && r.y == m.y &&
        r.movementDirection == m.movementDirection)
  {
  }

  /** `n` calls of `move`. */
  function MovedTimes(m: Motion, topMargin: int, screenHeight: int, height: int, n: nat): Motion
    decreases n
  {
    if n == 0 then m else MovedTimes(Moved(m, topMargin, screenHeight, height), topMargin, screenHeight, height, n - 1)
  }

  /** A player inside the band [topMargin, screenHeight - height] stays inside it after any
      number of moves. */
  lemma {:induction false} StaysInBand(m: Motion, topMargin: int, screenHeight: int, height: int, n: nat)
    requires topMargin <= m.y <= screenHeight - height
    ensures var r := MovedTimes(m, topMargin, screenHeight, height, n);
      topMargin <= r.y <= screenHeight - height && r.isMoving == m.isMoving && r.hasGun == m.hasGun
    decreases n
  {
    if n > 0 {
      StaysInBand(Moved(m, topMargin, screenHeight, height), topMargin, screenHeight, height, n - 1);
    }
  }

  class Player {
    const x: int
    const width: int
    const height: int
    const SCREEN_HEIGHT: int
    const TOP_MARGIN: int

    var y: int
    var yVelocity: int
    var isMoving: bool
    var movementDirection: int
    var hasGun: bool
    var lastShootTime: int

    function State(): Motion
      reads this
    {
      Motion(y, yVelocity, movementDirection, isMoving, hasGun, lastShootTime)
    }

    function Bounds(): Rect
      reads this
    {
      Rect(x, y, width, height)
    }

    predicate Valid()
      reads this
    {
      IsDirection(movementDirection)
    }

    /** The top margin is (int)(screenHeight * 0.1), i.e. screenHeight / 10 truncated. The
        clamp meant to keep the start below that margin assigns the parameter, not the field,
        so the player starts at the given `y` even above the margin. */
    constructor (x: int, y: int, playerWidth: int, playerHeight: int, screenHeight: int, hasGun: bool)
      ensures Valid()
      ensures this.x == x && width == playerWidth && height == playerHeight
      ensures SCREEN_HEIGHT == screenHeight && TOP_MARGIN == JavaInt.Div(screenHeight, 10)
      ensures State() == Motion(y, SPEED, 1, true, hasGun, 0)
    {
      this.x := x;
      width := playerWidth;
      height := playerHeight;
      SCREEN_HEIGHT := screenHeight;
      TOP_MARGIN := JavaInt.Div(screenHeight, 10);
      this.hasGun := hasGun;
      movementDirection := 1;
      isMoving := true;
      yVelocity := SPEED;
      lastShootTime := 0;
      this.y := y;
    }

    method SetYDirection(direction: int)
      requires Valid()
      modifies this
      ensures Valid()
      ensures State() == WithYDirection(old(State()), direction)
    {
      if direction > 0 { movementDirection := 1; }
      if direction < 0 { movementDirection := -1; }
      if direction == 0 { movementDirection := movementDirection * -1; }
      yVelocity := direction * SPEED;
    }

    method GetYDirection() returns (d: int)
      requires Valid()
      ensures IsDirection(d) && d == movementDirection
    {
      d := movementDirection;
    }

    method ReverseDirection()
      requires Valid()
      modifies this
      ensures Valid()
      ensures State() == Reversed(old(State()))
    {
      var d := GetYDirection();
      SetYDirection(-d);
    }

    method Move()
      requires Valid()
      modifies this
      ensures Valid()
      ensures State() == Moved(old(State()), TOP_MARGIN, SCREEN_HEIGHT, height)
    {
      if !isMoving {
        return;
      }
      y := y + yVelocity;
      if y < TOP_MARGIN {
        y := TOP_MARGIN;
        movementDirection := movementDirection * -1;
        yVelocity := movementDirection * SPEED;
      } else if y > SCREEN_HEIGHT - height {
        y := SCREEN_HEIGHT - height;
        movementDirection := movementDirection * -1;
        yVelocity := movementDirection * SPEED;
      }
    }

    method Shoot(currentTime: int) returns (fired: bool)
      requires Valid()
      modifies this
      ensures Valid()
      ensures (State(), fired) == Shot(old(State()), currentTime)
    {
      if currentTime - lastShootTime < SHOOT_PAUSE_DURATION {
        return false;
      }
      if hasGun {
        isMoving := false;
        lastShootTime := currentTime;
        hasGun := false;
        return true;
      } else {
        movementDirection := movementDirection * -1;
        yVelocity := movementDirection * SPEED;
        return false;
      }
    }

    method ResumeMovement(currentTime: int)
      requires Valid()
      modifies this
      ensures Valid()
      ensures State() == Resumed(old(State()), currentTime)
    {
      if currentTime - lastShootTime >= SHOOT_PAUSE_DURATION {
        isMoving := true;
        yVelocity := movementDirection * SPEED;
      }
    }

    method SetHasGun(hasGun: bool)
      modifies this
      ensures State() == old(State()).(hasGun := hasGun)
    {
      this.hasGun := hasGun;
    }

    method HasGun() returns (armed: bool)
      ensures armed == hasGun
    {
      armed := hasGun;
    }
  }
}
