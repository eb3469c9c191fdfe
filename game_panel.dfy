/** The tick and input logic of the game panel (duel/GamePanel.java): two players, one
    optional bullet slot per side and the two fire keys. */
module Panel {
  import opened Geometry
  import JavaInt
  import Screen
  import Players
  import Bullets

  /** The keys the panel reacts to; every other key code is `OtherKey`. */
  datatype Key = Enter | W | Up | OtherKey

  const BULLET_WIDTH: int := 20
  const BULLET_HEIGHT: int := 10

  /** Direction a player is steered each tick: up while its key is held, down otherwise. */
  function SteeredDirection(pressed: bool): int
  {
    if pressed then -1 else 1
  }

  class GamePanel {
    const playerLeft: Players.Player
    const playerRight: Players.Player
    var bulletLeft: Bullets.Bullet?
    var bulletRight: Bullets.Bullet?
    var gameStarted: bool
    var wPressed: bool
    var upPressed: bool

    /** A player as the panel builds it, 25 x 100 on a 600-high screen, at column `x`. */
    predicate PlayerShape(p: Players.Player, x: int)
      reads p
    {
      p.x == x && p.width == 25 && p.height == 100 &&
      p.SCREEN_HEIGHT == Screen.GAME_HEIGHT && p.TOP_MARGIN == 60
    }

    /** What stays true between events: the players keep their shape, stay inside the band
        [60, 500], never hold a gun (both are built without one and nothing arms them) and so
        never stop; each slot holds a 20 x 10 bullet fired from its own side. */
    predicate Valid()
      reads this, playerLeft, playerRight, bulletLeft, bulletRight
    {
      PlayerShape(playerLeft, 50) && PlayerShape(playerRight, Screen.GAME_WIDTH - 75) &&
      playerLeft.Valid() && playerRight.Valid() &&
      60 <= playerLeft.y <= 500 && 60 <= playerRight.y <= 500 &&
      !playerLeft.hasGun && !playerRight.hasGun &&
      playerLeft.isMoving && playerRight.isMoving &&
      (bulletLeft != null ==>
        bulletLeft.isFromLeftPlayer &&
        bulletLeft.width == BULLET_WIDTH && bulletLeft.height == BULLET_HEIGHT) &&
      (bulletRight != null ==>
        !bulletRight.isFromLeftPlayer &&
        bulletRight.width == BULLET_WIDTH && bulletRight.height == BULLET_HEIGHT)
    }

    constructor ()
      ensures Valid()
      ensures !gameStarted && !wPressed && !upPressed
      ensures bulletLeft == null && bulletRight == null
      ensures playerLeft.State() == Players.Motion(Screen.GAME_HEIGHT / 2, Players.SPEED, 1, true, false, 0)
      ensures playerRight.State() == Players.Motion(Screen.GAME_HEIGHT / 2, Players.SPEED, 1, true, false, 0)
    {
      playerLeft := new Players.Player(50, Screen.GAME_HEIGHT / 2, 25, 100, Screen.GAME_HEIGHT, false);
      playerRight := new Players.Player(Screen.GAME_WIDTH - 75, Screen.GAME_HEIGHT / 2, 25, 100, Screen.GAME_HEIGHT, false);
      bulletLeft := null;
      bulletRight := null;
      gameStarted := false;
      wPressed := false;
      upPressed := false;
    }

    /** `move()`: steer both players from the keys, move them, then move each live bullet
        once and empty its slot if that took it out of bounds. */
    method Move()
      requires Valid()
      modifies this, playerLeft, playerRight, bulletLeft, bulletRight
      ensures Valid()
      ensures gameStarted == old(gameStarted) && wPressed == old(wPressed) && upPressed == old(upPressed)
      ensures playerLeft.State() == Players.Moved(
        Players.WithYDirection(old(playerLeft.State()), SteeredDirection(wPressed)), 60, 600, 100)
      ensures playerRight.State() == Players.Moved(
        Players.WithYDirection(old(playerRight.State()), SteeredDirection(upPressed)), 60, 600, 100)
      ensures playerLeft.movementDirection == SteeredDirection(wPressed) || playerLeft.y in {60, 500}
      ensures playerRight.movementDirection == SteeredDirection(upPressed) || playerRight.y in {60, 500}
      ensures old(bulletLeft) == null ==> bulletLeft == null
      ensures old(bulletLeft) != null ==>
        old(bulletLeft).State() == Bullets.Advanced(old(bulletLeft.State()), BULLET_HEIGHT) &&
        bulletLeft == (if old(bulletLeft).IsOutOfBounds(Screen.GAME_WIDTH) then null else old(bulletLeft))
      ensures old(bulletRight) == null ==> bulletRight == null
      ensures old(bulletRight) != null ==>
        old(bulletRight).State() == Bullets.Advanced(old(bulletRight.State()), BULLET_HEIGHT) &&
        bulletRight == (if old(bulletRight).IsOutOfBounds(Screen.GAME_WIDTH) then null else old(bulletRight))
    {
      MovePlayers();
      MoveLeftBullet();
      MoveRightBullet();
    }

    /** The players part of `move()`: steer each player from its key, then move both. */
    method MovePlayers()
      requires Valid()
      modifies playerLeft, playerRight
      ensures Valid()
      ensures playerLeft.State() == Players.Moved(
        Players.WithYDirection(old(playerLeft.State()), SteeredDirection(wPressed)), 60, 600, 100)
      ensures playerRight.State() == Players.Moved(
        Players.WithYDirection(old(playerRight.State()), SteeredDirection(upPressed)), 60, 600, 100)
      ensures playerLeft.movementDirection == SteeredDirection(wPressed) || playerLeft.y in {60, 500}
    {
      if wPressed {
        playerLeft.SetYDirection(-1);
      } else if !wPressed {
        playerLeft.SetYDirection(1);
      }
      if upPressed {
        playerRight.SetYDirection(-1);
      } else if !upPressed {
        playerRight.SetYDirection(1);
      }
      playerLeft.Move();
      playerRight.Move();
    }

    /** The bulletLeft part of `move()`. */
    method MoveLeftBullet()
      requires Valid()
      modifies this, bulletLeft
      ensures Valid()
      ensures gameStarted == old(gameStarted) && wPressed == old(wPressed) && upPressed == old(upPressed)
      ensures bulletRight == old(bulletRight)
      ensures old(bulletLeft) == null ==> bulletLeft == null
      ensures old(bulletLeft) != null ==>
        old(bulletLeft).State() == Bullets.Advanced(old(bulletLeft.State()), BULLET_HEIGHT) &&
        bulletLeft == (if old(bulletLeft).IsOutOfBounds(Screen.GAME_WIDTH) then null else old(bulletLeft))
    {
      if bulletLeft != null {
        bulletLeft.Move();
        if bulletLeft.IsOutOfBounds(Screen.GAME_WIDTH) {
          bulletLeft := null;
        }
      }
    }

    /** The bulletRight part of `move()`. */
    method MoveRightBullet()
      requires Valid()
      modifies this, bulletRight
      ensures Valid()
      ensures gameStarted == old(gameStarted) && wPressed == old(wPressed) && upPressed == old(upPressed)
      ensures bulletLeft == old(bulletLeft)
      ensures old(bulletRight) == null ==> bulletRight == null
      ensures old(bulletRight) != null ==>
        old(bulletRight).State() == Bullets.Advanced(old(bulletRight.State()), BULLET_HEIGHT) &&
        bulletRight == (if old(bulletRight).IsOutOfBounds(Screen.GAME_WIDTH) then null else old(bulletRight))
    {
      if bulletRight != null {
        bulletRight.Move();
        if bulletRight.IsOutOfBounds(Screen.GAME_WIDTH) {
          bulletRight := null;
        }
      }
    }

    /** `checkCollision()`: a bullet that overlaps the opposing player is removed; nothing
        else changes. */
    method CheckCollision()
      requires Valid()
      modifies this
      ensures Valid()
      ensures gameStarted == old(gameStarted) && wPressed == old(wPressed) && upPressed == old(upPressed)
      ensures bulletLeft ==
        (if old(bulletLeft) != null && old(bulletLeft).CollidesWith(playerRight) then null else old(bulletLeft))
      ensures bulletRight ==
        (if old(bulletRight) != null && old(bulletRight).CollidesWith(playerLeft) then null else old(bulletRight))
    {
      if bulletLeft != null && bulletLeft.CollidesWith(playerRight) {
        bulletLeft := null;
      }
      if bulletRight != null && bulletRight.CollidesWith(playerLeft) {
        bulletRight := null;
      }
    }

    /** One tick of the game loop in `run()`: move, then resolve collisions. Both players are
        steered and moved; each live bullet advances once and its slot is emptied when the
        advanced bullet has left the screen or overlaps the opposing player where that player
        now stands. */
    method Tick()
      requires Valid()
      modifies this, playerLeft, playerRight, bulletLeft, bulletRight
      ensures Valid()
      ensures gameStarted == old(gameStarted) && wPressed == old(wPressed) && upPressed == old(upPressed)
      ensures playerLeft.State() == Players.Moved(
        Players.WithYDirection(old(playerLeft.State()), SteeredDirection(wPressed)), 60, 600, 100)
      ensures playerRight.State() == Players.Moved(
        Players.WithYDirection(old(playerRight.State()), SteeredDirection(upPressed)), 60, 600, 100)
      ensures old(bulletLeft) != null ==>
        old(bulletLeft).State() == Bullets.Advanced(old(bulletLeft.State()), BULLET_HEIGHT)
      ensures bulletLeft ==
        (if old(bulletLeft) == null || old(bulletLeft).IsOutOfBounds(Screen.GAME_WIDTH) ||
            old(bulletLeft).CollidesWith(playerRight)
         then null else old(bulletLeft))
      ensures old(bulletRight) != null ==>
        old(bulletRight).State() == Bullets.Advanced(old(bulletRight.State()), BULLET_HEIGHT)
      ensures bulletRight ==
        (if old(bulletRight) == null || old(bulletRight).IsOutOfBounds(Screen.GAME_WIDTH) ||
            old(bulletRight).CollidesWith(playerLeft)
         then null else old(bulletRight))
    {
      Move();
      CheckCollision();
    }

    /** `keyPressed`: before the game starts, Enter starts it and nothing else happens.
        Otherwise (and for every other key before the start) W and UP press that side's fire
        key: the player tries to shoot, and a bullet is spawned beside it only if its slot is
        empty, whatever the shot's outcome; a live bullet is never replaced. */
    method KeyPressed(key: Key, now: int)
      requires Valid()
      modifies this, playerLeft, playerRight
      ensures Valid()
      ensures !old(gameStarted) && key == Enter ==>
        gameStarted && wPressed == old(wPressed) && upPressed == old(upPressed) &&
        bulletLeft == old(bulletLeft) && bulletRight == old(bulletRight) &&
        playerLeft.State() == old(playerLeft.State()) && playerRight.State() == old(playerRight.State())
      ensures old(gameStarted) || key != Enter ==> gameStarted == old(gameStarted)
      ensures key == W ==>
        wPressed && upPressed == old(upPressed) &&
        playerLeft.State() == Players.Shot(old(playerLeft.State()), now).0 &&
        playerRight.State() == old(playerRight.State()) && bulletRight == old(bulletRight) &&
        (old(bulletLeft) != null ==> bulletLeft == old(bulletLeft)) &&
        (old(bulletLeft) == null ==>
          bulletLeft != null && fresh(bulletLeft) && bulletLeft.isFromLeftPlayer &&
          bulletLeft.Bounds() == Rect(playerLeft.x + playerLeft.width,
                                      playerLeft.y + JavaInt.Div(playerLeft.height, 2),
                                      BULLET_WIDTH, BULLET_HEIGHT) &&
          bulletLeft.xVelocity == Bullets.BASE_SPEED && bulletLeft.yVelocity == 0)
      ensures key == Up ==>
        upPressed && wPressed == old(wPressed) &&
        playerRight.State() == Players.Shot(old(playerRight.State()), now).0 &&
        playerLeft.State() == old(playerLeft.State()) && bulletLeft == old(bulletLeft) &&
        (old(bulletRight) != null ==> bulletRight == old(bulletRight)) &&
        (old(bulletRight) == null ==>
          bulletRight != null && fresh(bulletRight) && !bulletRight.isFromLeftPlayer &&
          bulletRight.Bounds() == Rect(playerRight.x,
                                       playerRight.y + JavaInt.Div(playerRight.height, 2),
                                       BULLET_WIDTH, BULLET_HEIGHT) &&
          bulletRight.xVelocity == -Bullets.BASE_SPEED && bulletRight.yVelocity == 0)
      ensures key == Enter || key == OtherKey ==>
        wPressed == old(wPressed) && upPressed == old(upPressed) &&
        bulletLeft == old(bulletLeft) && bulletRight == old(bulletRight) &&
        playerLeft.State() == old(playerLeft.State()) && playerRight.State() == old(playerRight.State())
    {
      if !gameStarted {
        if key == Enter {
          // startGame(): the menu, focus and game thread are not part of this model
          gameStarted := true;
          return;
        }
      }
      match key {
        case W =>
          wPressed := true;
          var _ := playerLeft.Shoot(now);
          if bulletLeft == null {
            bulletLeft := new Bullets.Bullet(playerLeft.x + playerLeft.width,
                                             playerLeft.y + JavaInt.Div(playerLeft.height, 2),
                                             BULLET_WIDTH, BULLET_HEIGHT, true);
          }
        case Up =>
          upPressed := true;
          var _ := playerRight.Shoot(now);
          if bulletRight == null {
            bulletRight := new Bullets.Bullet(playerRight.x,
                                              playerRight.y + JavaInt.Div(playerRight.height, 2),
                                              BULLET_WIDTH, BULLET_HEIGHT, false);
          }
        case _ =>
      }
    }

    /** `keyReleased`: releasing W or UP clears that key and lets only that player resume. */
    method KeyReleased(key: Key, now: int)
      requires Valid()
      modifies this, playerLeft, playerRight
      ensures Valid()
      ensures gameStarted == old(gameStarted)
      ensures bulletLeft == old(bulletLeft) && bulletRight == old(bulletRight)
      ensures key == W ==>
        !wPressed && upPressed == old(upPressed) &&
        playerLeft.State() == Players.Resumed(old(playerLeft.State()), now) &&
        playerRight.State() == old(playerRight.State())
      ensures key == Up ==>
        !upPressed && wPressed == old(wPressed) &&
        playerRight.State() == Players.Resumed(old(playerRight.State()), now) &&
        playerLeft.State() == old(playerLeft.State())
      ensures key == Enter || key == OtherKey ==>
        wPressed == old(wPressed) && upPressed == old(upPressed) &&
        playerLeft.State() == old(playerLeft.State()) && playerRight.State() == old(playerRight.State())
    {
      match key {
        case W =>
          wPressed := false;
          playerLeft.ResumeMovement(now);
        case Up =>
          upPressed := false;
          playerRight.ResumeMovement(now);
        case _ =>
      }
    }
  }
}
