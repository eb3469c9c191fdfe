# Top-Down Duel: a verified model of the game core

This project models the core of a two-player Java duel game in Dafny and proves properties of it.
In the game, each player patrols one vertical edge of a 1000 x 600 arena and fires a single bullet at a time.
The model covers:

- **Players** (`player.dfy`, duel/Player.java):
  - vertical patrol between a top margin of `screenHeight / 10` and the bottom edge;
  - steering by `setYDirection`;
  - the shot that pauses movement for 250 ms and gives up the gun;
  - the "dodge" reversal of an unarmed player.
- **Bullets** (`bullet.dfy`, duel/Bullet.java):
  - straight-line integer motion with a vertical bounce;
  - the deflection off an obstacle, including Java's double division by zero;
  - the out-of-bounds test;
  - collision as `java.awt.Rectangle.intersects`.
- **The game panel** (`game_panel.dfy`, duel/GamePanel.java):
  - one tick of the game loop (`move`, then `checkCollision`);
  - the key handlers that start the game, fire bullets into the two single-bullet slots and resume movement.
- **Score** (`score.dfy`, duel/Score.java).
- **Obstacles** (`obstacle.dfy`, duel/Obstacle.java):
  - bounded rejection sampling of five image-sized rectangles in the middle band;
  - the inner do-while loop, which may give up after ten attempts.
- **Power-ups** (`powerup.dfy`, duel/Powerup.java):
  - placement of up to three power-ups in a band, at least 55 px apart;
  - the used-at timestamps and regeneration after 7000 ms;
  - activation, which retires a power-up and returns its type tag.
- **Maps** (`map_manager.dfy`, duel/MapManager.java):
  - the three background/obstacle pairs;
  - the power-up type names and the random choices among them.

The model also has support modules:

- `java_int.dfy`: Java's truncating `int` division.
- `java_random.dfy`: `java.util.Random.nextInt`. It is an object holding the number of draws made and an arbitrary source of values. Contracts state how many draws each operation makes. For obstacles, and for the power-ups one `generatePowerups` call places, they also state which draws produced each placed item and that every attempt that placed nothing was rejected for cause. For the power-ups `update` adds over several calls, only the draw counts are stated.
- `geometry.dfy`: points, rectangles and sizes.
- `powerup.dfy` holds two modules: `PowerupPlacement`, the pure definitions and lemmas of placement, and `Powerups`, the `Powerup` class.
- `screen.dfy`: the panel's `GAME_WIDTH` and `GAME_HEIGHT`.
- `option.dfy`: an `Option` type.

Each Java class whose fields change in place is a Dafny `class` with the same fields.
Its methods are proved against pure specification functions over a value record of those fields: `Players.Motion` for a player and `Bullets.Flight` for a bullet.
The properties of the game are proved about those functions.

## Behaviour modelled as the code has it

- **Player constructor.** The constructor's check "if `y < TOP_MARGIN` then `y = TOP_MARGIN`" assigns the parameter, not the field. A player therefore starts at the `y` it was given, even above the margin.
- **Steering overrides the bounce.** Every tick, the panel calls `setYDirection(-1)` or `setYDirection(1)` from the key state before `move`. So the reversal `move` makes at an edge lasts only until the next tick. A player held against an edge stays clamped there. Only the key decides the patrol direction.
- **No gun in this revision.** Both players are built with `hasGun = false`, and nothing arms them. `shoot` therefore never fires and never stops a player. It only reverses the direction, and the next tick's steering overrides that too.
- **Bullets and the shot.** A bullet is spawned whenever that side's slot is empty, whatever `shoot` returns.
- **Bullet position.** A bullet's vertical velocity is reversed when the bullet is outside the vertical band, but its position is never pulled back into the band.
- **Bullet deflection.** `bounceOffObstacle` sets the vertical speed to `(int)(distance / (obstacle.height / 2) * 5)`.
  - When `obstacle.height / 2` is zero, this is a division by `0.0`. It gives `Integer.MAX_VALUE`, `Integer.MIN_VALUE` or `0`, by the sign of the distance.
- **Spawn grace window.** `spawnTimes` is never inserted into. Every operation of the power-up field only removes from it or keeps it. From the constructor on, the 500 ms grace check of `activatePowerup` therefore never blocks.
- **Missing power-up type.** `activatePowerup` on a position with no recorded type (its image failed to load) has already removed the position and stamped its use when `String.replace` throws `NullPointerException`. The model returns `MissingType` with that state.

This revision of the code does not implement the following, so the model has none of them either:

- a turn coordinator, freeze and invincibility timers;
- reflection off circular obstacles;
- bullet splitting;
- pulling a position back into its band once it has left it;
- a guarded segment-circle test.

## Model

| member | source | states |
|---|---|---|
| JavaInt.Div | duel/Bullet.java:65-66 | Java's `int` division: `\|q*b\| <= \|a\| < \|q*b\| + \|b\|`, and `q*b` is zero or has the sign of `a` (truncation toward zero) |
| Geometry.IntersectsIffShareCell | duel/Bullet.java:81-83 | `Rectangle.intersects` holds exactly when the two boxes share an integer cell, and it is symmetric |
| JavaRandom.Random.NextInt | duel/Obstacle.java:56-57 | `nextInt(bound)` needs a positive bound, returns a value in `[0, bound)` and consumes exactly one draw |
| Players.WithYDirection | duel/Player.java:73-80 | a positive argument sets direction 1, a negative one -1, zero flips it; velocity becomes `direction * SPEED` as given; nothing else changes |
| Players.Reversed | duel/Player.java:85-88 | the player turns round and moves at full speed the new way; nothing else changes |
| Players.Moved | duel/Player.java:94-111 | a stopped player stays put; a moving one advances by its velocity when that keeps it inside the band; otherwise it stops at the top margin when it would pass above it, or at `screenHeight - height` when it would pass below, and turns round; it ends inside [top margin, screenHeight - height] |
| Players.Shot | duel/Player.java:114-131 | fires exactly when cooled down and armed; inside the cooldown nothing changes; a shot disarms, stops and stamps the time; an unarmed player turns round instead |
| Players.Resumed | duel/Player.java:134-139 | after the cooldown the player moves again at full speed in its current direction; before it, nothing changes |
| Players.ReversedTwice | duel/Player.java:85-88 | reversing twice restores a player travelling at full speed |
| Players.ShotPausesMovement | duel/Player.java:114-139 | after a shot the player stands still until exactly 250 ms later, then resumes in its old direction at full speed |
| Players.StaysInBand | duel/Player.java:94-111 | a player inside the band stays inside it after any number of moves |
| Players.Player.constructor | duel/Player.java:32-51 | top margin is `screenHeight / 10`; the player moves down at SPEED; the given `y` is kept |
| Players.Player.SetYDirection | duel/Player.java:73-80 | new state is `WithYDirection` of the old |
| Players.Player.GetYDirection | duel/Player.java:81-84 | returns the current direction, which is always 1 or -1 |
| Players.Player.ReverseDirection | duel/Player.java:85-88 | new state is `Reversed` of the old |
| Players.Player.Move | duel/Player.java:94-111 | new state is `Moved` of the old, with the player's margin and height |
| Players.Player.Shoot | duel/Player.java:114-131 | new state and result are `Shot` of the old state and the time |
| Players.Player.ResumeMovement | duel/Player.java:134-139 | new state is `Resumed` of the old |
| Players.Player.SetHasGun | duel/Player.java:159-161 | only the gun flag changes |
| Players.Player.HasGun | duel/Player.java:163-165 | returns the gun flag |
| Bullets.Advanced | duel/Bullet.java:49-57 | position advances by the velocity; horizontal velocity kept; vertical velocity flips exactly when the new position is off the vertical band, so its size is kept |
| Bullets.StraightFlight | duel/Bullet.java:49-57 | after n moves a bullet is `n * xVelocity` further along, with the same horizontal speed and vertical speed magnitude |
| Bullets.DeflectionSpeed | duel/Bullet.java:64-72 | the new vertical speed is within [-5, 5] when the hit is within half the obstacle's height of its centre, 0 at the centre, ±5 at the edges, signed by the offset; a zero half height gives the int extremes or 0 |
| Bullets.ScaledQuotient | duel/Bullet.java:69-72 | the truncated quotient `5 * distance / half` has the bounds, exact values and signs listed for `DeflectionSpeed` |
| Bullets.Deflected | duel/Bullet.java:60-73 | bouncing keeps the position, reverses the horizontal velocity, and sets the vertical velocity from the centre offset |
| Bullets.Bullet.constructor | duel/Bullet.java:24-32 | a new bullet flies horizontally at BASE_SPEED away from its shooter |
| Bullets.Bullet.Move | duel/Bullet.java:49-57 | new state is `Advanced` of the old |
| Bullets.Bullet.BounceOffObstacle | duel/Bullet.java:60-73 | new state is `Deflected` of the old |
| Bullets.Bullet.IsOutOfBounds | duel/Bullet.java:76-78 | a bullet is in bounds exactly when `0 <= x <= screenWidth` |
| Bullets.Bullet.CollidesWith | duel/Bullet.java:81-83 | a bullet collides with a player exactly when their boxes share a cell |
| Panel.GamePanel.constructor | duel/GamePanel.java:31-46 | two unarmed 25 x 100 players at x = 50 and x = 925, both at y = 300 moving down; empty slots; game not started |
| Panel.GamePanel.Move | duel/GamePanel.java:74-103 | each player's new state is `Moved` of its state steered up while its key is held and down otherwise; each live bullet's new state is `Advanced` of its old one, and its slot is emptied exactly when the moved bullet is out of bounds; an empty slot stays empty; the invariant (players inside [60, 500], unarmed, moving) is kept |
| Panel.GamePanel.MovePlayers | duel/GamePanel.java:76-87 | each player's new state is `Moved` of its state steered by its key; each player ends facing the way its key says unless it ends at an edge (60 or 500) |
| Panel.GamePanel.MoveLeftBullet | duel/GamePanel.java:89-95 | the left bullet advances and is dropped exactly when out of bounds |
| Panel.GamePanel.MoveRightBullet | duel/GamePanel.java:96-102 | the right bullet advances and is dropped exactly when out of bounds |
| Panel.GamePanel.CheckCollision | duel/GamePanel.java:105-115 | a bullet is removed exactly when it collides with the opposing player |
| Panel.GamePanel.Tick | duel/GamePanel.java:127-129 | both players move as in `Move`; each live bullet advances once; a slot is emptied exactly when its bullet has left the screen or overlaps the opposing player where that player now stands; an empty slot stays empty; the invariant is kept |
| Panel.GamePanel.KeyPressed | duel/GamePanel.java:136-165 | before the start, Enter only starts the game; W/UP set the key, make the player shoot and spawn a bullet beside it only into an empty slot; other keys change nothing |
| Panel.GamePanel.KeyReleased | duel/GamePanel.java:167-178 | W/UP clear the key and let only that player resume; other keys change nothing |
| Scores.Score.constructor | duel/Score.java:13-16 | both scores start at 0 |
| Scores.Score.ScoreLeftPlayer | duel/Score.java:19-21 | the left score grows by one, the right is kept |
| Scores.Score.ScoreRightPlayer | duel/Score.java:24-26 | the right score grows by one, the left is kept |
| Scores.Score.GetLeftPlayerScore | duel/Score.java:29-31 | returns the left score |
| Scores.Score.GetRightPlayerScore | duel/Score.java:34-36 | returns the right score |
| Scores.Score.Reset | duel/Score.java:57-60 | both scores return to 0 |
| Maps.PowerupTypeAt | duel/MapManager.java:32-36 | every power-up type is "Bomb.png", "Freeze.png" or "BigBullet.png" |
| Maps.MapManager.constructor | duel/MapManager.java:42-45 | a new manager has drawn one random map |
| Maps.MapManager.RandomizeMap | duel/MapManager.java:48-50 | the current map is the table entry picked by one draw |
| Maps.MapManager.GetBackgroundImage | duel/MapManager.java:53-55 | the background is one of the three shipped backgrounds |
| Maps.MapManager.GetObstacleImage | duel/MapManager.java:58-60 | the obstacle image always belongs to the same map as the background |
| Maps.MapManager.GetRandomPowerupType | duel/MapManager.java:63-65 | returns the type picked by one draw, one of the three; the current map is untouched |
| Obstacles.ObstacleField.constructor | duel/Obstacle.java:16-18 | no image and no obstacles at first |
| Obstacles.ObstacleField.LoadObstacleImage | duel/Obstacle.java:29-36 | the image is the loaded size or none, and the list is untouched |
| Obstacles.ObstacleField.GetObstacles | duel/Obstacle.java:89-91 | returns the current obstacle list |
| Obstacles.ObstacleField.OverlapsExisting | duel/Obstacle.java:62-69 | true exactly when the candidate intersects some obstacle already placed |
| Obstacles.ObstacleField.GenerateObstacles | duel/Obstacle.java:39-79 | the list is cleared, and stays empty without an image. With one, exactly five image-sized obstacles lie in the band; obstacle k is the candidate drawn by its own last attempt, after 1 to 10 attempts of two draws each; every attempt before the last drew a candidate that intersects an earlier obstacle; obstacle k overlaps an earlier one only after 10 attempts; the call makes exactly two draws per attempt. A band the image does not fit makes `nextInt` throw |
| Obstacles.ObstacleField.DrawObstacle | duel/Obstacle.java:52-71 | 1 to 10 attempts of two draws each; every attempt before the last drew a candidate that intersects a placed obstacle, so the loop stops at the first one that misses; the result is the candidate of the last attempt, and it intersects a placed obstacle only when it is the 10th |
| Obstacles.ObstacleField.PlaceObstacles | duel/Obstacle.java:49-77 | five obstacles are appended, each the last candidate of its do-while loop after earlier candidates that all intersected a placed obstacle, as `GeneratedAt` states, with two draws per attempt |
| Obstacles.RejectedPrefix | duel/Obstacle.java:62-69 | whether earlier candidates intersected the first k obstacles depends only on those k obstacles |
| Obstacles.RejectedExtend | duel/Obstacle.java:52-71 | an attempt whose candidate intersects a placed obstacle extends the run of rejected attempts by one |
| Obstacles.GeneratedAtKept | duel/Obstacle.java:49-77 | appending an obstacle keeps everything `GeneratedAt` says of an earlier one |
| Obstacles.GeneratedAtLast | duel/Obstacle.java:52-76 | the last candidate of a do-while loop whose earlier attempts all intersected a placed obstacle is what `GeneratedAt` asks of the obstacle it appends |
| Obstacles.GeneratedAppend | duel/Obstacle.java:52-76 | appending the last candidate of one more do-while loop keeps what is promised of every obstacle so far, and adds its attempts to the draw count |
| PowerupPlacement.StandardBand | duel/Powerup.java:72-83 | in a 1000 x 600 game power-ups are placed at x in [250, 700) and y in [72, 478) |
| PowerupPlacement.RootBelowOverlapDistance | duel/Powerup.java:145-150 | `sqrt(d) < 55` exactly when the squared distance `d < 3025` |
| PowerupPlacement.PickedFromAt | duel/Powerup.java:81-93 | the k-th position a run of attempts appended is the candidate drawn by one of the attempts made |
| PowerupPlacement.PickedFromIncreasing | duel/Powerup.java:81-93 | the attempts that placed the appended positions are strictly increasing, so the positions are in drawing order |
| PowerupPlacement.AgreesThen | duel/Powerup.java:86-91 | two changes that each keep the image, or the type, of the live positions keep them together |
| PowerupPlacement.RejectedFromMiss | duel/Powerup.java:86-92 | an attempt whose candidate is live, within 55 px of a live power-up or over an obstacle adds one rejected attempt to the run |
| PowerupPlacement.RejectedFromFrame | duel/Powerup.java:86-91 | every rejection stays a rejection when the list grows and the live positions keep their images |
| PowerupPlacement.RejectedFromHit | duel/Powerup.java:86-92 | an attempt that appends its candidate becomes the next pick, and every earlier rejection stays one |
| PowerupPlacement.RunAttempt | duel/Powerup.java:81-92 | one attempt that places its candidate exactly when it is new, clear of the live power-ups and of the obstacles extends the run record: the candidate is the next two draws, a placement appends it as the next pick, a miss is a rejection, and the live positions keep their images and types |
| PowerupPlacement.RunEnd | duel/Powerup.java:71-94 | a run record states, on the list it led to, that the list extends the old one by the picked candidates, that every other attempt was rejected, the draw count, and the kept images and types |
| PowerupPlacement.CrowdingAppend | duel/Powerup.java:86-89 | appending a candidate that is 55 px clear of every live power-up, and loading only its own image, keeps every later position clear of the ones before it |
| PowerupPlacement.RemoveFirst | duel/Powerup.java:231 | `ArrayList.remove(Object)` removes one occurrence: the multiset loses exactly one copy of the element, and a list without it is unchanged |
| PowerupPlacement.RemoveFirstDistinct | duel/Powerup.java:231 | removing from a list without repeats leaves no copy and no repeats |
| PowerupPlacement.RemoveFirstMembers | duel/Powerup.java:231 | removal keeps exactly the other members |
| PowerupPlacement.RemoveFirstLength | duel/Powerup.java:231 | removing a present element shortens the list by one |
| PowerupPlacement.WithoutPng | duel/Powerup.java:236 | `replace(".png", "")` never lengthens a string and leaves a string without a dot unchanged |
| PowerupPlacement.WithoutPngStripsExtension | duel/Powerup.java:236 | a dotless name followed by ".png" loses exactly its extension |
| PowerupPlacement.TypeTags | duel/Powerup.java:236-262 | each power-up type's tag is its name without ".png": "Bomb", "Freeze" or "BigBullet" |
| Powerups.Powerup.constructor | duel/Powerup.java:33-43 | all collections start empty and a fresh random source is used |
| Powerups.Powerup.GetPowerupPositions | duel/Powerup.java:283-285 | returns the live positions |
| Powerups.Powerup.LoadPowerupImage | duel/Powerup.java:46-58 | draws exactly one type from the map manager, and the recorded type is that draw; if its image loads, image and type are recorded for the position and the radius becomes `(int)(min(w, h) * 0.45)`; otherwise nothing changes |
| Powerups.Powerup.CheckOverlap | duel/Powerup.java:124-185 | true exactly when the candidate's centre is under 55 px from a live power-up's centre, or the obstacle branch reports an overlap |
| Powerups.Powerup.GeneratePowerups | duel/Powerup.java:71-94 | at most 20 attempts of two draws each; each appended position is the candidate of one of this call's attempts, in drawing order; every other attempt drew a candidate that was live, within 55 px of a live power-up or over an obstacle when it was drawn; the loop stops right after the `count`-th placement, and places fewer only after all 20 attempts; at most `count` are appended, all in the band, distinct and spaced from earlier ones and from obstacles; one type is drawn per placement; the old positions keep their images and types; the live count stays at most 3 |
| Powerups.Powerup.Attempt | duel/Powerup.java:82-92 | one attempt draws the candidate from the next two draws and places it exactly when it is not live, not within 55 px of a live power-up and clear of obstacles; a placement appends it and records the type drawn, a miss changes nothing else; the old positions keep their images and types |
| Powerups.Powerup.Step | duel/Powerup.java:81-92 | one pass of the loop extends the run record as `RunAttempt` states, and draws one type exactly when it places |
| Powerups.Powerup.Place | duel/Powerup.java:86-91 | the candidate is appended and its image loaded with the type drawn next, keeping the invariant and the spacing |
| Powerups.Powerup.GeneratePowerupPositions | duel/Powerup.java:61-68 | positions, images, types and used entries are cleared; then up to 3 positions are placed, each the candidate of one of this call's attempts in drawing order, spaced; every other attempt was rejected for cause; the loop stops after the third placement or after 20 attempts; two draws per attempt and one type drawn per placement |
| Powerups.Powerup.RegeneratePowerups | duel/Powerup.java:266-271 | the same outcome as `generatePowerupPositions`: cleared, then refilled from this call's draws, with the same rejections and stop rule |
| Powerups.Powerup.Update | duel/Powerup.java:207-221 | exactly the used entries at least 7000 ms old are dropped and the rest kept unchanged; live positions only grow, by at most one per dropped entry, never beyond 3, each new one spaced; two draws per new power-up at least and, unless the list ends full, 40 = 2 * MAX_ATTEMPTS draws for every drop that added none; one type draw per new power-up; the old positions keep their images and types; with nothing dropped, the positions, images, types, radius and both draw counts are unchanged |
| Powerups.Powerup.Visit | duel/Powerup.java:212-219 | an entry at least 7000 ms old is dropped and, while fewer than 3 are live, one placement is tried: it adds one power-up for 2 to 40 draws or none for all 40, with that run's picks and rejections as `GeneratePowerups` states them; the old positions keep their images and types; a younger entry or a full list leaves the positions, images, types, radius and both draw counts unchanged |
| PowerupPlacement.ExpiringStep | duel/Powerup.java:211-214 | visiting one pending entry drops it exactly when it is at least 7000 ms old, which counts one more dropped entry, and keeps the other entries' times |
| Powerups.Powerup.Retire | duel/Powerup.java:230-233 | the position leaves the live list and the image map, and its use is stamped |
| Powerups.Powerup.ActivatePowerup | duel/Powerup.java:224-263 | inside the grace window nothing changes, which never happens while `spawnTimes` is empty; otherwise the power-up is retired and its stripped type tag returned, or `MissingType` where Java throws; types are untouched and `spawnTimes` never grows |

## Left out

- Rendering, images, sound, menus, dialogs and the game thread's timing are not modelled. This covers `draw`, `paint`, `run`'s frame pacing, `startGame`'s menu and thread effects, and the other classes of the game.
- Image loading is not modelled. An image is its size, or none when `ImageIO` fails; for power-ups this is a function from type name to size.
- A missing resource makes `ImageIO.read` throw an uncaught `IllegalArgumentException`. The model does not capture this.
- Bullet image resizing (`loadBulletImage`, `resize`) is not modelled.
- `Player.isLeftPlayer` is not modelled. It only selects images.
- `Powerup.lineIntersectsCircle`, `getCircleCenter` and `getPowerupImage` are not modelled. They are floating-point queries for collision code that is not part of this model.
- The Bomb, Freeze and BigBullet effects of `activatePowerup` are not modelled. They call `Bullet` methods that duel/Bullet.java does not define; only the returned tag is kept.
- The obstacle branch of `Powerup.checkOverlap` and `setObstacle` are left abstract, as a function fixed at construction. That branch calls `Obstacle.getObstacleImage`, which duel/Obstacle.java does not define.
- A null `obstaclePositions` list is not modelled; the lists here are values.
- The clock is not modelled. `System.currentTimeMillis()` is a `now` parameter of each operation that reads it.
- `java.util.Random` is not modelled. Each random object draws from a source function fixed at construction.
- Java `int` and `long` overflow is not modelled. Integers are unbounded.
- Floating point is not modelled. Products with 0.1, 0.12, 0.45 and 5 are taken as exact: `(int)(h * 0.1)` is `h / 10`, `(int)(h * 0.12)` is `12 * h / 100`, and `Math.sqrt(d) < 55` is `d < 3025`.
- Key events and game ticks are atomic here. In Java the key handlers run on the event thread while `run` ticks on the game thread, and their interleaving is not modelled.
- Powerups.Powerup.GetPowerupPositions returns the list as a value. Java returns the live `ArrayList`, which a caller could mutate; that aliasing is not modelled.
- Powerups.Powerup.LoadPowerupImage: when `ImageIO.read` returns null, Java records the type and a null image and then throws `NullPointerException` at `getWidth`. The model's failed load records nothing.
- Powerups.Powerup.ActivatePowerup reads the clock once. Java reads `System.currentTimeMillis()` twice, for the grace check and for the used-at stamp; both are `now` here.
- Powerups.Powerup.GeneratePowerups states which draws produced each position, but not which type draw went with which position. The types drawn are stated per placement by `Attempt` and `Place`.
- Powerups.Powerup.Update ties the positions it adds to its draws only by count. Each `generatePowerups(1)` call's picks and rejections are stated by `Visit`. `Update` does not chain them across the entries it visits, which come in an arbitrary order, because that combined record was too costly to prove.
- `HashMap` iteration order in `Powerup.update` is not modelled. The next used entry is chosen arbitrarily, and the contract holds for every order.
- Obstacles.ObstacleField.GetObstacles returns the list as a value. Callers cannot alias and mutate the static Java list through it.
- Powerups.Powerup.constructor requires a game large enough that both `nextInt` bounds of `generatePowerups` are positive. In smaller games Java throws `IllegalArgumentException` there; the model does not cover that case.
- Powerups.Powerup.GeneratePowerups requires `count` to be at most `3 - |powerupPositions|`. All of its callers meet this, so it is weaker than Java only for calls the program never makes.
