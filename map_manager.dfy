/** Map selection and asset names (duel/MapManager.java). */
module Maps {
  import JavaRandom

  /** A map's background image and the obstacle image that goes with it. */
  datatype MapData = MapData(backgroundImage: string, obstacleImage: string)

  const MAPS: seq<MapData> := [
    MapData("grassBackground.png", "Bush.png"),
    MapData("snowBackground.png", "Igloo.png"),
    MapData("dirtBackground.png", "Boulder.png")
  ]

  const POWERUP_TYPES: seq<string> := ["Bomb.png", "Freeze.png", "BigBullet.png"]

  /** The asset pairs the game ships: each background has exactly one obstacle image. */
  predicate Paired(background: string, obstacle: string)
  {
    (background == "grassBackground.png" && obstacle == "Bush.png") ||
    (background == "snowBackground.png" && obstacle == "Igloo.png") ||
    (background == "dirtBackground.png" && obstacle == "Boulder.png")
  }

  /** `POWERUP_TYPES[roll]` for an index drawn by `nextInt(POWERUP_TYPES.length)`. */
  function PowerupTypeAt(roll: int): (t: string)
    requires 0 <= roll < |POWERUP_TYPES|
    ensures t == "Bomb.png" || t == "Freeze.png" || t == "BigBullet.png"
  {
    POWERUP_TYPES[roll]
  }

  class MapManager {
    var currentMap: MapData
    const random: JavaRandom.Random

    predicate Valid()
      reads this
    {
      currentMap in MAPS
    }

    constructor (source: nat -> nat)
      ensures Valid() && fresh(random) && random.source == source
      ensures currentMap == MAPS[source(0) % |MAPS|] && random.drawn == 1
    {
      random := new JavaRandom.Random(source);
      currentMap := MAPS[0];
      new;
      RandomizeMap();
    }

    method RandomizeMap()
      modifies this, random
      ensures Valid()
      ensures currentMap == MAPS[random.source(old(random.drawn)) % |MAPS|]
      ensures random.drawn == old(random.drawn) + 1
    {
      var i := random.NextInt(|MAPS|);
      currentMap := MAPS[i];
    }

    function GetBackgroundImage(): (s: string)
      reads this
      requires Valid()
      ensures s == "grassBackground.png" || s == "snowBackground.png" || s == "dirtBackground.png"
    {
      currentMap.backgroundImage
    }

    /** The obstacle image always belongs to the same map as the background. */
    function GetObstacleImage(): (s: string)
      reads this
      requires Valid()
      ensures Paired(GetBackgroundImage(), s)
    {
      currentMap.obstacleImage
    }

    /** Draws a power-up type; the current map is untouched (only `random` is modified). */
    method GetRandomPowerupType() returns (t: string)
      modifies random
      ensures t == PowerupTypeAt(random.source(old(random.drawn)) % |POWERUP_TYPES|)
      ensures t in POWERUP_TYPES
      ensures random.drawn == old(random.drawn) + 1
    {
      var i := random.NextInt(|POWERUP_TYPES|);
      t := POWERUP_TYPES[i];
    }
  }
}
