/** World constants and game-wide resources of the game (`src/resources.rs`),
    with the initial values `src/main.rs` inserts. */
module Resources {
  import opened Wrappers
  import opened Geometry

  /** Rust's `u8`. */
  type U8 = x: int | 0 <= x < 256

  /** Height of the floor line the camera keeps in view. */
  const GroundY: real := -150.0

  /** The player's box, 32 by 32 world units. */
  const PlayerSize: Vec2 := Vec2(32.0, 32.0)

  /** Half the player's box along each axis (the box is square). */
  const PlayerHalf: real := PlayerSize.x / 2.0

  datatype Lives = Lives(current: U8, max: U8)

  datatype GameState = Running | GameOver

  /** `LevelManager`: the name of the level that is active. */
  datatype LevelManager = LevelManager(current: string)

  /** The lives the game starts with (three of three). */
  const InitialLives: Lives := Lives(3, 3)

  /** `LevelManager` as first inserted. */
  const InitialManager: LevelManager := LevelManager("level1")

  /** `PendingStart::default()` and `LevelRequest::default()` are empty. */
  const InitialPending: Option<Vec2> := None
  const InitialRequest: Option<string> := None

  /** `LevelStart::default()`, used wherever the resource is absent. */
  const DefaultLevelStart: Vec2 := Zero

  /** Where a respawn goes: the recorded level start, or the origin when no
      level has finished loading yet. */
  function RespawnPoint(levelStart: Option<Vec2>): (p: Vec2)
    ensures levelStart.None? ==> p == Vec2(0.0, 0.0)
    ensures levelStart.Some? ==> p == levelStart.value
  {
    levelStart.GetOr(DefaultLevelStart)
  }
}
