/** Per-entity components of the game (`src/components.rs`). Velocity is a
    plain `Vec2`; the `LevelEntity` marker is the `levelEntity` flag of
    `Entity`; `Ground` and `Exit` are the two kinds of level geometry. */
module Components {
  import opened Geometry
  import opened Resources

  /** `JumpState`: whether the jump button is still being held for the
      current jump, how long it has been held (ms) and how many jumps have
      been spent since the last landing. */
  datatype JumpState = JumpState(jumping: bool, holdMs: real, jumpsUsed: U8)

  /** `JumpState::default()`. */
  const DefaultJump: JumpState := JumpState(false, 0.0, 0)

  /** `Velocity::default()`. */
  const DefaultVelocity: Vec2 := Zero

  /** `Exit`: the level it leads to and its box size. */
  datatype Exit = Exit(next: string, size: Vec2)

  /** What a level-geometry entity is: a ground rectangle (its sprite size)
      or an exit. `Scenery` stands for any other entity in the same storage
      (particles, background), which level code never creates. */
  datatype Kind = Ground(size: Vec2) | ExitDoor(exit: Exit) | Scenery

  /** An entity with a transform; `levelEntity` is the `LevelEntity` marker
      that a level switch uses to tear the level down. */
  datatype Entity = Entity(pos: Vec2, kind: Kind, levelEntity: bool)

  /** The player entity: transform, sprite size, velocity and jump state. */
  datatype Player = Player(pos: Vec2, size: Vec2, vel: Vec2, jump: JumpState)

  datatype Visibility = Hidden | Visible

  /** A heart in the lives bar: `HeartSlot(index)` and whether it shows full. */
  datatype Heart = Heart(slot: nat, full: bool)
}
