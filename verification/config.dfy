/** Tunables of the game (`src/config.rs`). Loading them from `config.toml`
    is not modelled; every system takes a `GameConfig` as a parameter. */
module Config {
  import opened Wrappers
  import opened Resources

  datatype JumpCfg = JumpCfg(velocity: real, maxHoldMs: real, cutFactor: real, maxJumps: U8)

  datatype CameraCfg = CameraCfg(
    lagS: real,
    lookaheadS: real,
    noiseAmp: real,
    noiseFreqHz: real,
    noiseAmpX: Option<real>,
    noiseAmpY: Option<real>)

  datatype GameConfig = GameConfig(
    maxSpeed: real,
    acceleration: real,
    deceleration: real,
    gravity: real,
    jump: JumpCfg,
    camera: CameraCfg)

  /** `GameConfig::default()`. */
  const DefaultConfig: GameConfig := GameConfig(
    300.0, 2000.0, 1800.0, 1400.0,
    JumpCfg(600.0, 180.0, 0.5, 2),
    CameraCfg(0.15, 0.25, 2.0, 0.7, None, None))
}
