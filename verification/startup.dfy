/** The world before the first frame (`src/main.rs` inserts the resources)
    and the startup system of `game/src/systems/startup.rs`: a camera at the
    origin, the lives bar and game-over overlay, the player at the origin at
    rest, and the load of the current level. */
module Startup {
  import opened Wrappers
  import opened Geometry
  import opened Resources
  import opened Components
  import opened GameWorld
  import opened LevelFormat
  import opened LevelSystem
  import opened Ui
  import opened PlayerSystem

  /** No entities yet; three lives of three, running, `level1` current, no
      pending start, no level request and no level start recorded. */
  function InitialWorld(): (w: World)
    ensures w.players == [] && w.cameras == [] && w.entities == [] && w.overlays == [] && w.hearts == []
    ensures w.lives == Lives(3, 3) && w.state == Running && w.manager.current == "level1"
    ensures w.pending.None? && w.request.None? && w.levelStart.None?
  {
    World([], [], [], [], [], InitialLives, Running, None, InitialPending, InitialManager, InitialRequest)
  }

  /** The player as spawned: at the origin, 32 by 32, at rest, no jump. */
  function SpawnedPlayer(): (p: Player)
    ensures p.pos == Vec2(0.0, 0.0) && p.vel == Vec2(0.0, 0.0) && p.size == Vec2(32.0, 32.0)
    ensures !p.jump.jumping && p.jump.holdMs == 0.0 && p.jump.jumpsUsed == 0
  {
    Player(Zero, PlayerSize, DefaultVelocity, DefaultJump)
  }

  /** `setup`: camera, UI, player, then the current level through the
      loader. The player stays at the origin until the pending start that a
      successful load leaves is applied. */
  function Setup(w: World, read: Reader): (r: World)
    ensures r.cameras == w.cameras + [Zero]
    ensures r.players == w.players + [SpawnedPlayer()]
    ensures r.hearts == SetupUi(w).hearts && r.overlays == w.overlays + [Hidden]
    ensures read(w.manager.current).None? ==>
      r.entities == w.entities && r.pending == w.pending && r.levelStart == w.levelStart
    ensures read(w.manager.current).Some? ==>
      var def := read(w.manager.current).value;
      && r.entities == w.entities + LevelEntities(def)
      && r.pending == Some(StartPoint(def))
      && r.levelStart == Some(StartPoint(def))
    ensures r.lives == w.lives && r.state == w.state && r.manager == w.manager && r.request == w.request
  {
    var withCamera := w.(cameras := w.cameras + [Zero]);
    var withUi := SetupUi(withCamera);
    var withPlayer := withUi.(players := withUi.players + [SpawnedPlayer()]);
    LoadLevel(withPlayer, read, w.manager.current)
  }

  /** From the initial world, startup followed by the first application of
      the pending start leaves one player and one camera; when `level1`
      loads, the player stands at rest on its start and the camera is
      centred on it horizontally, otherwise both stay at the origin. */
  lemma StartupPlacesPlayer(read: Reader)
    ensures var r := ApplyPendingStart(Setup(InitialWorld(), read));
            && |r.players| == 1 && |r.cameras| == 1 && r.pending.None?
            && r.players[0].vel == Zero && r.players[0].jump == DefaultJump
            && (read("level1").Some? ==>
                  r.players[0].pos == StartPoint(read("level1").value) &&
                  r.cameras[0] == Vec2(StartPoint(read("level1").value).x, 0.0))
            && (read("level1").None? ==> r.players[0].pos == Zero && r.cameras[0] == Zero)
  {
    var s := Setup(InitialWorld(), read);
    assert s.players == [SpawnedPlayer()] && s.cameras == [Zero];
  }
}
