/** The game as a whole: the systems `src/main.rs` registers for each frame,
    the invariant they all keep, and the round of life, death and restart.
    Bevy runs the systems of one frame in an order it chooses, so the
    invariant is proved for every sequence of system runs, not for one. */
module Lifecycle {
  import opened Wrappers
  import opened Geometry
  import opened Resources
  import opened Components
  import opened Config
  import opened GameWorld
  import opened LevelFormat
  import opened LevelSystem
  import opened Ui
  import opened CameraFollow
  import opened PlayerSystem
  import opened Startup

  /** One run of one system, with what it reads from outside the world:
      keyboard, clocks, windows, the level reader and change detection. */
  datatype SystemRun =
    | PhysicsRun(tick: Tick, bitsOf: real -> bv32, lucky: bv32 -> bool)
    | CameraRun(tr: Transcendentals, dt: real, t: real, windows: seq<real>)
    | RestartRun(spacePressed: bool)
    | ExitRun
    | TransitionRun(read: Reader)
    | PendingRun
    | DeathRun
    | LivesUiRun(livesChanged: bool)

  /** One system run. Only the level transition touches the entity store
      or the current level; every other system leaves the geometry the
      physics and exit queries see as it was. */
  function Apply(cfg: GameConfig, s: SystemRun, w: World): (r: World)
    ensures !s.TransitionRun? ==> r.entities == w.entities && r.manager == w.manager
  {
    match s
    case PhysicsRun(tick, bitsOf, lucky) => PhysicsSystem(cfg, tick, bitsOf, lucky, w).0
    case CameraRun(tr, dt, t, windows) => CameraSystem(tr, cfg, dt, t, windows, w)
    case RestartRun(space) => GameOverRestart(w, space)
    case ExitRun => ExitDetection(w)
    case TransitionRun(read) => LevelTransition(w, read)
    case PendingRun => ApplyPendingStart(w)
    case DeathRun => DeathCheck(w)
    case LivesUiRun(changed) => UpdateLivesUi(w, changed)
  }

  /** The world after a sequence of system runs. */
  function RunAll(cfg: GameConfig, runs: seq<SystemRun>, w: World): (r: World)
    ensures |runs| == 0 ==> r == w
    ensures (forall i :: 0 <= i < |runs| ==> !runs[i].TransitionRun?) ==>
      r.entities == w.entities && r.manager == w.manager
    decreases |runs|
  {
    if |runs| == 0 then w else RunAll(cfg, runs[1..], Apply(cfg, runs[0], w))
  }

  /** What holds of the world once startup is done: one player, one camera,
      one overlay and the three heart slots; lives within their maximum;
      the game is over exactly when no life is left, and exactly then the
      overlay shows; the player has spent no more jumps than allowed. */
  predicate Good(cfg: GameConfig, w: World)
    ensures Good(cfg, w) ==> Single(w.players).Some? && Single(w.cameras).Some?
    ensures Good(cfg, w) ==> (w.state == Running <==> w.lives.current >= 1)
  {
    && |w.players| == 1 && |w.cameras| == 1 && |w.overlays| == 1
    && |w.hearts| == HeartCount
    && (forall i :: 0 <= i < |w.hearts| ==> w.hearts[i].slot == i)
    && 1 <= w.lives.max && w.lives.current <= w.lives.max
    && (w.state == GameOver <==> w.lives.current == 0)
    && (w.overlays[0] == Visible <==> w.state == GameOver)
    && 1 <= cfg.jump.maxJumps && w.players[0].jump.jumpsUsed <= cfg.jump.maxJumps
  }

  /** Every system run keeps the invariant. */
  lemma ApplyKeepsGood(cfg: GameConfig, s: SystemRun, w: World)
    requires Good(cfg, w)
    ensures Good(cfg, Apply(cfg, s, w))
  {
    match s
    case PhysicsRun(tick, bitsOf, lucky) =>
      var step := PhysicsStep(cfg, tick, bitsOf, lucky, w.players[0], Grounds(w.entities));
      assert PhysicsSystem(cfg, tick, bitsOf, lucky, w).0.players == [step.player];
    case LivesUiRun(changed) =>
    case _ =>
  }

  /** Whatever systems run, in whatever order and however often, the
      invariant holds afterwards. */
  lemma {:induction false} RunAllKeepsGood(cfg: GameConfig, runs: seq<SystemRun>, w: World)
    requires Good(cfg, w)
    ensures Good(cfg, RunAll(cfg, runs, w))
    decreases |runs|
  {
    if |runs| > 0 {
      ApplyKeepsGood(cfg, runs[0], w);
      RunAllKeepsGood(cfg, runs[1..], Apply(cfg, runs[0], w));
    }
  }

  /** Startup establishes the invariant, whether or not the first level loads. */
  lemma StartupIsGood(cfg: GameConfig, read: Reader)
    requires cfg.jump.maxJumps >= 1
    ensures Good(cfg, Setup(InitialWorld(), read))
  {
    var s := Setup(InitialWorld(), read);
    assert s.overlays == [Hidden];
    assert s.hearts == [Heart(0, true), Heart(1, true), Heart(2, true)];
  }

  /** Falling out of the world with more than one life left costs a life and
      queues a respawn at the level start; the next application of the
      pending start puts the player there at rest. */
  lemma FallCostsOneLife(cfg: GameConfig, w: World)
    requires Good(cfg, w) && w.state == Running && w.lives.current >= 2
    requires w.players[0].pos.y < DeathY
    ensures var d := DeathCheck(w);
            var r := ApplyPendingStart(d);
            && d.lives.current == w.lives.current - 1 && d.state == Running
            && r.players[0].pos == RespawnPoint(w.levelStart)
            && r.players[0].vel == Zero && r.players[0].jump == DefaultJump
            && r.pending.None?
  {
  }

  /** Falling on the last life ends the game: no lives, the overlay shows,
      and no respawn is queued. While the game is over, further falls change
      nothing. */
  lemma LastFallEndsGame(cfg: GameConfig, w: World)
    requires Good(cfg, w) && w.state == Running && w.lives.current == 1 && w.pending.None?
    requires w.players[0].pos.y < DeathY
    ensures var d := DeathCheck(w);
            && d.lives.current == 0 && d.state == GameOver && d.overlays == [Visible]
            && d.pending.None?
            && DeathCheck(d) == d
  {
  }

  /** Space on the game-over screen refills the lives, hides the overlay,
      asks for the current level again and, once that request is served and
      the start applied, puts the player at rest on the reloaded level's
      start, or on the old start if it no longer loads. */
  lemma RestartReloadsLevel(cfg: GameConfig, w: World, read: Reader)
    requires Good(cfg, w) && w.state == GameOver
    ensures var g := GameOverRestart(w, true);
            var t := LevelTransition(g, read);
            var r := ApplyPendingStart(t);
            var def := read(w.manager.current);
            && g.lives == Lives(w.lives.max, w.lives.max) && g.state == Running
            && g.overlays == [Hidden]
            && r.manager == w.manager && r.request.None?
            && (def.Some? ==> r.players[0].pos == StartPoint(def.value))
            && (def.None? ==> r.players[0].pos == RespawnPoint(w.levelStart))
            && Good(cfg, r)
  {
    var g := GameOverRestart(w, true);
    ApplyKeepsGood(cfg, RestartRun(true), w);
    ApplyKeepsGood(cfg, TransitionRun(read), g);
    ApplyKeepsGood(cfg, PendingRun, LevelTransition(g, read));
  }

  /** The worked exit example: a player at (500, -100) inside an exit of
      size 40 by 80 at the same place, leading to `level2`, requests
      `level2`; the switch then makes it current. */
  lemma ExitExample(w: World, read: Reader)
    requires w.request.None?
    requires w.players == [Player(Vec2(500.0, -100.0), PlayerSize, Zero, DefaultJump)]
    requires w.entities == [Entity(Vec2(500.0, -100.0), ExitDoor(Exit("level2", Vec2(40.0, 80.0))), true)]
    ensures ExitDetection(w).request == Some("level2")
    ensures LevelTransition(ExitDetection(w), read).manager == LevelManager("level2")
  {
    assert Exits(w.entities) == [ExitBox(Vec2(500.0, -100.0), Exit("level2", Vec2(40.0, 80.0)))];
    assert TouchesExit(Vec2(500.0, -100.0), Exits(w.entities)[0]);
  }
}
