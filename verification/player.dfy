/** One tick of the player (`game/src/systems/player.rs`): horizontal
    acceleration, gravity, semi-implicit integration, one-way AABB collision
    against every ground, the dirt-kick trigger, the jump state machine with
    its hashed bonus refund, hold tracking, the release cut and the landing
    reset; then the death check and the consumption of a pending start. */
module PlayerSystem {
  import opened Wrappers
  import opened Geometry
  import opened Resources
  import opened Components
  import opened Config
  import opened GameWorld
  import opened Xorshift

  /** Below this height the player has fallen out of the world. */
  const DeathY: real := -600.0

  /** `f32::EPSILON`, 2^-23: the landing test's tolerance on vertical speed. */
  const F32Epsilon: real := 1.0 / 8388608.0

  /** Horizontal speed a reversal must exceed to kick up dirt. */
  const KickSpeed: real := 30.0

  /** The keyboard as this tick sees it: A/Left, D/Right, and Space held,
      just pressed or just released. */
  datatype Keys = Keys(left: bool, right: bool, jumpHeld: bool, jumpPressed: bool, jumpReleased: bool)

  datatype BurstKind = Bonus | Normal

  datatype JumpBurst = JumpBurst(pos: Vec2, kind: BurstKind)

  datatype DirtKick = DirtKick(pos: Vec2, dir: real)

  /** Everything the tick reads besides the player and the grounds: the keys,
      the frame time in seconds and the bits of the elapsed microseconds. */
  datatype Tick = Tick(keys: Keys, dt: real, tbits: bv32)

  // ---------------------------------------------------------------- approach

  /** Moves `current` toward `target` by at most `maxDelta`, never past it;
      a negative `maxDelta` moves nothing. */
  function Approach(current: real, target: real, maxDelta: real): (r: real)
    ensures Between(r, current, target)
    ensures Abs(r - current) == Min(Max(maxDelta, 0.0), Abs(target - current))
    ensures maxDelta >= Abs(target - current) ==> r == target
    ensures current != target && maxDelta > 0.0 ==> Abs(target - r) < Abs(target - current)
  {
    var delta := target - current;
    var step := Clamp(maxDelta, 0.0, Abs(delta));
    current + step * Signum(delta)
  }

  // ------------------------------------------------------------------ motion

  /** -1, 0 or +1 from the two direction keys; both held cancel out. */
  function InputDir(keys: Keys): (d: real)
    ensures d == -1.0 <==> keys.left && !keys.right
    ensures d == 1.0 <==> keys.right && !keys.left
    ensures d == 0.0 <==> keys.left == keys.right
  {
    (if keys.left then -1.0 else 0.0) + (if keys.right then 1.0 else 0.0)
  }

  /** The motion phase: horizontal speed approaches `dir * maxSpeed` at the
      acceleration rate while a direction is held and approaches zero at the
      deceleration rate otherwise; gravity is applied; the position then moves
      by the already updated velocity (semi-implicit Euler). */
  function Motion(cfg: GameConfig, dt: real, dir: real, pos: Vec2, vel: Vec2): (r: Body)
    ensures dir != 0.0 ==>
      Between(r.vel.x, vel.x, dir * cfg.maxSpeed) &&
      Abs(r.vel.x - vel.x) == Min(Max(cfg.acceleration * dt, 0.0), Abs(dir * cfg.maxSpeed - vel.x))
    ensures dir == 0.0 ==>
      Between(r.vel.x, vel.x, 0.0) &&
      Abs(r.vel.x - vel.x) == Min(Max(cfg.deceleration * dt, 0.0), Abs(vel.x))
    ensures r.vel.y == vel.y - cfg.gravity * dt
    ensures r.pos.x - pos.x == r.vel.x * dt && r.pos.y - pos.y == r.vel.y * dt
    ensures !r.grounded
  {
    var vx := if Abs(dir) > 0.0 then Approach(vel.x, dir * cfg.maxSpeed, cfg.acceleration * dt)
              else Approach(vel.x, 0.0, cfg.deceleration * dt);
    var vy := vel.y - cfg.gravity * dt;
    Body(Vec2(pos.x + vx * dt, pos.y + vy * dt), Vec2(vx, vy), false)
  }

  // --------------------------------------------------------------- collision

  /** The part of the player the collision pass updates. */
  datatype Body = Body(pos: Vec2, vel: Vec2, grounded: bool)

  /** How far the player's box at `p` reaches into a ground box along X:
      positive exactly when the two boxes overlap on that axis, deepest when
      their centres line up. */
  function PenX(p: Vec2, g: GroundBox): (d: real)
    ensures d > 0.0 <==> g.center.x - g.size.x / 2.0 - PlayerHalf < p.x < g.center.x + g.size.x / 2.0 + PlayerHalf
    ensures d <= PlayerHalf + g.size.x / 2.0
    ensures p.x == g.center.x ==> d == PlayerHalf + g.size.x / 2.0
  {
    PlayerHalf + g.size.x / 2.0 - Abs(p.x - g.center.x)
  }

  /** The same along Y. */
  function PenY(p: Vec2, g: GroundBox): (d: real)
    ensures d > 0.0 <==> g.center.y - g.size.y / 2.0 - PlayerHalf < p.y < g.center.y + g.size.y / 2.0 + PlayerHalf
    ensures d <= PlayerHalf + g.size.y / 2.0
    ensures p.y == g.center.y ==> d == PlayerHalf + g.size.y / 2.0
  {
    PlayerHalf + g.size.y / 2.0 - Abs(p.y - g.center.y)
  }

  predicate Overlapping(p: Vec2, g: GroundBox) {
    PenX(p, g) > 0.0 && PenY(p, g) > 0.0
  }

  function GroundTop(g: GroundBox): real {
    g.center.y + g.size.y / 2.0
  }

  /** One-way platforms: a player whose bottom is below the top while rising
      passes through. */
  predicate RisingThrough(b: Body, g: GroundBox) {
    b.pos.y - PlayerHalf < GroundTop(g) && b.vel.y > 0.0
  }

  /** Resolution against one ground, along the axis of least penetration. */
  function ResolveGround(b: Body, g: GroundBox): (r: Body)
    // no strict overlap, or rising through: nothing changes
    ensures !Overlapping(b.pos, g) || RisingThrough(b, g) ==> r == b
    // landing from above: the bottom rests exactly on the top
    ensures Overlapping(b.pos, g) && !RisingThrough(b, g) && PenY(b.pos, g) < PenX(b.pos, g) && b.pos.y > g.center.y ==>
      r.pos.x == b.pos.x && r.pos.y - PlayerHalf == GroundTop(g) &&
      r.vel == Vec2(b.vel.x, 0.0) && r.grounded
    // reached from below: the player is never pushed down
    ensures Overlapping(b.pos, g) && !RisingThrough(b, g) && PenY(b.pos, g) < PenX(b.pos, g) && b.pos.y <= g.center.y ==>
      r == b
    // sideways: flush with the nearer side, horizontal speed stopped
    ensures Overlapping(b.pos, g) && !RisingThrough(b, g) && PenY(b.pos, g) >= PenX(b.pos, g) ==>
      PenX(r.pos, g) == 0.0 && (r.pos.x > g.center.x <==> b.pos.x > g.center.x) &&
      r.pos.y == b.pos.y && r.vel == Vec2(0.0, b.vel.y) && r.grounded == b.grounded
    ensures r.pos.y >= b.pos.y
  {
    var gx := g.center.x;
    var gy := g.center.y;
    var halfX := g.size.x / 2.0;
    var halfY := g.size.y / 2.0;
    var penX := PlayerHalf + halfX - Abs(b.pos.x - gx);
    var penY := PlayerHalf + halfY - Abs(b.pos.y - gy);
    if penX > 0.0 && penY > 0.0 then
      if b.pos.y - PlayerHalf < gy + halfY && b.vel.y > 0.0 then b
      else if penY < penX then
        if b.pos.y > gy then Body(Vec2(b.pos.x, gy + halfY + PlayerHalf), Vec2(b.vel.x, 0.0), true)
        else b
      else
        var x := if b.pos.x > gx then gx + halfX + PlayerHalf else gx - halfX - PlayerHalf;
        Body(Vec2(x, b.pos.y), Vec2(0.0, b.vel.y), b.grounded)
    else b
  }

  /** Every ground in query order, each resolved against the result of the
      previous one (no global contact solver). */
  function ResolveAll(b: Body, gs: seq<GroundBox>): (r: Body)
    ensures r.pos.y >= b.pos.y
    ensures r.vel.x == b.vel.x || r.vel.x == 0.0
    ensures r.vel.y == b.vel.y || r.vel.y == 0.0
    ensures b.grounded ==> r.grounded
    ensures r.grounded ==> b.grounded || r.vel.y == 0.0
    ensures (b.grounded ==> b.vel.y == 0.0) ==> (r.grounded ==> r.vel.y == 0.0)
    ensures (forall i :: 0 <= i < |gs| ==> !Overlapping(b.pos, gs[i])) ==> r == b
    decreases |gs|
  {
    if |gs| == 0 then b
    else ResolveAll(ResolveGround(b, gs[0]), gs[1..])
  }

  // ---------------------------------------------------------------- dirt kick

  /** Reversing on the ground from a speed above `KickSpeed` kicks dirt in
      the new direction. */
  function Kicks(grounded: bool, dir: real, prevVx: real, pos: Vec2): (r: seq<DirtKick>)
    ensures |r| <= 1
    ensures |r| == 1 <==>
      grounded && dir != 0.0 && Abs(prevVx) > KickSpeed && (dir > 0.0 <==> prevVx < 0.0)
    ensures |r| == 1 ==> r[0] == DirtKick(pos, Signum(dir))
  {
    if grounded && Abs(dir) > 0.0 then
      var newDir := Signum(dir);
      var oldDir := Signum(prevVx);
      if oldDir != 0.0 && newDir != 0.0 && oldDir != newDir && Abs(prevVx) > KickSpeed then
        [DirtKick(pos, newDir)]
      else []
    else []
  }

  // ------------------------------------------------------------------- jumps

  /** What a press of the jump button did. `refunded` is the bonus: one used
      jump handed back. */
  datatype JumpOutcome = JumpOutcome(jumped: bool, refunded: bool, vel: Vec2, jump: JumpState, bursts: seq<JumpBurst>)

  /** The number of jumps used once a refund, if any, is taken off. */
  function AfterRefund(js: JumpState, refunded: bool): (n: U8)
    ensures refunded && js.jumpsUsed > 0 ==> n == js.jumpsUsed - 1
    ensures !refunded ==> n == js.jumpsUsed
  {
    if refunded && js.jumpsUsed > 0 then js.jumpsUsed - 1 else js.jumpsUsed
  }

  /** A fresh press of the jump button. On the ground the jump always
      happens and counts as the first. In the air a refund happens when the
      hash draw is `lucky` and more than one jump is spent; the jump happens
      while the (refunded) count is below `maxJumps` and raises it, capped. */
  function PressJump(cfg: JumpCfg, grounded: bool, lucky: bool, pos: Vec2, vel: Vec2, js: JumpState): (r: JumpOutcome)
    ensures r.refunded <==> !grounded && lucky && js.jumpsUsed > 1
    ensures r.jumped <==> grounded || AfterRefund(js, r.refunded) < cfg.maxJumps
    ensures grounded ==> r.jump.jumpsUsed == 1
    ensures !grounded && r.jumped ==> r.jump.jumpsUsed == AfterRefund(js, r.refunded) + 1 || r.jump.jumpsUsed == cfg.maxJumps
    ensures !grounded && r.jumped ==> r.jump.jumpsUsed <= AfterRefund(js, r.refunded) + 1 && r.jump.jumpsUsed <= cfg.maxJumps
    ensures r.jumped ==> r.vel == Vec2(vel.x, cfg.velocity) && r.jump.jumping && r.jump.holdMs == 0.0
    ensures !r.jumped ==> r.vel == vel && r.jump == js.(jumpsUsed := AfterRefund(js, r.refunded))
    ensures JumpBurst(pos, Bonus) in r.bursts <==> r.jumped && r.refunded
    ensures JumpBurst(pos, Normal) in r.bursts <==> r.jumped && r.jump.jumpsUsed >= 2
    ensures forall b :: b in r.bursts ==> b.pos == pos
    // the bound on jumps is kept
    ensures cfg.maxJumps >= 1 && js.jumpsUsed <= cfg.maxJumps ==> r.jump.jumpsUsed <= cfg.maxJumps
  {
    if grounded then
      JumpOutcome(true, false, Vec2(vel.x, cfg.velocity), JumpState(true, 0.0, 1), [])
    else
      var refunded := lucky && js.jumpsUsed > 1;
      var used := if refunded then js.jumpsUsed - 1 else js.jumpsUsed;
      if used < cfg.maxJumps then
        var used' := if used + 1 <= cfg.maxJumps then used + 1 else cfg.maxJumps;
        JumpOutcome(true, refunded, Vec2(vel.x, cfg.velocity), JumpState(true, 0.0, used'), Bursts(pos, refunded, used'))
      else
        JumpOutcome(false, refunded, vel, js.(jumpsUsed := used), [])
  }

  /** The bursts a successful jump emits: a bonus burst for a refund, then
      a normal burst once two or more jumps are spent. */
  function Bursts(pos: Vec2, refunded: bool, used: int): (r: seq<JumpBurst>)
    ensures JumpBurst(pos, Bonus) in r <==> refunded
    ensures JumpBurst(pos, Normal) in r <==> used >= 2
    ensures forall b :: b in r ==> b.pos == pos
  {
    (if refunded then [JumpBurst(pos, Bonus)] else [])
      + (if used >= 2 then [JumpBurst(pos, Normal)] else [])
  }

  /** Hold time grows by the frame time while the button stays down during a
      rising jump. */
  function TrackHold(js: JumpState, held: bool, vy: real, dt: real): (r: JumpState)
    ensures r.jumping == js.jumping && r.jumpsUsed == js.jumpsUsed
    ensures js.jumping && held && vy > 0.0 ==> r.holdMs == js.holdMs + dt * 1000.0
    ensures !(js.jumping && held && vy > 0.0) ==> r == js
  {
    if js.jumping && held && vy > 0.0 then js.(holdMs := js.holdMs + dt * 1000.0) else js
  }

  /** Letting go of the button: a short hold while rising cuts the vertical
      speed by `cutFactor`; the jump stops being held either way. */
  function ReleaseJump(cfg: JumpCfg, js: JumpState, vy: real): (r: (JumpState, real))
    ensures !r.0.jumping && r.0.holdMs == js.holdMs && r.0.jumpsUsed == js.jumpsUsed
    ensures js.holdMs < cfg.maxHoldMs && vy > 0.0 ==> r.1 == vy * cfg.cutFactor
    ensures !(js.holdMs < cfg.maxHoldMs && vy > 0.0) ==> r.1 == vy
  {
    var vy' := if js.holdMs < cfg.maxHoldMs && vy > 0.0 then vy * cfg.cutFactor else vy;
    (js.(jumping := false), vy')
  }

  /** Standing on the ground without vertical speed ends the jump sequence. */
  predicate Landed(grounded: bool, vy: real)
    ensures !grounded ==> !Landed(grounded, vy)
    ensures grounded && vy == 0.0 ==> Landed(grounded, vy)
    ensures Landed(grounded, vy) ==> -F32Epsilon < vy < F32Epsilon
  {
    grounded && Abs(vy) < F32Epsilon
  }

  // ---------------------------------------------------------------- the tick

  datatype StepResult = StepResult(player: Player, grounded: bool, bursts: seq<JumpBurst>, kicks: seq<DirtKick>)

  /** `physics_and_collision_system` for the one player. `bitsOf` is
      `f32::to_bits` and `lucky` the test `h / u32::MAX < 0.10`. */
  function PhysicsStep(cfg: GameConfig, tick: Tick, bitsOf: real -> bv32, lucky: bv32 -> bool,
                       p: Player, grounds: seq<GroundBox>): (r: StepResult)
    ensures r.player.size == p.size
    ensures cfg.jump.maxJumps >= 1 && p.jump.jumpsUsed <= cfg.jump.maxJumps ==>
      r.player.jump.jumpsUsed <= cfg.jump.maxJumps
    ensures Landed(r.grounded, r.player.vel.y) ==> r.player.jump == DefaultJump
    ensures !tick.keys.jumpPressed ==> r.bursts == []
    ensures !tick.keys.jumpPressed && !r.grounded ==> r.player.jump.jumpsUsed == p.jump.jumpsUsed
    ensures tick.keys.jumpReleased ==> !r.player.jump.jumping
    ensures r.grounded && tick.keys.jumpPressed ==> r.player.vel.y != 0.0 || r.player.jump == DefaultJump
    ensures |r.kicks| == 1 ==> r.grounded && InputDir(tick.keys) != 0.0
  {
    var keys := tick.keys;
    var dt := tick.dt;
    var dir := InputDir(keys);
    var moved := Motion(cfg, dt, dir, p.pos, p.vel);
    var b := ResolveAll(moved, grounds);
    var kicks := Kicks(b.grounded, dir, p.vel.x, b.pos);
    var pressed :=
      if keys.jumpPressed then
        var h := BonusHash(bitsOf(b.pos.x), bitsOf(b.pos.y), tick.tbits, p.jump.jumpsUsed);
        PressJump(cfg.jump, b.grounded, lucky(h), b.pos, b.vel, p.jump)
      else JumpOutcome(false, false, b.vel, p.jump, []);
    var held := TrackHold(pressed.jump, keys.jumpHeld, pressed.vel.y, dt);
    var released := if keys.jumpReleased then ReleaseJump(cfg.jump, held, pressed.vel.y) else (held, pressed.vel.y);
    var vel := Vec2(pressed.vel.x, released.1);
    var jump := if Landed(b.grounded, vel.y) then DefaultJump else released.0;
    StepResult(Player(b.pos, p.size, vel, jump), b.grounded, pressed.bursts, kicks)
  }

  /** The system: a no-op unless exactly one player exists; the grounds are
      all `Ground` entities in storage order. */
  function PhysicsSystem(cfg: GameConfig, tick: Tick, bitsOf: real -> bv32, lucky: bv32 -> bool, w: World): (r: (World, seq<JumpBurst>, seq<DirtKick>))
    ensures |w.players| != 1 ==> r == (w, [], [])
    ensures |w.players| == 1 ==>
      var s := PhysicsStep(cfg, tick, bitsOf, lucky, w.players[0], Grounds(w.entities));
      r == (w.(players := [s.player]), s.bursts, s.kicks)
    ensures |w.players| == 1 ==> |r.0.players| == 1
    ensures r.0 == w.(players := r.0.players)
  {
    match Single(w.players)
    case None => (w, [], [])
    case Some(p) =>
      var s := PhysicsStep(cfg, tick, bitsOf, lucky, p, Grounds(w.entities));
      (w.(players := [s.player]), s.bursts, s.kicks)
  }

  // ------------------------------------------------------- death and respawn

  /** `death_check_system`. */
  function DeathCheck(w: World): (r: World)
    ensures w.state == GameOver ==> r == w
    ensures (|w.players| != 1 || w.players[0].pos.y >= DeathY) ==> r == w
    ensures w.state == Running && |w.players| == 1 && w.players[0].pos.y < DeathY ==>
      && r.lives.max == w.lives.max
      && r.lives.current == (if w.lives.current > 0 then w.lives.current - 1 else 0)
      && (r.lives.current == 0 ==>
            r.state == GameOver && r.pending == w.pending &&
            (|w.overlays| == 1 ==> r.overlays == [Visible]) &&
            (|w.overlays| != 1 ==> r.overlays == w.overlays))
      && (r.lives.current > 0 ==>
            r.state == Running && r.pending == Some(RespawnPoint(w.levelStart)) &&
            r.overlays == w.overlays)
    ensures r.players == w.players && r.entities == w.entities && r.cameras == w.cameras
    ensures r.levelStart == w.levelStart && r.manager == w.manager && r.request == w.request
    ensures r.hearts == w.hearts
  {
    if w.state == GameOver then w
    else match Single(w.players)
      case None => w
      case Some(p) =>
        if p.pos.y < DeathY then
          var current := if w.lives.current > 0 then w.lives.current - 1 else w.lives.current;
          var lives := w.lives.(current := current);
          if current == 0 then
            var overlays := if |w.overlays| == 1 then [Visible] else w.overlays;
            w.(lives := lives, state := GameOver, overlays := overlays)
          else
            w.(lives := lives, pending := Some(RespawnPoint(w.levelStart)))
        else w
  }

  /** `apply_pending_start_system`: a pending start is taken; the player (if
      exactly one) is put there at rest with a fresh jump state, and the camera
      (if exactly one) jumps to the start's x at height 0. */
  function ApplyPendingStart(w: World): (r: World)
    ensures w.pending.None? ==> r == w
    ensures r.pending.None?
    ensures w.pending.Some? && |w.players| == 1 ==>
      r.players == [w.players[0].(pos := w.pending.value, vel := Zero, jump := DefaultJump)]
    ensures w.pending.Some? && |w.cameras| == 1 ==>
      r.cameras == [Vec2(w.pending.value.x, 0.0)]
    ensures |w.players| != 1 ==> r.players == w.players
    ensures |w.cameras| != 1 ==> r.cameras == w.cameras
    ensures r == w.(pending := r.pending, players := r.players, cameras := r.cameras)
  {
    match w.pending
    case None => w
    case Some(pos) =>
      var players := match Single(w.players)
        case Some(p) => [p.(pos := pos, vel := Zero, jump := DefaultJump)]
        case None => w.players;
      var cameras := match Single(w.cameras)
        case Some(c) => [Vec2(pos.x, 0.0)]
        case None => w.cameras;
      w.(pending := None, players := players, cameras := cameras)
  }
}

/** Properties of the player tick that span several calls. */
module PlayerProperties {
  import opened Geometry
  import opened Resources
  import opened Components
  import opened Config
  import opened GameWorld
  import opened PlayerSystem

  /** The player after a run of ticks against fixed grounds. */
  function Run(cfg: GameConfig, ticks: seq<Tick>, bitsOf: real -> bv32, lucky: bv32 -> bool,
               p: Player, grounds: seq<GroundBox>): Player
    decreases |ticks|
  {
    if |ticks| == 0 then p
    else Run(cfg, ticks[1..], bitsOf, lucky, PhysicsStep(cfg, ticks[0], bitsOf, lucky, p, grounds).player, grounds)
  }

  /** With at least one jump allowed, no sequence of ticks spends more jumps
      than `maxJumps`, whatever the hash draws and whatever the input. */
  lemma {:induction false} JumpBoundInvariant(cfg: GameConfig, ticks: seq<Tick>, bitsOf: real -> bv32,
                                              lucky: bv32 -> bool, p: Player, grounds: seq<GroundBox>)
    requires cfg.jump.maxJumps >= 1
    requires p.jump.jumpsUsed <= cfg.jump.maxJumps
    ensures Run(cfg, ticks, bitsOf, lucky, p, grounds).jump.jumpsUsed <= cfg.jump.maxJumps
    decreases |ticks|
  {
    if |ticks| > 0 {
      var next := PhysicsStep(cfg, ticks[0], bitsOf, lucky, p, grounds).player;
      JumpBoundInvariant(cfg, ticks[1..], bitsOf, lucky, next, grounds);
    }
  }

  /** Holding right from rest with the default tunables and a 0.1 s frame:
      200 after one tick (acceleration-limited), 300 after two (capped at the
      top speed), in the air with no grounds. */
  lemma AccelerationExample(p: Player)
    requires p.vel.x == 0.0
    ensures var t := Tick(Keys(false, true, false, false, false), 0.1, 0);
            var q := PhysicsStep(DefaultConfig, t, _ => 0, _ => false, p, []).player;
            q.vel.x == 200.0 &&
            PhysicsStep(DefaultConfig, t, _ => 0, _ => false, q, []).player.vel.x == 300.0
  {
  }

  /** A tick that starts on the ground with no key pressed keeps the player
      resting on the ground it stands on, and clears the jump state. */
  lemma RestingStaysGrounded(cfg: GameConfig, tick: Tick, bitsOf: real -> bv32, lucky: bv32 -> bool, p: Player, g: GroundBox)
    requires tick.keys == Keys(false, false, false, false, false)
    requires cfg.gravity > 0.0 && 0.0 < tick.dt && cfg.gravity * tick.dt * tick.dt < 1.0
    requires g.size.x > 0.0 && g.size.y >= 32.0
    requires p.vel == Vec2(0.0, 0.0)
    requires p.pos.x == g.center.x && p.pos.y - PlayerHalf == GroundTop(g)
    ensures var r := PhysicsStep(cfg, tick, bitsOf, lucky, p, [g]);
            r.grounded && r.player.pos == p.pos && r.player.vel == Vec2(0.0, 0.0) && r.player.jump == DefaultJump
  {
    var r := PhysicsStep(cfg, tick, bitsOf, lucky, p, [g]);
    var moved := Motion(cfg, tick.dt, 0.0, p.pos, p.vel);
    assert moved.vel.x == 0.0;
    assert moved.pos.y == p.pos.y - cfg.gravity * tick.dt * tick.dt;
    assert ResolveAll(moved, [g]) == ResolveGround(moved, g);
  }
}
