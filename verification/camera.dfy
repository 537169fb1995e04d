/** The follow camera of `game/src/systems/camera.rs`: it aims ahead of the
    player along the player's velocity, closes a fraction of the distance
    each tick, adds a small two-wave wobble, and is clamped so that the floor
    line never leaves the bottom of the view. `exp`, `sin` and `cos` are
    parameters of the model. */
module CameraFollow {
  import opened Wrappers
  import opened Geometry
  import opened Resources
  import opened Components
  import opened Config
  import opened GameWorld

  datatype Transcendentals = Transcendentals(exp: real -> real, sin: real -> real, cos: real -> real)

  /** Whether a function stays within [-1, 1], as sine and cosine do. */
  ghost predicate UnitBounded(f: real -> real) {
    forall x: real :: -1.0 <= f(x) <= 1.0
  }

  /** `std::f32::consts::TAU` as an `f32`. */
  const Tau: real := 6.2831854820251465

  const MinLag: real := 0.0001
  const MinFrequency: real := 0.01
  const FrequencyRatio: real := 0.73

  /** Distance kept between the floor line and the bottom of the view. */
  const Margin: real := 40.0

  /** The view height used when there is not exactly one window. */
  const DefaultViewHeight: real := 540.0

  /** The smoothing time constant, floored so the exponent stays finite. */
  function Lag(cam: CameraCfg): (lag: real)
    ensures lag >= MinLag
    ensures lag == cam.lagS || (lag == MinLag && cam.lagS < MinLag)
  {
    Max(cam.lagS, MinLag)
  }

  /** The base frequency, floored, and the second one at 0.73 of it. */
  function Frequencies(cam: CameraCfg): (f: (real, real))
    ensures f.0 >= MinFrequency && f.0 >= cam.noiseFreqHz
    ensures f.0 == cam.noiseFreqHz || (f.0 == MinFrequency && cam.noiseFreqHz < MinFrequency)
    ensures f.1 == FrequencyRatio * f.0
  {
    var f1 := Max(cam.noiseFreqHz, MinFrequency);
    (f1, f1 * FrequencyRatio)
  }

  /** Per-axis noise amplitudes; an axis without its own falls back to the
      shared one. */
  function Amplitudes(cam: CameraCfg): (a: Vec2)
    ensures a.x == cam.noiseAmpX.GetOr(cam.noiseAmp)
    ensures a.y == cam.noiseAmpY.GetOr(cam.noiseAmp)
    ensures cam.noiseAmpX.None? ==> a.x == cam.noiseAmp
    ensures cam.noiseAmpY.None? ==> a.y == cam.noiseAmp
  {
    Vec2(cam.noiseAmpX.GetOr(cam.noiseAmp), cam.noiseAmpY.GetOr(cam.noiseAmp))
  }

  /** The window height, 540 without a single window. */
  function ViewHeight(windows: seq<real>): (h: real)
    ensures |windows| == 1 ==> h == windows[0]
    ensures |windows| != 1 ==> h == DefaultViewHeight
  {
    Single(windows).GetOr(DefaultViewHeight)
  }

  /** The highest the camera centre may go: half a view above the floor line,
      less the margin. */
  function Ceiling(viewHeight: real): (c: real)
    ensures c - viewHeight * 0.5 == GroundY - Margin
    ensures viewHeight == DefaultViewHeight ==> c == 80.0
  {
    GroundY + viewHeight * 0.5 - Margin
  }

  /** The point the camera aims at: ahead along the velocity by the lookahead
      time horizontally and by 0.6 of it vertically. */
  function Target(pos: Vec2, vel: Vec2, lookahead: real): (t: Vec2)
    ensures vel == Zero ==> t == pos
    ensures t.x - pos.x == vel.x * lookahead
    ensures t.y - pos.y == vel.y * (lookahead * 0.6)
  {
    Vec2(pos.x + vel.x * lookahead, pos.y + vel.y * (lookahead * 0.6))
  }

  /** Closes the fraction `alpha` of the gap on each axis; for a fraction in
      [0, 1] the camera ends between where it was and the target. */
  function Smooth(cam: Vec2, target: Vec2, alpha: real): (r: Vec2)
    ensures 0.0 <= alpha <= 1.0 ==> Between(r.x, cam.x, target.x) && Between(r.y, cam.y, target.y)
    ensures alpha == 1.0 ==> r == target
    ensures alpha == 0.0 ==> r == cam
    ensures target.x - r.x == (1.0 - alpha) * (target.x - cam.x)
    ensures target.y - r.y == (1.0 - alpha) * (target.y - cam.y)
  {
    PartWayBetween(cam.x, target.x, alpha);
    PartWayBetween(cam.y, target.y, alpha);
    Vec2(cam.x + (target.x - cam.x) * alpha, cam.y + (target.y - cam.y) * alpha)
  }

  lemma PartWayBetween(a: real, b: real, alpha: real)
    ensures 0.0 <= alpha <= 1.0 ==> Between(a + (b - a) * alpha, a, b)
  {
    if 0.0 <= alpha <= 1.0 {
      ScaledWithin(b - a, alpha);
    }
  }

  /** Scaling by a factor in [-1, 1] stays within the original magnitude, on
      the original side when the factor is non-negative. */
  lemma ScaledWithin(d: real, k: real)
    requires -1.0 <= k <= 1.0
    ensures Abs(d * k) <= Abs(d)
    ensures k >= 0.0 && d >= 0.0 ==> 0.0 <= d * k <= d
    ensures k >= 0.0 && d < 0.0 ==> d <= d * k <= 0.0
  {
    var m := Abs(d);
    var j := Abs(k);
    assert Abs(d * k) == m * j;
    assert m * j <= m * 1.0;
    if k >= 0.0 {
      if d >= 0.0 {
        assert d * k <= d * 1.0;
      } else {
        assert d * k >= d * 1.0;
      }
    }
  }

  /** The smoothing fraction `1 - exp(-dt / lag)`. */
  function Alpha(tr: Transcendentals, cam: CameraCfg, dt: real): (a: real)
    ensures dt == 0.0 && tr.exp(0.0) == 1.0 ==> a == 0.0
    ensures cam.lagS >= MinLag ==> a == 1.0 - tr.exp(-dt / cam.lagS)
  {
    1.0 - tr.exp(-dt / Lag(cam))
  }

  /** For a forward time step and an `exp` that maps non-positive numbers into
      (0, 1], the fraction lies in [0, 1): the camera never overshoots. */
  lemma AlphaIsFraction(tr: Transcendentals, cam: CameraCfg, dt: real)
    requires dt >= 0.0
    requires forall x: real :: x <= 0.0 ==> 0.0 < tr.exp(x) <= 1.0
    ensures 0.0 <= Alpha(tr, cam, dt) < 1.0
  {
    var lag := Lag(cam);
    assert -dt / lag <= 0.0;
  }

  /** Two waves at half the amplitude each. */
  function Wave(s: real, c: real, amp: real): (w: real)
    ensures s == 1.0 && c == 1.0 ==> w == amp
    ensures s == -c ==> w == 0.0
  {
    s * 0.5 * amp + c * 0.5 * amp
  }

  /** One axis of the wobble: a sine at phase `p` and a cosine at phase `q`,
      each at half the amplitude. */
  function AxisNoise(sin: real -> real, cos: real -> real, p: real, q: real, amp: real): (r: real)
    ensures amp == 0.0 ==> r == 0.0
    ensures sin(p) == 1.0 && cos(q) == 1.0 ==> r == amp
  {
    Wave(sin(p), cos(q), amp)
  }

  /** With a true sine and cosine an axis never moves further than its
      amplitude, whatever the phases. */
  lemma AxisNoiseBounded(sin: real -> real, cos: real -> real, p: real, q: real, amp: real)
    requires UnitBounded(sin) && UnitBounded(cos)
    ensures Abs(AxisNoise(sin, cos, p, q, amp)) <= Abs(amp)
  {
    WaveBounded(sin(p), cos(q), amp);
  }

  /** The four wave phases at time `t`: the horizontal axis runs at the two
      base frequencies, the vertical one at 0.33 and 0.47 of them. */
  function Phases(cam: CameraCfg, t: real): (ph: (real, real, real, real))
    ensures ph.1 == ph.0 * FrequencyRatio
    ensures ph.2 == ph.0 * 0.33 && ph.3 == ph.1 * 0.47
    ensures t == 0.0 ==> ph == (0.0, 0.0, 0.0, 0.0)
  {
    var f := Frequencies(cam);
    (t * Tau * f.0, t * Tau * f.1, t * Tau * (f.0 * 0.33), t * Tau * (f.1 * 0.47))
  }

  /** The two-wave wobble on each axis at time `t`. */
  function Noise(tr: Transcendentals, cam: CameraCfg, t: real): (n: Vec2)
    ensures Amplitudes(cam) == Zero ==> n == Zero
  {
    var ph := Phases(cam, t);
    var a := Amplitudes(cam);
    Vec2(AxisNoise(tr.sin, tr.cos, ph.0, ph.1, a.x), AxisNoise(tr.sin, tr.cos, ph.2, ph.3, a.y))
  }

  /** With sines and cosines in [-1, 1] the wobble never exceeds its
      amplitude on either axis. */
  lemma NoiseBounded(tr: Transcendentals, cam: CameraCfg, t: real)
    requires UnitBounded(tr.sin) && UnitBounded(tr.cos)
    ensures Abs(Noise(tr, cam, t).x) <= Abs(Amplitudes(cam).x)
    ensures Abs(Noise(tr, cam, t).y) <= Abs(Amplitudes(cam).y)
  {
    var ph := Phases(cam, t);
    var a := Amplitudes(cam);
    AxisNoiseBounded(tr.sin, tr.cos, ph.0, ph.1, a.x);
    AxisNoiseBounded(tr.sin, tr.cos, ph.2, ph.3, a.y);
  }

  lemma WaveBounded(s: real, c: real, amp: real)
    requires -1.0 <= s <= 1.0 && -1.0 <= c <= 1.0
    ensures Abs(Wave(s, c, amp)) <= Abs(amp)
  {
    ScaledWithin(amp, s);
    ScaledWithin(amp, c);
    assert Wave(s, c, amp) == 0.5 * (amp * s + amp * c);
  }

  /** The camera before the wobble: smoothed toward the target, then capped
      so that the wobble's headroom stays below the ceiling. */
  function PreNoise(tr: Transcendentals, cfg: GameConfig, dt: real, windows: seq<real>,
                    cam: Vec2, pos: Vec2, vel: Vec2): (r: Vec2)
    ensures var s := Smooth(cam, Target(pos, vel, cfg.camera.lookaheadS), Alpha(tr, cfg.camera, dt));
            r.x == s.x && r.y == Min(s.y, Ceiling(ViewHeight(windows)) - Amplitudes(cfg.camera).y)
    ensures r.y <= Ceiling(ViewHeight(windows)) - Amplitudes(cfg.camera).y
  {
    var target := Target(pos, vel, cfg.camera.lookaheadS);
    var s := Smooth(cam, target, Alpha(tr, cfg.camera, dt));
    var allowed := Ceiling(ViewHeight(windows)) - Amplitudes(cfg.camera).y;
    Vec2(s.x, Min(s.y, allowed))
  }

  /** With a forward step and a true `exp`, the camera before the wobble
      lies between where it was and the target horizontally, and vertically
      too whenever the headroom cap does not bite. */
  lemma PreNoiseFollowsTarget(tr: Transcendentals, cfg: GameConfig, dt: real, windows: seq<real>,
                              cam: Vec2, pos: Vec2, vel: Vec2)
    requires dt >= 0.0
    requires forall x: real :: x <= 0.0 ==> 0.0 < tr.exp(x) <= 1.0
    ensures var target := Target(pos, vel, cfg.camera.lookaheadS);
            var r := PreNoise(tr, cfg, dt, windows, cam, pos, vel);
            && Between(r.x, cam.x, target.x)
            && (r.y < Ceiling(ViewHeight(windows)) - Amplitudes(cfg.camera).y ==> Between(r.y, cam.y, target.y))
  {
    AlphaIsFraction(tr, cfg.camera, dt);
  }

  /** One tick of `camera_follow_system` for a camera at `cam` and a player
      at `pos` moving at `vel`; `t` is the elapsed time. Whatever the noise,
      the camera ends no higher than the ceiling. */
  function CameraStep(tr: Transcendentals, cfg: GameConfig, dt: real, t: real, windows: seq<real>,
                      cam: Vec2, pos: Vec2, vel: Vec2): (r: Vec2)
    ensures r.y <= Ceiling(ViewHeight(windows))
    ensures r.x == PreNoise(tr, cfg, dt, windows, cam, pos, vel).x + Noise(tr, cfg.camera, t).x
    ensures r.y == Min(PreNoise(tr, cfg, dt, windows, cam, pos, vel).y + Noise(tr, cfg.camera, t).y,
                       Ceiling(ViewHeight(windows)))
  {
    var pre := PreNoise(tr, cfg, dt, windows, cam, pos, vel);
    var n := Noise(tr, cfg.camera, t);
    Vec2(pre.x + n.x, Min(pre.y + n.y, Ceiling(ViewHeight(windows))))
  }

  /** With a non-negative vertical amplitude and true sines and cosines, the
      first clamp already leaves room for the wobble, so the second one never
      bites: the camera shakes freely below the ceiling. */
  lemma HeadroomSuffices(tr: Transcendentals, cfg: GameConfig, dt: real, t: real, windows: seq<real>,
                         cam: Vec2, pos: Vec2, vel: Vec2)
    requires UnitBounded(tr.sin) && UnitBounded(tr.cos)
    requires Amplitudes(cfg.camera).y >= 0.0
    ensures CameraStep(tr, cfg, dt, t, windows, cam, pos, vel).y ==
            PreNoise(tr, cfg, dt, windows, cam, pos, vel).y + Noise(tr, cfg.camera, t).y
  {
    NoiseBounded(tr, cfg.camera, t);
  }

  /** The system: a no-op unless there is exactly one camera and exactly one
      player; only the camera moves. */
  function CameraSystem(tr: Transcendentals, cfg: GameConfig, dt: real, t: real, windows: seq<real>, w: World): (r: World)
    ensures |w.cameras| != 1 || |w.players| != 1 ==> r == w
    ensures |w.cameras| == 1 && |w.players| == 1 ==>
      r.cameras == [CameraStep(tr, cfg, dt, t, windows, w.cameras[0], w.players[0].pos, w.players[0].vel)] &&
      r.cameras[0].y <= Ceiling(ViewHeight(windows))
    ensures r == w.(cameras := r.cameras)
  {
    match (Single(w.cameras), Single(w.players))
    case (Some(c), Some(p)) => w.(cameras := [CameraStep(tr, cfg, dt, t, windows, c, p.pos, p.vel)])
    case _ => w
  }
}
