/** The lives bar and the game-over screen (`src/systems/ui.rs`): three heart
    slots, an overlay that starts hidden, a repaint of the hearts whenever
    `Lives` changes, and the restart that Space triggers while the game is
    over. Layout, colours and fonts are not modelled; a heart is full or
    empty. */
module Ui {
  import opened Wrappers
  import opened Geometry
  import opened Resources
  import opened Components
  import opened GameWorld

  /** How many heart slots the bar holds. */
  const HeartCount: nat := 3

  /** `setup_ui`: heart slots 0, 1 and 2, drawn full, and a hidden game-over
      overlay; nothing else changes. */
  function SetupUi(w: World): (r: World)
    ensures |r.hearts| == |w.hearts| + HeartCount
    ensures r.hearts[..|w.hearts|] == w.hearts
    ensures forall i :: 0 <= i < HeartCount ==> r.hearts[|w.hearts| + i] == Heart(i, true)
    ensures r.overlays == w.overlays + [Hidden]
    ensures r == w.(hearts := r.hearts, overlays := r.overlays)
  {
    w.(hearts := w.hearts + [Heart(0, true), Heart(1, true), Heart(2, true)],
       overlays := w.overlays + [Hidden])
  }

  /** Repaints one heart: full exactly when its slot is below the life count. */
  function Paint(h: Heart, lives: Lives): (r: Heart)
    ensures r.slot == h.slot
    ensures r.full <==> h.slot < lives.current
  {
    h.(full := h.slot < lives.current)
  }

  /** `update_lives_ui_system`: only when `Lives` changed since the last run,
      every heart is repainted. */
  function UpdateLivesUi(w: World, livesChanged: bool): (r: World)
    ensures !livesChanged ==> r == w
    ensures |r.hearts| == |w.hearts|
    ensures livesChanged ==> forall i :: 0 <= i < |w.hearts| ==>
      r.hearts[i].slot == w.hearts[i].slot && (r.hearts[i].full <==> w.hearts[i].slot < w.lives.current)
    ensures r == w.(hearts := r.hearts)
  {
    if !livesChanged then w
    else w.(hearts := seq(|w.hearts|, i requires 0 <= i < |w.hearts| => Paint(w.hearts[i], w.lives)))
  }

  /** `game_over_restart_system`: only while the game is over and Space was
      just pressed, lives refill, play resumes, the overlay hides (if there is
      exactly one), the current level is requested again and the player is
      sent to its recorded start. */
  function GameOverRestart(w: World, spacePressed: bool): (r: World)
    ensures w.state != GameOver || !spacePressed ==> r == w
    ensures w.state == GameOver && spacePressed ==>
      && r.lives == Lives(w.lives.max, w.lives.max)
      && r.state == Running
      && (|w.overlays| == 1 ==> r.overlays == [Hidden])
      && (|w.overlays| != 1 ==> r.overlays == w.overlays)
      && r.request == Some(w.manager.current)
      && r.pending == Some(RespawnPoint(w.levelStart))
      && r == w.(lives := r.lives, state := r.state, overlays := r.overlays, request := r.request, pending := r.pending)
  {
    if w.state != GameOver then w
    else if !spacePressed then w
    else
      var overlays := if |w.overlays| == 1 then [Hidden] else w.overlays;
      w.(lives := w.lives.(current := w.lives.max),
         state := Running,
         overlays := overlays,
         request := Some(w.manager.current),
         pending := Some(RespawnPoint(w.levelStart)))
  }

  /** Right after setup and a repaint, the number of full hearts is the life
      count (up to the three slots), and they are the leftmost ones. */
  lemma HeartsShowLives(w: World)
    requires w.hearts == []
    ensures var r := UpdateLivesUi(SetupUi(w), true);
            |r.hearts| == HeartCount &&
            forall i :: 0 <= i < HeartCount ==> r.hearts[i].slot == i && (r.hearts[i].full <==> i < w.lives.current)
  {
    var s := SetupUi(w);
    assert forall i :: 0 <= i < HeartCount ==> s.hearts[i] == Heart(i, true);
  }
}
