# game-test in Dafny

This project models the core of a small Bevy side-scroller (`game/`, with the older `src/` crate) and of its egui level editor (`level_editor/`). Every system is a pure function over one immutable `World` record. Coordinates are exact reals.

**The game.** One tick of the player consists of:
- horizontal approach to the input speed, gravity and semi-implicit integration;
- one-way AABB collision against every ground;
- the dirt-kick trigger;
- the jump state machine, with its capped air jumps and the xorshift32 bonus refund;
- hold tracking, the release cut and the landing reset.

Around the tick sit the death check and the consumption of a pending respawn. The level lifecycle covers:
- resolving a name to a file and reading it;
- spawning its platforms and exits as `LevelEntity` rows;
- detecting the exit the player touches;
- switching level.

The older crate's variant of the lifecycle is modelled too. Its exit detection is the same code as the newer crate's and is modelled once, by `LevelSystem.ExitDetection`. The rest of the game model covers:
- the lives bar and the game-over/restart state machine;
- the follow camera with its ceiling clamp;
- the startup system;
- a `Lifecycle` module that runs any sequence of systems.

Bevy runs the systems of one frame unchained, so the world invariant (`Lifecycle.Good`) is proved for every order and every number of runs.

**The editor.** Its pure logic is modelled:
- the camera transforms and the panel flip;
- scroll zoom anchored at the cursor, panning and framing;
- grid snapping with `f32::round`;
- resize handles and anchors, and hit testing;
- delete, duplicate, drag-create, move, start placement and renaming an exit's destination.

Outside inputs are parameters of the model:
- the file system is a map from path to contents;
- the TOML parser is an opaque `string -> Option<Level>`;
- a level reader is an opaque `string -> Option<Level>`;
- `exp`, `sin`, `cos` and `f32::to_bits` are function parameters;
- keyboard state, frame time, window heights and Bevy change detection are plain inputs.

## Model

| member | source | states |
|---|---|---|
| PlayerSystem.Approach | game/src/systems/player.rs:168-173 | the result lies between current and target, moves exactly min(max(maxDelta, 0), distance), reaches the target when the step suffices and strictly closes the gap otherwise |
| PlayerSystem.InputDir | game/src/systems/player.rs:30-32 | -1 exactly when only left is held, +1 exactly when only right is, 0 exactly when both or neither |
| PlayerSystem.Motion | game/src/systems/player.rs:34-47 | horizontal speed approaches dir·maxSpeed at the acceleration rate (or 0 at the deceleration rate); gravity lowers vy by gravity·dt; position moves by the updated velocity times dt |
| PlayerSystem.PenX | game/src/systems/player.rs:59-63 | the x penetration is positive exactly when the player box and the ground box overlap on x, and deepest (both half widths) when the centres line up |
| PlayerSystem.PenY | game/src/systems/player.rs:59-63 | the same along y |
| PlayerSystem.ResolveGround | game/src/systems/player.rs:60-93 | no strict overlap or rising through: unchanged; least penetration vertical and above: bottom rests on the top, vy 0, grounded; from below: unchanged; horizontal: flush with the nearer side on the same side, vx 0; never pushed down |
| PlayerSystem.ResolveAll | game/src/systems/player.rs:49-95 | over all grounds: never pushed down, each velocity component kept or zeroed, grounded only by landing with vy 0; no overlapping ground means nothing changes |
| PlayerSystem.Kicks | game/src/systems/player.rs:97-104 | at most one kick, emitted exactly when grounded with a direction held that reverses a horizontal speed above 30, pointing in the new direction |
| PlayerSystem.AfterRefund | game/src/systems/player.rs:122-127 | a refund lowers the jump count by exactly one, no refund keeps it |
| PlayerSystem.PressJump | game/src/systems/player.rs:107-147 | refund iff airborne, lucky and more than one jump used; jump iff grounded or the refunded count is below maxJumps; grounded jump count 1, air jump count +1 capped at maxJumps; jump velocity and fresh hold; bonus burst iff jumped with refund, normal burst iff count >= 2; the bound jumpsUsed <= maxJumps is kept |
| PlayerSystem.Bursts | game/src/systems/player.rs:139-145 | a bonus burst exactly for a refund, a normal burst exactly when two or more jumps are spent, all at the player |
| PlayerSystem.TrackHold | game/src/systems/player.rs:148-151 | hold time grows by dt·1000 exactly while jumping, held and rising; otherwise the state is unchanged |
| PlayerSystem.ReleaseJump | game/src/systems/player.rs:152-158 | jumping is always cleared; vy is multiplied by the cut factor exactly when hold < maxHold and rising |
| PlayerSystem.Landed | game/src/systems/player.rs:159-160 | landed only when grounded; grounded at vy 0 always lands; a landing vy lies strictly within f32::EPSILON of 0 |
| PlayerSystem.PhysicsStep | game/src/systems/player.rs:27-165 | size kept; the jump bound is preserved; a landed tick resets the jump state; no press means no bursts and, in the air, no change to the count; a release clears jumping; a kick implies grounded with a direction held |
| PlayerSystem.PhysicsSystem | game/src/systems/player.rs:18-29 | a no-op unless exactly one player exists; otherwise the player becomes the result of one physics step against the ground query, and the bursts and kicks returned are that step's; only the player store changes |
| PlayerSystem.DeathCheck | game/src/systems/player.rs:175-197 | no-op in GameOver or above y = -600; otherwise lives drop by one without underflow; at zero GameOver, the one overlay shown (overlays otherwise untouched), pending untouched; above zero a respawn at the level start (origin if none) is queued; entities, players and level state untouched |
| PlayerSystem.ApplyPendingStart | game/src/systems/player.rs:199-218 | a pending start is consumed; the single player goes there at rest with the default jump state; the single camera goes to (start.x, 0); no pending start changes nothing |
| PlayerProperties.JumpBoundInvariant | game/src/systems/player.rs:106-164 | with maxJumps >= 1, any sequence of ticks, inputs and hash draws keeps jumpsUsed <= maxJumps |
| PlayerProperties.AccelerationExample | game/src/systems/player.rs:30-47 | with the default tunables and 0.1 s frames, holding right from rest gives 200 then 300 (capped at max speed) |
| PlayerProperties.RestingStaysGrounded | game/src/systems/player.rs:42-164 | a player resting on a ground with no key pressed stays exactly there at rest, grounded, with the jump state reset |
| Xorshift.Xorshift32 | game/src/systems/player.rs:117-120 | the draw determines the word it scrambled: undoing the three steps gives it back |
| Xorshift.BonusHash | game/src/systems/player.rs:113-120 | the xor-folded seed can be recovered from the hash, and the hash is zero iff the seed is |
| Xorshift.XorshiftRoundTrip | game/src/systems/player.rs:117-120 | the three shift steps undone in reverse order recover the seed |
| Xorshift.XorshiftInjective | game/src/systems/player.rs:117-120 | two seeds give the same draw iff they are equal |
| Xorshift.XorshiftZero | game/src/systems/player.rs:116-120 | the draw is zero iff the seed is zero |
| Resources.RespawnPoint | game/src/systems/player.rs:192 | the recorded level start, or the origin when none is recorded |
| GameWorld.Single | game/src/systems/player.rs:185 | a single-entity query succeeds iff the store holds exactly one entity, and yields it |
| GameWorld.Grounds | game/src/systems/player.rs:52-53 | a row for every ground entity and no row that is not one; a single entity yields its own row or none |
| GameWorld.GroundsAppend | game/src/systems/player.rs:52-53 | the ground rows of a concatenation are those of each part, in storage order |
| GameWorld.Exits | game/src/systems/levels.rs:162-165 | a row for every exit entity and no row that is not one; a single entity yields its own row or none |
| GameWorld.ExitsAppend | game/src/systems/levels.rs:162-165 | the exit rows of a concatenation are those of each part, in storage order |
| GameWorld.WithoutLevelEntities | game/src/systems/levels.rs:184-186 | exactly the entities without the LevelEntity marker remain |
| LevelSystem.ResolvePath | game/src/systems/levels.rs:137-142 | a name ending in .toml or containing / or \ is used verbatim, any other becomes levels/name.toml; the result is always a path |
| LevelSystem.IsPath | game/src/systems/levels.rs:137 | a path is never empty, and any name under levels/ is a path (so a resolved name is used verbatim) |
| LevelSystem.ResolvePathIdempotent | game/src/systems/levels.rs:137-142 | resolving twice is resolving once |
| LevelSystem.ReadLevel | game/src/systems/levels.rs:134-150 | None when the resolved file is missing, else whatever the parser makes of its contents |
| LevelSystem.PlatformEntities | game/src/systems/levels.rs:20-34 | one tagged ground per platform, in file order, carrying its centre and size |
| LevelSystem.ExitEntities | game/src/systems/levels.rs:35-49 | one tagged exit per exit record, in file order, carrying its destination and size |
| LevelSystem.LevelEntities | game/src/systems/levels.rs:19-49 | platforms first then exits, each in file order, all tagged LevelEntity |
| LevelSystem.SpawnLoadedLevel | game/src/systems/levels.rs:19-53 | the level's entities are appended, the pending start and the level start both become the file's start, nothing else changes |
| LevelSystem.SpawnedGeometryIsQueried | game/src/systems/levels.rs:19-53 | after spawning, the ground and exit queries yield the old rows followed by exactly the file's platforms and exits |
| LevelSystem.LoadLevel | game/src/systems/levels.rs:55-60 | a level that does not read changes nothing; one that reads is spawned |
| LevelSystem.PollLevelSlot | game/src/systems/levels.rs:96-109 | a delivered level is spawned and the slot emptied; otherwise nothing changes |
| LevelSystem.TouchesExit | game/src/systems/levels.rs:165-168 | a player centred on an exit of non-negative size touches it; edge contact on either axis is not a touch (strict test) |
| LevelSystem.FirstTouched | game/src/systems/levels.rs:162-172 | the first exit index that strictly overlaps the player, None iff none does |
| LevelSystem.ExitDetection | game/src/systems/levels.rs:152-174 | no-op while a request is pending or without a single player; the request becomes the destination of the first strictly overlapping exit, and stays None iff none overlaps; nothing else changes |
| LevelSystem.LevelTransition | game/src/systems/levels.rs:176-190 | no request: no-op; otherwise the request is consumed, every LevelEntity removed, the level made current and loaded; players, cameras, lives, state and UI untouched |
| LevelSystem.TransitionReplacesLevel | game/src/systems/levels.rs:183-189 | every non-level entity survives, every level entity afterwards belongs to the new level, and the starts follow the load's success |
| LevelSystem.TransitionQueriesSeeNewLevel | game/src/systems/levels.rs:176-190 | when only level geometry is ground or exit, the physics and exit queries afterwards see exactly the new level's platforms and exits (nothing if it failed to load) |
| LegacyLevelSystem.LegacyPath | src/systems/levels.rs:69-71 | the path is levels/ + name + .toml and the name can be read back from it |
| LegacyLevelSystem.LegacyPathInjective | src/systems/levels.rs:69-71 | two names share a path iff they are equal |
| LegacyLevelSystem.LegacyAgreesOnBareNames | src/systems/levels.rs:69-74 | the two crates open the same file for a bare name and never for a name that is already a path |
| LegacyLevelSystem.LegacyReadLevel | src/systems/levels.rs:69-74 | None when the file is missing, else the parser's result on it |
| LegacyLevelSystem.DoLoadLevel | src/systems/levels.rs:31-67 | a level that reads appends its tagged platforms and exits and sets both starts; one that does not changes nothing |
| LegacyLevelSystem.LegacyTransition | src/systems/levels.rs:100-114 | no request: no-op; otherwise consume it, remove every LevelEntity, make it current, then load; players and cameras untouched |
| Ui.SetupUi | src/systems/ui.rs:6-56 | appends heart slots 0, 1, 2 drawn full and one hidden overlay; nothing else changes |
| Ui.Paint | src/systems/ui.rs:63-68 | a heart is full iff its slot is below the life count |
| Ui.UpdateLivesUi | src/systems/ui.rs:58-70 | unchanged lives: nothing repainted; changed: every heart full iff its slot is below the life count, slots kept |
| Ui.GameOverRestart | src/systems/ui.rs:72-91 | only in GameOver with Space just pressed: lives refilled to max, Running, overlay hidden, the current level requested and a respawn at the level start queued |
| Ui.HeartsShowLives | src/systems/ui.rs:6-70 | right after setup and a repaint, exactly the leftmost min(lives, 3) of the three hearts are full |
| CameraFollow.Lag | game/src/systems/camera.rs:18 | the lag is at least 0.0001, and is the configured one unless that is smaller |
| CameraFollow.Frequencies | game/src/systems/camera.rs:24-25 | the base frequency is the configured one, or 0.01 when that is lower; the second is 0.73 of it |
| CameraFollow.Amplitudes | game/src/systems/camera.rs:26-27 | each axis uses its own amplitude when set and the shared one otherwise |
| CameraFollow.ViewHeight | game/src/systems/camera.rs:29 | the window height with exactly one window, 540 otherwise |
| CameraFollow.Ceiling | game/src/systems/camera.rs:30-32 | a camera at the ceiling has the bottom of its view exactly 40 below GROUND_Y; with the default 540-high view the ceiling is 80 |
| CameraFollow.Target | game/src/systems/camera.rs:15-16 | the target is ahead by vel.x·lookahead and vel.y·0.6·lookahead; at rest it is the player |
| CameraFollow.Smooth | game/src/systems/camera.rs:19-21 | the remaining gap shrinks by the factor 1 - alpha on each axis; for alpha in [0, 1] the camera ends between its old place and the target |
| CameraFollow.PartWayBetween | game/src/systems/camera.rs:20-21 | a step by a fraction in [0, 1] of the gap ends between the start and the target |
| CameraFollow.Alpha | game/src/systems/camera.rs:18-19 | no time step means no movement (for exp(0) = 1); with a lag at least 0.0001 the fraction is 1 - exp(-dt/lag) with the configured lag |
| CameraFollow.AlphaIsFraction | game/src/systems/camera.rs:18-19 | for a forward step and an exp mapping non-positive numbers into (0, 1], the smoothing fraction lies in [0, 1) |
| CameraFollow.Phases | game/src/systems/camera.rs:36-39 | the second phase runs at 0.73 of the first, the vertical phases at 0.33 and 0.47 of the horizontal ones; all are 0 at t = 0 |
| CameraFollow.Wave | game/src/systems/camera.rs:36-37 | two half-amplitude waves: the full amplitude when both are at their peak, nothing when they cancel |
| CameraFollow.WaveBounded | game/src/systems/camera.rs:36-37 | with both waves in [-1, 1] the sum stays within the amplitude |
| CameraFollow.AxisNoise | game/src/systems/camera.rs:36-39 | zero amplitude gives no wobble; a sine and cosine both at 1 give the full amplitude |
| CameraFollow.AxisNoiseBounded | game/src/systems/camera.rs:36-37 | with sine and cosine in [-1, 1], one axis of the wobble stays within its amplitude |
| CameraFollow.Noise | game/src/systems/camera.rs:36-41 | no configured amplitude on either axis means no wobble |
| CameraFollow.NoiseBounded | game/src/systems/camera.rs:36-39 | with sine and cosine in [-1, 1], the wobble on each axis stays within that axis's amplitude |
| CameraFollow.PreNoise | game/src/systems/camera.rs:15-34 | before the wobble, x is the smoothed x and y the smoothed y capped at the ceiling minus the vertical amplitude |
| CameraFollow.PreNoiseFollowsTarget | game/src/systems/camera.rs:15-22 | with a forward step and a true exp, the camera lands between its old place and the target (vertically, unless capped) |
| CameraFollow.CameraStep | game/src/systems/camera.rs:15-43 | after the tick, camera y is at most GROUND_Y + half the view height - 40 whatever the noise; x is the pre-noise x plus the wobble, y the pre-noise y plus the wobble capped at that ceiling |
| CameraFollow.HeadroomSuffices | game/src/systems/camera.rs:31-43 | with a non-negative vertical amplitude and true sine and cosine, the final clamp never bites |
| CameraFollow.CameraSystem | game/src/systems/camera.rs:7-45 | a no-op unless there is exactly one camera and one player; then only the camera moves, to the one-tick result for that player, below the ceiling |
| Startup.InitialWorld | src/main.rs:27-32 | before startup: no entities, three lives of three, Running, level1 current, no pending start, no request, no level start |
| Startup.SpawnedPlayer | game/src/systems/startup.rs:20-34 | the player spawns at the origin, 32 by 32, at rest, not jumping, with no hold time and no jump spent |
| Startup.Setup | game/src/systems/startup.rs:8-38 | one camera at the origin and one player at the origin at rest with the default jump, hearts and a hidden overlay, then the current level is loaded: its entities, pending start and level start when it reads, nothing when it does not |
| Startup.StartupPlacesPlayer | game/src/systems/startup.rs:8-38 | from the initial world, setup then the pending start leaves one player and one camera; with level1 loaded the player rests on its start and the camera is at (start.x, 0), otherwise both stay at the origin |
| Lifecycle.Good | src/main.rs:36-49 | in a good world the single-entity queries of the physics and camera systems succeed, and the game runs exactly while a life is left |
| Lifecycle.Apply | src/main.rs:36-49 | every system except the level transition leaves the entity store and the current level as they were |
| Lifecycle.RunAll | src/main.rs:36-49 | no runs change nothing; a run sequence without a level transition leaves the entity store, hence the ground and exit geometry, and the current level unchanged |
| Lifecycle.ApplyKeepsGood | src/main.rs:36-49 | every registered system keeps the world invariant: one player, one camera, one overlay, three heart slots, lives within max, GameOver iff no lives iff the overlay shows, jumpsUsed <= maxJumps |
| Lifecycle.RunAllKeepsGood | src/main.rs:36-49 | any sequence of system runs, in any order and any number, keeps the invariant |
| Lifecycle.StartupIsGood | src/main.rs:27-35 | the resources main inserts followed by setup establish the invariant, whether or not the first level loads |
| Lifecycle.FallCostsOneLife | game/src/systems/player.rs:183-217 | a fall with two or more lives costs one life and, once the pending start applies, puts the player at rest on the level start |
| Lifecycle.LastFallEndsGame | game/src/systems/player.rs:183-190 | a fall on the last life leaves no lives, GameOver, the overlay shown and no respawn; further death checks change nothing |
| Lifecycle.RestartReloadsLevel | src/systems/ui.rs:82-90 | restart refills lives and hides the overlay; the request it makes reloads the current level, and the player lands on that level's start (or the old one if it fails to load) with the invariant kept |
| Lifecycle.ExitExample | game/src/systems/levels.rs:157-172 | a player at (500, -100) inside a 40 by 80 exit to level2 requests level2, and the transition makes it current |
| EditorView.ScreenToWorld | level_editor/src/main.rs:171-174 | for non-zero zoom it inverts world_to_screen: the world point it returns maps back to the given screen point |
| EditorView.WorldScreenRoundTrip | level_editor/src/main.rs:166-175 | screen_to_world(world_to_screen(p)) == p for non-zero zoom |
| EditorView.WorldToScreen | level_editor/src/main.rs:167-170 | the offset maps to the screen origin; for non-zero zoom dividing by the zoom and adding the offset recovers the world point |
| EditorView.CamToPanel | level_editor/src/main.rs:41-43 | panel_to_cam undoes it; a point at half the height is fixed |
| EditorView.PanelToCam | level_editor/src/main.rs:44-46 | x kept, y mirrored about half the viewport height |
| EditorView.PanelFlipsInvolution | level_editor/src/main.rs:41-46 | cam_to_panel and panel_to_cam undo each other in both orders, keep x and map y to h - y |
| EditorView.ZoomFactor | level_editor/src/main.rs:385 | the scroll factor lies in [0.1, 10] and is 1 + scroll/1000 when that does |
| EditorView.ScrollZoom | level_editor/src/main.rs:378-394 | no scroll: unchanged; otherwise the zoom is scaled, clamped to [0.05, 10], and the world point under the cursor stays under it |
| EditorView.ZoomAnchorHolds | level_editor/src/main.rs:378-394 | with the offset corrected by the cursor's screen drift divided by the new zoom, the world point under the cursor is the one that was there before |
| EditorView.Pan | level_editor/src/main.rs:370-376 | panning keeps the zoom |
| EditorView.PanFollowsCursor | level_editor/src/main.rs:370-376 | after a pan by delta, the world point that was under panel point p is under p + delta |
| EditorView.LevelBoxes | level_editor/src/main.rs:329-342 | one (min, max) box per item: the platforms in order, then the exits in order |
| EditorView.Hull | level_editor/src/main.rs:327-343 | None iff there are no items; otherwise a box enclosing every item whose x bounds are attained by some item |
| EditorView.FitZoom | level_editor/src/main.rs:346-350 | the fitted zoom is always within [0.05, 10]; when the clamp does not bite, the padded content fits both axes and fills at least one |
| EditorView.CentredOn | level_editor/src/main.rs:351-353 | the camera at the given zoom shows the focus at the given centre |
| EditorView.Frame | level_editor/src/main.rs:323-363 | the zoom is in range: 1 for an empty level, the fitted zoom otherwise; the content centre (or the start) lands on the viewport centre |
| EditorSnap.Round | level_editor/src/main.rs:648 | f32::round: the integer within a half, ties away from zero |
| EditorSnap.RoundInteger | level_editor/src/main.rs:648 | rounding leaves integers alone |
| EditorSnap.RoundOdd | level_editor/src/main.rs:648 | rounding is symmetric about zero |
| EditorSnap.SnapValue | level_editor/src/main.rs:648 | an integer multiple of the grid, no further than half a grid step from the value |
| EditorSnap.SnapIdempotent | level_editor/src/main.rs:648 | snapping a snapped value changes nothing |
| EditorSnap.SnapOfMultiple | level_editor/src/main.rs:648 | an exact multiple k of the grid snaps to index k |
| EditorSnap.NearestMultiple | level_editor/src/main.rs:648 | an index within a half of value/grid gives a multiple within half a grid step of the value |
| EditorSnap.SnapPositive | level_editor/src/main.rs:649 | for a positive grid, the non-negative magnitude of the snapped value |
| EditorSnap.SnapVec2 | level_editor/src/main.rs:650 | both coordinates snapped, each within half a grid step |
| EditorEdit.WithRect | level_editor/src/main.rs:103-106 | only the indexed item's rectangle changes, an exit keeps its destination, an index out of range changes nothing |
| EditorEdit.ResizeStart | level_editor/src/main.rs:72-92 | the anchor is the corner diagonally opposite the grabbed handle, so that the item's centre is the midpoint of anchor and handle |
| EditorEdit.Spanned | level_editor/src/main.rs:96-100 | centred at the midpoint of anchor and drag point, each side the distance between them but at least 1 |
| EditorEdit.ResizeApply | level_editor/src/main.rs:94-109 | the item becomes the rectangle centred between anchor and drag point with sides at least 1; other items of its kind unchanged, the other list, start, meta and every exit destination kept; out of range a no-op |
| EditorEdit.ResizeSpansAnchorAndDrag | level_editor/src/main.rs:94-109 | a drag at least 1 from the anchor on both axes gives exactly the rectangle with anchor and drag point as opposite corners |
| EditorEdit.ResizeInPlace | level_editor/src/main.rs:72-109 | grabbing a handle and releasing it where it was leaves the level unchanged |
| EditorEdit.PointInCenterRect | level_editor/src/main.rs:643-646 | inside or on the border of the box between the rectangle's min and max corners |
| EditorEdit.CentreAndCornersInside | level_editor/src/main.rs:643-646 | bounds are inclusive: a rectangle holds its centre iff its sides are not negative, and then its four corners too |
| EditorEdit.Rects | level_editor/src/main.rs:634-638 | the items of one kind as rectangles, in storage order |
| EditorEdit.LastHit | level_editor/src/main.rs:634-639 | the highest index holding the point, None iff none does |
| EditorEdit.HitTestLevel | level_editor/src/main.rs:632-641 | exits before platforms, the highest holding index within a kind; a platform only when no exit holds the point; None iff no item does |
| EditorEdit.OnWindow | level_editor/src/main.rs:131-137 | for non-zero zoom the window point leads back to the world point through panel_to_cam and screen_to_world |
| EditorEdit.HandleHit | level_editor/src/main.rs:130-139 | a point on the handle's own corner always hits it |
| EditorEdit.HandleHitIsZoomedDistance | level_editor/src/main.rs:130-139 | a handle is hit iff the zoomed distance on each axis is at most 6 pixels, wherever the canvas sits |
| EditorEdit.RectHandle | level_editor/src/main.rs:142-155 | the first handle in the order NW, NE, SW, SE that is hit, None iff none is |
| EditorEdit.HandlesHit | level_editor/src/main.rs:157-161 | the handle hit on each rectangle, in storage order |
| EditorEdit.LastHandleHit | level_editor/src/main.rs:157-162 | the highest index with a handle hit, None iff there is none |
| EditorEdit.HitTestHandles | level_editor/src/main.rs:127-164 | exits before platforms, highest index first; a platform only when no exit handle is hit; None iff no handle is hit |
| EditorEdit.ClickSelect | level_editor/src/main.rs:465-481 | the selection names an existing item; a handle hit selects its item and starts a resize from it; otherwise the selection is exactly hit_test_level's pick (last exit, else last platform, under the cursor), or nothing, and an ongoing resize is kept |
| EditorEdit.Delete | level_editor/src/main.rs:434-442 | an in-range item is removed and later ones shift down (whole exit records, destinations included); the other list, start and meta stay; out of range nothing is removed; the selection is always cleared |
| EditorEdit.Duplicate | level_editor/src/main.rs:444-460 | a copy shifted by (+10, -10) with the same size and destination is appended; the existing items of both lists, the start and meta stay |
| EditorEdit.DeleteUndoesDuplicate | level_editor/src/main.rs:434-460 | deleting the appended copy gives back the level |
| EditorEdit.DrawnRect | level_editor/src/main.rs:556-563 | centred at the drag midpoint, each side the distance (snapped when snapping) but at least 1 |
| EditorEdit.DrawnRectSpansDrag | level_editor/src/main.rs:556-563 | without snapping, a drag at least 1 long on both axes draws the rectangle with the drag points as opposite corners |
| EditorEdit.CreateFromDrag | level_editor/src/main.rs:551-570 | the platform tool appends a platform, the exit tool an exit to level2, the other tools nothing |
| EditorEdit.DragInWorld | level_editor/src/main.rs:486-488 | the world move times the zoom gives back the panel drag, y flipped |
| EditorEdit.AxisLocked | level_editor/src/main.rs:490-492 | with Shift the larger-magnitude axis is kept and the other zeroed (x dropped on a tie); without Shift the move is unchanged |
| EditorEdit.DragDelta | level_editor/src/main.rs:486-496 | the drag in world units, axis-locked with Shift, then snapped per axis when snapping; Shift leaves one axis zero; a snapped move is on the grid |
| EditorEdit.SnappedDragIsNearest | level_editor/src/main.rs:493-496 | snapping moves a drag by at most half a cell per axis and leaves a drag already on the grid unchanged |
| EditorEdit.MoveItem | level_editor/src/main.rs:497-510 | the item moves by the delta with its size kept; other items of its kind unchanged, the other list, start, meta and every exit destination kept; out of range a no-op |
| EditorEdit.MoveBackRestores | level_editor/src/main.rs:497-510 | moving back by the opposite delta restores the level |
| EditorEdit.MoveSelected | level_editor/src/main.rs:483-512 | no selection: unchanged; otherwise the selected item moves by the drag's world delta |
| EditorEdit.SetStart | level_editor/src/main.rs:572-582 | the start goes under the cursor, snapped to within half a grid step when snapping; nothing else changes |
| EditorEdit.SetExitNext | level_editor/src/main.rs:606-615 | only the exit list may change, so the platforms, start and metadata are kept; renames only the selected exit's destination, keeping its rectangle; any other selection changes nothing |
| EditorEdit.RenameBackRestores | level_editor/src/main.rs:606-615 | typing the old destination back restores the level |

## Left out

- f32 arithmetic: rounding, NaN and infinities are not modelled, and coordinates are exact reals. The editor's infinite start values for the bounding box are modelled as an empty `Option` (`EditorView.Hull`).
- `exp`, `sin`, `cos` and `f32::to_bits` are function parameters. The comparison `h / u32::MAX < 0.10` is an abstract predicate `lucky` on the hash. The elapsed-time bits are a `bv32` input.
- The web build's asynchronous fetch (HTTP, `spawn_local`, the channel). Only the poll of its one-slot channel is modelled. The web path resolution is the same rule as `LevelSystem.ResolvePath`.
- File and TOML I/O: the game's config loading, level reading and parsing, and the editor's Open, Save, Save As and file dialogs. Reading is a map lookup plus an opaque parser.
- Rendering and cosmetics: sprites, colours, the particle systems (which only consume the jump-burst and dirt-kick events returned here), the background, the egui drawing, the grid and the status text.
- `player_input_system` reads the keyboard and discards the result, so it has no effect to model.
- Query iteration order: Bevy does not document it. The model iterates in spawn order and keeps that order when entities are despawned. The order only matters for `PlayerSystem.ResolveAll` and `LevelSystem.FirstTouched`, and every level entity is despawned before the next level spawns.
- Bevy's scheduling, deferred `Commands` and change detection. Each system is one step on the world, applied immediately. `Lives::is_changed` is a boolean input.
- `setup_ui` is called with two arguments from the game's startup but takes one in the `src/` crate shown. The one-argument version is modelled, and the asset server plays no part in it.
- The editor's tool switches, the New button, and the Frame button's flag are left out. The pan and snap modifier keys are inputs.
- EditorView.ScrollZoom, EditorView.Pan, EditorEdit.MoveSelected: each requires a non-zero zoom. The editor's zoom is clamped to [0.05, 10] wherever it is set, so it is never zero.
- EditorEdit.ResizeStart: requires the index to be in range. The source indexes directly and would panic, and the only caller passes an index that handle hit testing has just found.
- EditorSnap.SnapPositive: only the positive-grid case is stated, because the editor's grid is fixed at 10.
- EditorView.Hull: the x bounds are proved attained, the y bounds only enclosing.
- PlayerProperties.JumpBoundInvariant: holds the grounds fixed across the ticks it chains. The per-tick bound in `PlayerSystem.PhysicsStep` holds for any grounds, and `Lifecycle.RunAllKeepsGood` carries the bound across level switches and every other system.
