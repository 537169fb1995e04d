/** The level editor's view (`level_editor/src/main.rs`): a camera whose
    screen space has its origin at the bottom-left of the canvas with Y up,
    the flip to egui's panel space (origin top-left, Y down), scroll zoom
    anchored at the cursor, hand-tool panning and framing a level's content.
    The zoom is pixels per world unit; every way of setting it clamps it to
    [0.05, 10], so it is never zero. */
module EditorView {
  import opened Wrappers
  import opened Geometry
  import opened LevelFormat

  /** `Camera`: the world position of the screen origin and the zoom. */
  datatype EditorCamera = EditorCamera(offset: Vec2, zoom: real)

  const MinZoom: real := 0.05
  const MaxZoom: real := 10.0

  /** Whether a zoom is one the editor can reach. */
  predicate ZoomInRange(z: real) {
    MinZoom <= z <= MaxZoom
  }

  /** `Camera::world_to_screen`. */
  function WorldToScreen(cam: EditorCamera, world: Vec2): (s: Vec2)
    ensures world == cam.offset ==> s == Vec2(0.0, 0.0)
    ensures cam.zoom != 0.0 ==> s.x / cam.zoom + cam.offset.x == world.x && s.y / cam.zoom + cam.offset.y == world.y
  {
    Vec2((world.x - cam.offset.x) * cam.zoom, (world.y - cam.offset.y) * cam.zoom)
  }

  /** `Camera::screen_to_world`: undoes `WorldToScreen` for any non-zero zoom. */
  function ScreenToWorld(cam: EditorCamera, screen: Vec2): (world: Vec2)
    requires cam.zoom != 0.0
    ensures WorldToScreen(cam, world) == screen
  {
    Vec2(screen.x / cam.zoom + cam.offset.x, screen.y / cam.zoom + cam.offset.y)
  }

  /** The other direction: a world point taken to the screen and back is
      itself again. */
  lemma WorldScreenRoundTrip(cam: EditorCamera, world: Vec2)
    requires cam.zoom != 0.0
    ensures ScreenToWorld(cam, WorldToScreen(cam, world)) == world
  {
    var s := WorldToScreen(cam, world);
    assert s.x / cam.zoom == world.x - cam.offset.x;
    assert s.y / cam.zoom == world.y - cam.offset.y;
  }

  /** `cam_to_panel`: flips Y within a viewport of height `height`. */
  function CamToPanel(screen: Vec2, height: real): (p: Vec2)
    ensures PanelToCam(p, height) == screen
    ensures screen.y == height / 2.0 ==> p == screen
  {
    Vec2(screen.x, height - screen.y)
  }

  /** `panel_to_cam`: the same flip, in the other direction. */
  function PanelToCam(panel: Vec2, height: real): (c: Vec2)
    ensures c.x == panel.x && c.y - height / 2.0 == height / 2.0 - panel.y
  {
    Vec2(panel.x, height - panel.y)
  }

  /** The two flips undo each other, in either order, and each is its own
      inverse: Y maps to `height - Y`, X is kept. */
  lemma PanelFlipsInvolution(p: Vec2, height: real)
    ensures PanelToCam(CamToPanel(p, height), height) == p
    ensures CamToPanel(PanelToCam(p, height), height) == p
    ensures CamToPanel(p, height).x == p.x && CamToPanel(p, height).y + p.y == height
  {
  }

  /** The world point under a panel point. */
  function WorldAt(cam: EditorCamera, height: real, panel: Vec2): Vec2
    requires cam.zoom != 0.0
  {
    ScreenToWorld(cam, PanelToCam(panel, height))
  }

  /** The factor one scroll step applies: 1 + delta/1000, kept in [0.1, 10]. */
  function ZoomFactor(scroll: real): (f: real)
    ensures 0.1 <= f <= 10.0
    ensures 0.1 <= 1.0 + scroll * 0.001 <= 10.0 ==> f == 1.0 + scroll * 0.001
  {
    Clamp(1.0 + scroll * 0.001, 0.1, 10.0)
  }

  /** Scroll zoom at the cursor (`mouse` in panel coordinates): no scroll
      changes nothing; otherwise the zoom is scaled and clamped to
      [0.05, 10], and the offset is moved so that the world point under the
      cursor stays under the cursor. */
  function ScrollZoom(cam: EditorCamera, height: real, mouse: Vec2, scroll: real): (r: EditorCamera)
    requires cam.zoom != 0.0
    ensures scroll == 0.0 ==> r == cam
    ensures scroll != 0.0 ==> ZoomInRange(r.zoom)
    ensures scroll != 0.0 ==> r.zoom == Clamp(cam.zoom * ZoomFactor(scroll), MinZoom, MaxZoom)
    ensures r.zoom != 0.0 && WorldAt(r, height, mouse) == WorldAt(cam, height, mouse)
  {
    if scroll == 0.0 then cam
    else
      var mouseCam := PanelToCam(mouse, height);
      var pre := ScreenToWorld(cam, mouseCam);
      var zoom := Clamp(cam.zoom * ZoomFactor(scroll), MinZoom, MaxZoom);
      var zoomed := cam.(zoom := zoom);
      var post := WorldToScreen(zoomed, pre);
      var postPanel := CamToPanel(post, height);
      var deltaPanel := Vec2(mouse.x - postPanel.x, mouse.y - postPanel.y);
      var deltaCam := Vec2(deltaPanel.x, -deltaPanel.y);
      var r := zoomed.(offset := Vec2(cam.offset.x + -deltaCam.x / zoom, cam.offset.y + -deltaCam.y / zoom));
      ZoomAnchorHolds(cam.offset, pre, mouseCam, zoom);
      r
  }

  /** The arithmetic behind the anchor: moving the offset by the gap
      between the cursor and where the anchor lands brings the anchor back
      under the cursor. */
  lemma ZoomAnchorHolds(offset: Vec2, pre: Vec2, mouseCam: Vec2, zoom: real)
    requires zoom != 0.0
    ensures var post := WorldToScreen(EditorCamera(offset, zoom), pre);
            var o := Vec2(offset.x - (mouseCam.x - post.x) / zoom, offset.y - (mouseCam.y - post.y) / zoom);
            ScreenToWorld(EditorCamera(o, zoom), mouseCam) == pre
  {
    var post := WorldToScreen(EditorCamera(offset, zoom), pre);
    assert post.x / zoom == pre.x - offset.x;
    assert post.y / zoom == pre.y - offset.y;
    assert (mouseCam.x - post.x) / zoom == mouseCam.x / zoom - post.x / zoom;
    assert (mouseCam.y - post.y) / zoom == mouseCam.y / zoom - post.y / zoom;
  }

  /** Hand-tool panning by a drag of `delta` panel pixels; the zoom stays. */
  function Pan(cam: EditorCamera, delta: Vec2): (r: EditorCamera)
    requires cam.zoom != 0.0
    ensures r.zoom == cam.zoom
  {
    var deltaCam := Vec2(delta.x, -delta.y);
    cam.(offset := Vec2(cam.offset.x - deltaCam.x / cam.zoom, cam.offset.y - deltaCam.y / cam.zoom))
  }

  /** Panning makes the content follow the cursor: the world point that was
      under panel point `p` is, after the pan, under `p + delta`. */
  lemma PanFollowsCursor(cam: EditorCamera, delta: Vec2, height: real, p: Vec2)
    requires cam.zoom != 0.0
    ensures WorldAt(Pan(cam, delta), height, Vec2(p.x + delta.x, p.y + delta.y)) == WorldAt(cam, height, p)
  {
    PanStep(cam.offset, cam.zoom, delta, p.x, height - p.y);
  }

  lemma PanStep(offset: Vec2, zoom: real, delta: Vec2, cx: real, cy: real)
    requires zoom != 0.0
    ensures (cx + delta.x) / zoom + (offset.x - delta.x / zoom) == cx / zoom + offset.x
    ensures (cy - delta.y) / zoom + (offset.y - -delta.y / zoom) == cy / zoom + offset.y
  {
    assert (cx + delta.x) / zoom == cx / zoom + delta.x / zoom;
    assert (cy - delta.y) / zoom == cy / zoom - delta.y / zoom;
  }

  // ---------------------------------------------------------------- framing

  /** The corners of a centred rectangle. */
  function BoxMin(x: real, y: real, w: real, h: real): Vec2 {
    Vec2(x - w * 0.5, y - h * 0.5)
  }

  function BoxMax(x: real, y: real, w: real, h: real): Vec2 {
    Vec2(x + w * 0.5, y + h * 0.5)
  }

  /** Every item of a level as a (min corner, max corner) pair, platforms
      first. */
  function LevelBoxes(level: Level): (r: seq<(Vec2, Vec2)>)
    ensures |r| == |level.platforms| + |level.exits|
    ensures forall i :: 0 <= i < |level.platforms| ==>
      var p := level.platforms[i]; r[i] == (BoxMin(p.x, p.y, p.w, p.h), BoxMax(p.x, p.y, p.w, p.h))
    ensures forall i :: 0 <= i < |level.exits| ==>
      var e := level.exits[i]; r[|level.platforms| + i] == (BoxMin(e.x, e.y, e.w, e.h), BoxMax(e.x, e.y, e.w, e.h))
  {
    seq(|level.platforms|, i requires 0 <= i < |level.platforms| =>
          var p := level.platforms[i]; (BoxMin(p.x, p.y, p.w, p.h), BoxMax(p.x, p.y, p.w, p.h)))
    + seq(|level.exits|, i requires 0 <= i < |level.exits| =>
          var e := level.exits[i]; (BoxMin(e.x, e.y, e.w, e.h), BoxMax(e.x, e.y, e.w, e.h)))
  }

  /** Whether the box `(lo, hi)` contains every given box. */
  predicate Encloses(lo: Vec2, hi: Vec2, boxes: seq<(Vec2, Vec2)>) {
    forall i :: 0 <= i < |boxes| ==>
      lo.x <= boxes[i].0.x && lo.y <= boxes[i].0.y && boxes[i].1.x <= hi.x && boxes[i].1.y <= hi.y
  }

  /** The smallest box around all the boxes, `None` when there are none
      (the source's infinite start values that stay infinite). */
  function Hull(boxes: seq<(Vec2, Vec2)>): (r: Option<(Vec2, Vec2)>)
    ensures r.None? <==> |boxes| == 0
    ensures r.Some? ==> Encloses(r.value.0, r.value.1, boxes)
    ensures r.Some? ==> exists i :: 0 <= i < |boxes| && boxes[i].0.x == r.value.0.x
    ensures r.Some? ==> exists i :: 0 <= i < |boxes| && boxes[i].1.x == r.value.1.x
    decreases |boxes|
  {
    if |boxes| == 0 then None
    else
      var b := boxes[|boxes| - 1];
      match Hull(boxes[..|boxes| - 1])
      case None => Some(b)
      case Some(h) =>
        Some((Vec2(Min(h.0.x, b.0.x), Min(h.0.y, b.0.y)), Vec2(Max(h.1.x, b.1.x), Max(h.1.y, b.1.y))))
  }

  /** Padding, in pixels, left around framed content. */
  const FramePad: real := 20.0

  /** The camera-space centre of a viewport of the given size. */
  function ViewCentre(size: Vec2): Vec2 {
    PanelToCam(Vec2(size.x * 0.5, size.y * 0.5), size.y)
  }

  /** The world point a framed view centres on: the middle of the content,
      or the start when the level has no items. */
  function FrameFocus(level: Level): Vec2 {
    match Hull(LevelBoxes(level))
    case None => Vec2(level.start.x, level.start.y)
    case Some(h) => Vec2((h.0.x + h.1.x) * 0.5, (h.0.y + h.1.y) * 0.5)
  }

  /** The zoom that fits content of the given extent (at least 1 by 1)
      inside the padded viewport, clamped to [0.05, 10]. When the clamp
      does not bite, the scaled content fits both padded axes and fills
      at least one of them. */
  function FitZoom(lo: Vec2, hi: Vec2, size: Vec2): (z: real)
    ensures ZoomInRange(z)
    ensures
      var content := Vec2(Max(hi.x - lo.x, 1.0), Max(hi.y - lo.y, 1.0));
      var room := Vec2(size.x - FramePad * 2.0, size.y - FramePad * 2.0);
      ZoomInRange(Min(room.x / content.x, room.y / content.y)) ==>
        && z * content.x <= room.x && z * content.y <= room.y
        && (z * content.x == room.x || z * content.y == room.y)
  {
    var content := Vec2(Max(hi.x - lo.x, 1.0), Max(hi.y - lo.y, 1.0));
    Clamp(Min((size.x - FramePad * 2.0) / content.x, (size.y - FramePad * 2.0) / content.y), MinZoom, MaxZoom)
  }

  /** The camera at `zoom` that shows `focus` at the camera-space point
      `centre`. */
  function CentredOn(focus: Vec2, centre: Vec2, zoom: real): (r: EditorCamera)
    requires zoom != 0.0
    ensures r.zoom == zoom && WorldToScreen(r, focus) == centre
  {
    var r := EditorCamera(Vec2(focus.x - centre.x / zoom, focus.y - centre.y / zoom), zoom);
    assert (focus.x - r.offset.x) * zoom == centre.x;
    assert (focus.y - r.offset.y) * zoom == centre.y;
    r
  }

  /** Framing a level in a viewport of `size` pixels: with items, the zoom
      that fits the content inside the padded viewport; without, zoom 1.
      Either way the focus point lands on the viewport's centre. */
  function Frame(level: Level, size: Vec2): (r: EditorCamera)
    ensures ZoomInRange(r.zoom)
    ensures |level.platforms| + |level.exits| == 0 ==> r.zoom == 1.0
    ensures |level.platforms| + |level.exits| > 0 ==>
      var h := Hull(LevelBoxes(level)).value;
      r.zoom == FitZoom(h.0, h.1, size)
    ensures WorldToScreen(r, FrameFocus(level)) == ViewCentre(size)
  {
    var zoom := match Hull(LevelBoxes(level))
      case None => 1.0
      case Some(h) => FitZoom(h.0, h.1, size);
    CentredOn(FrameFocus(level), ViewCentre(size), zoom)
  }
}
