/** The level editor's edits (`level_editor/src/main.rs`): the items of a
    level and the selection, resize handles and their anchors, hit testing
    (exits over platforms, the topmost, i.e. last, item first), and the
    delete, duplicate, create, move, start and exit-name edits. Every edit
    is a pure function from the level (and the selection) to the new level. */
module EditorEdit {
  import opened Wrappers
  import opened Geometry
  import opened LevelFormat
  import opened EditorView
  import opened EditorSnap

  datatype Handle = NW | NE | SW | SE

  datatype ItemKind = PlatformItem | ExitItem

  datatype Selection = NoSelection | Item(kind: ItemKind, idx: nat)

  datatype Tool = SelectTool | PlatformTool | ExitTool | StartTool

  /** An ongoing resize: which item, and the corner that stays put. */
  datatype ResizeState = ResizeState(kind: ItemKind, idx: nat, anchor: Vec2)

  /** Where a drawn exit leads until its name is edited. */
  const NewExitNext: string := "level2"

  /** How far a duplicate is moved from its original. */
  const DuplicateShift: Vec2 := Vec2(10.0, -10.0)

  // ------------------------------------------------------------------ items

  /** How many items of a kind the level holds. */
  function Count(level: Level, kind: ItemKind): nat {
    match kind
    case PlatformItem => |level.platforms|
    case ExitItem => |level.exits|
  }

  function ExitRect(e: ExitDef): Rect {
    Rect(e.x, e.y, e.w, e.h)
  }

  /** The centred rectangle of an item; an exit's name is not part of it. */
  function ItemRect(level: Level, kind: ItemKind, idx: nat): Rect
    requires idx < Count(level, kind)
  {
    match kind
    case PlatformItem => level.platforms[idx]
    case ExitItem => ExitRect(level.exits[idx])
  }

  /** Whether a selection names an item that exists. */
  predicate ValidSelection(level: Level, sel: Selection) {
    sel.Item? ==> sel.idx < Count(level, sel.kind)
  }

  /** The level with one item's rectangle replaced, when the index is in
      range; an exit keeps its destination. */
  function WithRect(level: Level, kind: ItemKind, idx: nat, r: Rect): (l: Level)
    ensures idx >= Count(level, kind) ==> l == level
    ensures Count(l, PlatformItem) == Count(level, PlatformItem) && Count(l, ExitItem) == Count(level, ExitItem)
    ensures idx < Count(level, kind) ==> ItemRect(l, kind, idx) == r
    ensures forall j :: 0 <= j < Count(level, kind) && j != idx ==> ItemRect(l, kind, j) == ItemRect(level, kind, j)
    ensures kind == PlatformItem ==> l.exits == level.exits
    ensures kind == ExitItem ==> l.platforms == level.platforms
    ensures forall j :: 0 <= j < |level.exits| ==> l.exits[j].next == level.exits[j].next
    ensures l.meta == level.meta && l.start == level.start
  {
    if idx >= Count(level, kind) then level
    else match kind
      case PlatformItem => level.(platforms := level.platforms[idx := r])
      case ExitItem => level.(exits := level.exits[idx := ExitDef(r.x, r.y, r.w, r.h, level.exits[idx].next)])
  }

  // ---------------------------------------------------------------- handles

  /** The corner a handle sits on. `NW` is the minimum corner and `SE` the
      maximum one, as the handles are drawn and hit-tested. */
  function Corner(r: Rect, h: Handle): Vec2 {
    var lo := BoxMin(r.x, r.y, r.w, r.h);
    var hi := BoxMax(r.x, r.y, r.w, r.h);
    match h
    case NW => lo
    case NE => Vec2(hi.x, lo.y)
    case SW => Vec2(lo.x, hi.y)
    case SE => hi
  }

  function Opposite(h: Handle): Handle {
    match h
    case NW => SE
    case NE => SW
    case SW => NE
    case SE => NW
  }

  /** `ResizeState::start`: the anchor is the corner diagonally opposite
      the grabbed handle, so that the rectangle's centre is halfway between
      the two. The index must be in range (the source indexes directly). */
  function ResizeStart(level: Level, kind: ItemKind, idx: nat, handle: Handle): (s: ResizeState)
    requires idx < Count(level, kind)
    ensures s.kind == kind && s.idx == idx
    ensures s.anchor == Corner(ItemRect(level, kind, idx), Opposite(handle))
    ensures var r := ItemRect(level, kind, idx);
            var c := Corner(r, handle);
            (s.anchor.x + c.x) * 0.5 == r.x && (s.anchor.y + c.y) * 0.5 == r.y
  {
    var r := ItemRect(level, kind, idx);
    var lo := BoxMin(r.x, r.y, r.w, r.h);
    var hi := BoxMax(r.x, r.y, r.w, r.h);
    var anchor := match handle
      case NW => Vec2(hi.x, hi.y)
      case NE => Vec2(lo.x, hi.y)
      case SW => Vec2(hi.x, lo.y)
      case SE => Vec2(lo.x, lo.y);
    ResizeState(kind, idx, anchor)
  }

  /** The rectangle spanned by the anchor and the drag point, at least 1 by 1. */
  function Spanned(a: Vec2, d: Vec2): (r: Rect)
    ensures r.x == (a.x + d.x) * 0.5 && r.y == (a.y + d.y) * 0.5
    ensures r.w == Max(Abs(a.x - d.x), 1.0) && r.h == Max(Abs(a.y - d.y), 1.0)
  {
    var lo := Vec2(Min(a.x, d.x), Min(a.y, d.y));
    var hi := Vec2(Max(a.x, d.x), Max(a.y, d.y));
    Rect((lo.x + hi.x) * 0.5, (lo.y + hi.y) * 0.5, Max(hi.x - lo.x, 1.0), Max(hi.y - lo.y, 1.0))
  }

  /** `ResizeState::apply`: the item becomes the rectangle centred halfway
      between the anchor and the drag point, with each side the distance
      between them but at least 1; an index out of range changes nothing. */
  function ResizeApply(s: ResizeState, level: Level, drag: Vec2): (l: Level)
    ensures s.idx >= Count(level, s.kind) ==> l == level
    ensures Count(l, s.kind) == Count(level, s.kind)
    ensures s.idx < Count(level, s.kind) ==>
      var r := ItemRect(l, s.kind, s.idx);
      && r.x == (s.anchor.x + drag.x) * 0.5 && r.y == (s.anchor.y + drag.y) * 0.5
      && r.w == Max(Abs(s.anchor.x - drag.x), 1.0) && r.h == Max(Abs(s.anchor.y - drag.y), 1.0)
      && r.w >= 1.0 && r.h >= 1.0
    ensures forall j :: 0 <= j < Count(level, s.kind) && j != s.idx ==> ItemRect(l, s.kind, j) == ItemRect(level, s.kind, j)
    ensures s.kind == PlatformItem ==> l.exits == level.exits
    ensures s.kind == ExitItem ==> l.platforms == level.platforms
    ensures |l.exits| == |level.exits| && forall j :: 0 <= j < |level.exits| ==> l.exits[j].next == level.exits[j].next
    ensures l.meta == level.meta && l.start == level.start
  {
    WithRect(level, s.kind, s.idx, Spanned(s.anchor, drag))
  }

  /** A drag at least 1 away from the anchor on both axes yields exactly the
      rectangle with the anchor and the drag point as opposite corners. */
  lemma ResizeSpansAnchorAndDrag(s: ResizeState, level: Level, drag: Vec2)
    requires s.idx < Count(level, s.kind)
    requires Abs(s.anchor.x - drag.x) >= 1.0 && Abs(s.anchor.y - drag.y) >= 1.0
    ensures var r := ItemRect(ResizeApply(s, level, drag), s.kind, s.idx);
            && BoxMin(r.x, r.y, r.w, r.h) == Vec2(Min(s.anchor.x, drag.x), Min(s.anchor.y, drag.y))
            && BoxMax(r.x, r.y, r.w, r.h) == Vec2(Max(s.anchor.x, drag.x), Max(s.anchor.y, drag.y))
  {
  }

  /** Grabbing a handle and letting go where it was leaves the level as it
      was, for any item at least 1 by 1. */
  lemma ResizeInPlace(level: Level, kind: ItemKind, idx: nat, handle: Handle)
    requires idx < Count(level, kind)
    requires ItemRect(level, kind, idx).w >= 1.0 && ItemRect(level, kind, idx).h >= 1.0
    ensures var r := ItemRect(level, kind, idx);
            ResizeApply(ResizeStart(level, kind, idx, handle), level, Corner(r, handle)) == level
  {
    var r := ItemRect(level, kind, idx);
    var s := ResizeStart(level, kind, idx, handle);
    var c := Corner(r, handle);
    assert Spanned(s.anchor, c) == r;
    match kind
    case PlatformItem =>
      assert level.platforms[idx := r] == level.platforms;
    case ExitItem =>
      var e := level.exits[idx];
      assert ExitDef(r.x, r.y, r.w, r.h, e.next) == e;
      assert level.exits[idx := e] == level.exits;
  }

  // ------------------------------------------------------------ hit testing

  /** `point_in_center_rect`: inside or on the border. */
  predicate PointInCenterRect(p: Vec2, r: Rect)
    ensures PointInCenterRect(p, r) <==>
      var lo := BoxMin(r.x, r.y, r.w, r.h);
      var hi := BoxMax(r.x, r.y, r.w, r.h);
      lo.x <= p.x <= hi.x && lo.y <= p.y <= hi.y
  {
    p.x >= r.x - r.w * 0.5 && p.x <= r.x + r.w * 0.5 && p.y >= r.y - r.h * 0.5 && p.y <= r.y + r.h * 0.5
  }

  /** A rectangle holds its own centre and its four corners exactly when
      its sides are not negative: the bounds are inclusive. */
  lemma CentreAndCornersInside(r: Rect, h: Handle)
    ensures PointInCenterRect(Vec2(r.x, r.y), r) <==> r.w >= 0.0 && r.h >= 0.0
    ensures r.w >= 0.0 && r.h >= 0.0 ==> PointInCenterRect(Corner(r, h), r)
  {
  }

  /** The items of one kind, as rectangles, in storage order. */
  function Rects(level: Level, kind: ItemKind): (rs: seq<Rect>)
    ensures |rs| == Count(level, kind)
    ensures forall j :: 0 <= j < |rs| ==> rs[j] == ItemRect(level, kind, j)
  {
    seq(Count(level, kind), j requires 0 <= j < Count(level, kind) => ItemRect(level, kind, j))
  }

  /** The last rectangle that holds `p`, searching from the end. */
  function LastHit(rs: seq<Rect>, p: Vec2): (r: Option<nat>)
    ensures r.Some? ==> r.value < |rs| && PointInCenterRect(p, rs[r.value])
    ensures r.Some? ==> forall j :: r.value < j < |rs| ==> !PointInCenterRect(p, rs[j])
    ensures r.None? <==> forall j :: 0 <= j < |rs| ==> !PointInCenterRect(p, rs[j])
    decreases |rs|
  {
    if |rs| == 0 then None
    else if PointInCenterRect(p, rs[|rs| - 1]) then Some(|rs| - 1)
    else LastHit(rs[..|rs| - 1], p)
  }

  /** Whether item `j` of a kind holds the point. */
  predicate ItemHolds(level: Level, kind: ItemKind, j: nat, p: Vec2)
    requires j < Count(level, kind)
  {
    PointInCenterRect(p, ItemRect(level, kind, j))
  }

  /** `hit_test_level`: exits are tested before platforms, each list from
      the last item to the first; the first holder found wins. */
  function HitTestLevel(level: Level, p: Vec2): (r: Option<(nat, ItemKind)>)
    ensures r.Some? ==> r.value.0 < Count(level, r.value.1) && ItemHolds(level, r.value.1, r.value.0, p)
    ensures r.Some? ==> forall j :: r.value.0 < j < Count(level, r.value.1) ==> !ItemHolds(level, r.value.1, j, p)
    ensures r.Some? && r.value.1 == PlatformItem ==>
      forall j :: 0 <= j < Count(level, ExitItem) ==> !ItemHolds(level, ExitItem, j, p)
    ensures (exists j :: 0 <= j < Count(level, ExitItem) && ItemHolds(level, ExitItem, j, p)) ==>
      r.Some? && r.value.1 == ExitItem
    ensures r.None? <==>
      (forall j :: 0 <= j < Count(level, ExitItem) ==> !ItemHolds(level, ExitItem, j, p)) &&
      (forall j :: 0 <= j < Count(level, PlatformItem) ==> !ItemHolds(level, PlatformItem, j, p))
  {
    var exits := Rects(level, ExitItem);
    var platforms := Rects(level, PlatformItem);
    match LastHit(exits, p)
    case Some(i) =>
      assert ItemHolds(level, ExitItem, i, p);
      Some((i, ExitItem))
    case None =>
      match LastHit(platforms, p)
      case Some(i) =>
        assert ItemHolds(level, PlatformItem, i, p);
        Some((i, PlatformItem))
      case None => None
  }

  // ----------------------------------------------------- handle hit testing

  /** The canvas: its top-left corner on the window and its size. */
  datatype Viewport = Viewport(min: Vec2, size: Vec2)

  /** Half the side, in pixels, of the square that counts as a handle hit. */
  const HandleHitRadius: real := 6.0

  /** Where a world point is drawn on the window. */
  function OnWindow(cam: EditorCamera, vp: Viewport, world: Vec2): (m: Vec2)
    ensures cam.zoom != 0.0 ==>
      ScreenToWorld(cam, PanelToCam(Vec2(m.x - vp.min.x, m.y - vp.min.y), vp.size.y)) == world
  {
    var c := CamToPanel(WorldToScreen(cam, world), vp.size.y);
    var m := Vec2(vp.min.x + c.x, vp.min.y + c.y);
    assert Vec2(m.x - vp.min.x, m.y - vp.min.y) == c;
    PanelFlipsInvolution(WorldToScreen(cam, world), vp.size.y);
    if cam.zoom != 0.0 then
      WorldScreenRoundTrip(cam, world);
      m
    else m
  }

  /** Whether the point `world` falls in the 12 by 12 pixel square around
      the handle at `corner`, borders included. */
  predicate HandleHit(cam: EditorCamera, vp: Viewport, corner: Vec2, world: Vec2)
    ensures world == corner ==> HandleHit(cam, vp, corner, world)
  {
    var c := OnWindow(cam, vp, corner);
    var m := OnWindow(cam, vp, world);
    c.x - HandleHitRadius <= m.x <= c.x + HandleHitRadius &&
    c.y - HandleHitRadius <= m.y <= c.y + HandleHitRadius
  }

  /** The handle test depends only on the zoomed distance, not on where the
      canvas sits or how tall it is. */
  lemma HandleHitIsZoomedDistance(cam: EditorCamera, vp: Viewport, corner: Vec2, world: Vec2)
    ensures HandleHit(cam, vp, corner, world) <==>
      Abs((world.x - corner.x) * cam.zoom) <= HandleHitRadius &&
      Abs((world.y - corner.y) * cam.zoom) <= HandleHitRadius
  {
    var c := OnWindow(cam, vp, corner);
    var m := OnWindow(cam, vp, world);
    assert c == Vec2(vp.min.x + (corner.x - cam.offset.x) * cam.zoom, vp.min.y + (vp.size.y - (corner.y - cam.offset.y) * cam.zoom));
    assert m == Vec2(vp.min.x + (world.x - cam.offset.x) * cam.zoom, vp.min.y + (vp.size.y - (world.y - cam.offset.y) * cam.zoom));
    assert m.x - c.x == (world.x - cam.offset.x) * cam.zoom - (corner.x - cam.offset.x) * cam.zoom;
    assert m.x - c.x == (world.x - corner.x) * cam.zoom;
    assert c.y - m.y == (world.y - cam.offset.y) * cam.zoom - (corner.y - cam.offset.y) * cam.zoom;
    assert c.y - m.y == (world.y - corner.y) * cam.zoom;
  }

  /** The order handles are tried in. */
  function HandleRank(h: Handle): nat {
    match h
    case NW => 0
    case NE => 1
    case SW => 2
    case SE => 3
  }

  /** The first handle of a rectangle, in the order NW, NE, SW, SE, that the
      point hits. */
  function RectHandle(cam: EditorCamera, vp: Viewport, r: Rect, world: Vec2): (h: Option<Handle>)
    ensures h.Some? ==> HandleHit(cam, vp, Corner(r, h.value), world)
    ensures h.Some? ==> forall g: Handle :: HandleRank(g) < HandleRank(h.value) ==> !HandleHit(cam, vp, Corner(r, g), world)
    ensures h.None? <==> forall g: Handle :: !HandleHit(cam, vp, Corner(r, g), world)
  {
    if HandleHit(cam, vp, Corner(r, NW), world) then Some(NW)
    else if HandleHit(cam, vp, Corner(r, NE), world) then Some(NE)
    else if HandleHit(cam, vp, Corner(r, SW), world) then Some(SW)
    else if HandleHit(cam, vp, Corner(r, SE), world) then Some(SE)
    else None
  }

  /** For each rectangle, the handle the point hits, if any. */
  function HandlesHit(cam: EditorCamera, vp: Viewport, rs: seq<Rect>, world: Vec2): (hs: seq<Option<Handle>>)
    ensures |hs| == |rs|
    ensures forall j :: 0 <= j < |rs| ==> hs[j] == RectHandle(cam, vp, rs[j], world)
  {
    seq(|rs|, j requires 0 <= j < |rs| => RectHandle(cam, vp, rs[j], world))
  }

  /** The last entry that holds a handle, with its index. */
  function LastHandleHit(hs: seq<Option<Handle>>): (r: Option<(nat, Handle)>)
    ensures r.Some? ==> r.value.0 < |hs| && hs[r.value.0] == Some(r.value.1)
    ensures r.Some? ==> forall j :: r.value.0 < j < |hs| ==> hs[j].None?
    ensures r.None? <==> forall j :: 0 <= j < |hs| ==> hs[j].None?
    decreases |hs|
  {
    if |hs| == 0 then None
    else match hs[|hs| - 1]
      case Some(h) => Some((|hs| - 1, h))
      case None => LastHandleHit(hs[..|hs| - 1])
  }

  /** `hit_test_handles`: exits before platforms, each from the last item,
      each item's handles in the order NW, NE, SW, SE. */
  function HitTestHandles(level: Level, cam: EditorCamera, vp: Viewport, world: Vec2): (r: Option<(ItemKind, nat, Handle)>)
    ensures r.Some? ==> (r.value.1 < Count(level, r.value.0) &&
      RectHandle(cam, vp, ItemRect(level, r.value.0, r.value.1), world) == Some(r.value.2))
    ensures r.Some? ==> forall j :: r.value.1 < j < Count(level, r.value.0) ==>
      RectHandle(cam, vp, ItemRect(level, r.value.0, j), world).None?
    ensures r.Some? && r.value.0 == PlatformItem ==> forall j :: 0 <= j < Count(level, ExitItem) ==>
      RectHandle(cam, vp, ItemRect(level, ExitItem, j), world).None?
    ensures r.None? <==>
      (forall j :: 0 <= j < Count(level, ExitItem) ==> RectHandle(cam, vp, ItemRect(level, ExitItem, j), world).None?) &&
      (forall j :: 0 <= j < Count(level, PlatformItem) ==> RectHandle(cam, vp, ItemRect(level, PlatformItem, j), world).None?)
  {
    match LastHandleHit(HandlesHit(cam, vp, Rects(level, ExitItem), world))
    case Some((i, h)) => Some((ExitItem, i, h))
    case None =>
      match LastHandleHit(HandlesHit(cam, vp, Rects(level, PlatformItem), world))
      case Some((i, h)) => Some((PlatformItem, i, h))
      case None => None
  }

  /** A primary click with the select tool: a handle under the cursor
      selects its item and starts a resize from it; otherwise the item under
      the cursor is selected, or nothing. A click off the handles leaves an
      ongoing resize as it was. The selection always names an existing item. */
  function ClickSelect(level: Level, cam: EditorCamera, vp: Viewport, world: Vec2, resizing: Option<ResizeState>)
    : (r: (Selection, Option<ResizeState>))
    ensures ValidSelection(level, r.0)
    ensures HitTestHandles(level, cam, vp, world).Some? ==>
      var hit := HitTestHandles(level, cam, vp, world).value;
      r == (Item(hit.0, hit.1), Some(ResizeStart(level, hit.0, hit.1, hit.2)))
    ensures HitTestHandles(level, cam, vp, world).None? ==>
      r.1 == resizing &&
      (r.0 == NoSelection <==> HitTestLevel(level, world).None?) &&
      (r.0.Item? ==> ItemHolds(level, r.0.kind, r.0.idx, world)) &&
      (r.0.Item? ==> HitTestLevel(level, world) == Some((r.0.idx, r.0.kind)))
  {
    match HitTestHandles(level, cam, vp, world)
    case Some((kind, idx, handle)) => (Item(kind, idx), Some(ResizeStart(level, kind, idx, handle)))
    case None =>
      match HitTestLevel(level, world)
      case Some((idx, kind)) => (Item(kind, idx), resizing)
      case None => (NoSelection, resizing)
  }

  // ------------------------------------------------------------------ edits

  /** Delete or Backspace: a selected item whose index is in range is
      removed, the later ones move down by one; the selection is cleared
      whenever there was one. */
  function Delete(level: Level, sel: Selection): (r: (Level, Selection))
    ensures sel == NoSelection ==> r == (level, sel)
    ensures sel.Item? ==> r.1 == NoSelection
    ensures sel.Item? && sel.idx >= Count(level, sel.kind) ==> r.0 == level
    ensures sel.Item? && sel.idx < Count(level, sel.kind) ==>
      var k := sel.kind;
      && Count(r.0, k) == Count(level, k) - 1
      && (forall j :: 0 <= j < sel.idx ==> ItemRect(r.0, k, j) == ItemRect(level, k, j))
      && (forall j :: sel.idx <= j < Count(r.0, k) ==> ItemRect(r.0, k, j) == ItemRect(level, k, j + 1))
      && (k == PlatformItem ==> r.0.exits == level.exits)
      && (k == ExitItem ==> r.0.platforms == level.platforms)
      && (k == ExitItem ==> forall j :: 0 <= j < sel.idx ==> r.0.exits[j] == level.exits[j])
      && (k == ExitItem ==> forall j :: sel.idx <= j < |r.0.exits| ==> r.0.exits[j] == level.exits[j + 1])
    ensures r.0.start == level.start && r.0.meta == level.meta
  {
    match sel
    case NoSelection => (level, sel)
    case Item(kind, idx) =>
      if idx >= Count(level, kind) then (level, NoSelection)
      else match kind
        case PlatformItem => (level.(platforms := level.platforms[..idx] + level.platforms[idx + 1..]), NoSelection)
        case ExitItem => (level.(exits := level.exits[..idx] + level.exits[idx + 1..]), NoSelection)
  }

  /** The copy a duplicate appends: moved by (+10, -10), same size and, for
      an exit, the same destination. */
  function Shifted(r: Rect): Rect {
    Rect(r.x + DuplicateShift.x, r.y + DuplicateShift.y, r.w, r.h)
  }

  /** Ctrl/Cmd+D: a copy of the selected item, shifted, is appended to its
      list; everything already there stays, and the selection stays on the
      original. */
  function Duplicate(level: Level, sel: Selection): (r: Level)
    ensures !(sel.Item? && sel.idx < Count(level, sel.kind)) ==> r == level
    ensures sel.Item? && sel.idx < Count(level, sel.kind) ==>
      var k := sel.kind;
      && Count(r, k) == Count(level, k) + 1
      && (forall j :: 0 <= j < Count(level, k) ==> ItemRect(r, k, j) == ItemRect(level, k, j))
      && ItemRect(r, k, Count(level, k)) == Shifted(ItemRect(level, k, sel.idx))
      && (k == ExitItem ==> r.exits[|level.exits|].next == level.exits[sel.idx].next && r.platforms == level.platforms)
      && (k == PlatformItem ==> r.exits == level.exits)
      && (k == ExitItem ==> r.exits[..|level.exits|] == level.exits)
    ensures r.start == level.start && r.meta == level.meta
  {
    match sel
    case NoSelection => level
    case Item(kind, idx) =>
      if idx >= Count(level, kind) then level
      else match kind
        case PlatformItem =>
          level.(platforms := level.platforms + [Shifted(level.platforms[idx])])
        case ExitItem =>
          var e := level.exits[idx];
          level.(exits := level.exits + [e.(x := e.x + DuplicateShift.x, y := e.y + DuplicateShift.y)])
  }

  /** Deleting the copy a duplicate made gives back the level. */
  lemma DeleteUndoesDuplicate(level: Level, kind: ItemKind, idx: nat)
    requires idx < Count(level, kind)
    ensures Delete(Duplicate(level, Item(kind, idx)), Item(kind, Count(level, kind))).0 == level
  {
    var d := Duplicate(level, Item(kind, idx));
    var n := Count(level, kind);
    match kind
    case PlatformItem =>
      assert d.platforms[..n] + d.platforms[n + 1..] == level.platforms;
    case ExitItem =>
      assert d.exits[..n] + d.exits[n + 1..] == level.exits;
  }

  /** The rectangle a drag from `start` to `end` draws: centred halfway,
      each side the distance (snapped to the grid if snapping), at least 1. */
  function DrawnRect(start: Vec2, end: Vec2, snap: bool): (r: Rect)
    ensures r.x == (start.x + end.x) * 0.5 && r.y == (start.y + end.y) * 0.5
    ensures r.w >= 1.0 && r.h >= 1.0
    ensures !snap ==> r.w == Max(Abs(end.x - start.x), 1.0) && r.h == Max(Abs(end.y - start.y), 1.0)
    ensures snap ==> r.w == Max(Abs(SnapValue(Abs(end.x - start.x), SnapSize)), 1.0)
    ensures snap ==> r.h == Max(Abs(SnapValue(Abs(end.y - start.y), SnapSize)), 1.0)
  {
    var w := Abs(end.x - start.x);
    var h := Abs(end.y - start.y);
    var w' := if snap then SnapPositive(w, SnapSize) else w;
    var h' := if snap then SnapPositive(h, SnapSize) else h;
    Rect((start.x + end.x) * 0.5, (start.y + end.y) * 0.5, Max(w', 1.0), Max(h', 1.0))
  }

  /** The end of a drag with the platform or exit tool: the drawn rectangle
      is appended as a platform, or as an exit to `level2`; the other tools
      draw nothing. */
  function CreateFromDrag(level: Level, tool: Tool, start: Vec2, end: Vec2, snap: bool): (r: Level)
    ensures tool != PlatformTool && tool != ExitTool ==> r == level
    ensures tool == PlatformTool ==>
      r.platforms == level.platforms + [DrawnRect(start, end, snap)] && r.exits == level.exits
    ensures tool == ExitTool ==>
      r.platforms == level.platforms && |r.exits| == |level.exits| + 1 &&
      r.exits[..|level.exits|] == level.exits &&
      ExitRect(r.exits[|level.exits|]) == DrawnRect(start, end, snap) &&
      r.exits[|level.exits|].next == NewExitNext
    ensures r.start == level.start && r.meta == level.meta
  {
    var rect := DrawnRect(start, end, snap);
    match tool
    case PlatformTool => level.(platforms := level.platforms + [rect])
    case ExitTool => level.(exits := level.exits + [ExitDef(rect.x, rect.y, rect.w, rect.h, NewExitNext)])
    case _ => level
  }

  /** Without snapping, a drag at least 1 long on both axes draws the
      rectangle with the two drag points as opposite corners. */
  lemma DrawnRectSpansDrag(start: Vec2, end: Vec2)
    requires Abs(end.x - start.x) >= 1.0 && Abs(end.y - start.y) >= 1.0
    ensures var r := DrawnRect(start, end, false);
            && BoxMin(r.x, r.y, r.w, r.h) == Vec2(Min(start.x, end.x), Min(start.y, end.y))
            && BoxMax(r.x, r.y, r.w, r.h) == Vec2(Max(start.x, end.x), Max(start.y, end.y))
  {
  }

  /** A drag of `delta` panel pixels at `zoom` as a world-space move: scaled
      by 1/zoom, with Y flipped because panel Y grows downward. */
  function DragInWorld(delta: Vec2, zoom: real): (m: Vec2)
    requires zoom != 0.0
    ensures m.x * zoom == delta.x && m.y * zoom == -delta.y
  {
    Vec2(delta.x / zoom, -delta.y / zoom)
  }

  /** The Shift constraint: the axis with the larger magnitude is kept and the
      other zeroed, X being dropped on a tie; without Shift the move stays. */
  function AxisLocked(m: Vec2, shift: bool): (a: Vec2)
    ensures !shift ==> a == m
    ensures shift && Abs(m.x) > Abs(m.y) ==> a == Vec2(m.x, 0.0)
    ensures shift && Abs(m.x) <= Abs(m.y) ==> a == Vec2(0.0, m.y)
  {
    if !shift then m
    else if Abs(m.x) > Abs(m.y) then Vec2(m.x, 0.0) else Vec2(0.0, m.y)
  }

  /** The world-space move of a drag of `delta` panel pixels at `zoom`: the
      drag in world units, locked to one axis with Shift, and with snapping
      each axis snapped to the grid. */
  function DragDelta(delta: Vec2, zoom: real, shift: bool, snap: bool): (d: Vec2)
    requires zoom != 0.0
    ensures !snap ==> d == AxisLocked(DragInWorld(delta, zoom), shift)
    ensures snap ==> d == SnapVec2(AxisLocked(DragInWorld(delta, zoom), shift), SnapSize)
    ensures shift ==> d.x == 0.0 || d.y == 0.0
    ensures !shift && !snap ==> d.x * zoom == delta.x && d.y * zoom == -delta.y
    ensures snap ==> SnapVec2(d, SnapSize) == d
  {
    var axis := AxisLocked(DragInWorld(delta, zoom), shift);
    if snap then
      SnapIdempotent(axis.x, SnapSize);
      SnapIdempotent(axis.y, SnapSize);
      SnapVec2(axis, SnapSize)
    else axis
  }

  /** Snapping never moves a drag by more than half a grid cell per axis,
      and a drag that already lands on the grid is not changed by it. */
  lemma SnappedDragIsNearest(delta: Vec2, zoom: real, shift: bool, kx: int, ky: int)
    requires zoom != 0.0
    ensures var a := DragDelta(delta, zoom, shift, false);
            var d := DragDelta(delta, zoom, shift, true);
            Abs(d.x - a.x) <= SnapSize / 2.0 && Abs(d.y - a.y) <= SnapSize / 2.0
    ensures var a := DragDelta(delta, zoom, shift, false);
            a == Vec2(kx as real * SnapSize, ky as real * SnapSize) ==>
            DragDelta(delta, zoom, shift, true) == a
  {
    var a := DragDelta(delta, zoom, shift, false);
    if a == Vec2(kx as real * SnapSize, ky as real * SnapSize) {
      SnapOfMultiple(kx, a.x, SnapSize);
      SnapOfMultiple(ky, a.y, SnapSize);
    }
  }

  /** Moves one item by `d`, when the index is in range; its size (and an
      exit's destination) stay. */
  function MoveItem(level: Level, kind: ItemKind, idx: nat, d: Vec2): (r: Level)
    ensures idx >= Count(level, kind) ==> r == level
    ensures Count(r, kind) == Count(level, kind)
    ensures idx < Count(level, kind) ==>
      var before := ItemRect(level, kind, idx);
      ItemRect(r, kind, idx) == Rect(before.x + d.x, before.y + d.y, before.w, before.h)
    ensures forall j :: 0 <= j < Count(level, kind) && j != idx ==> ItemRect(r, kind, j) == ItemRect(level, kind, j)
    ensures kind == PlatformItem ==> r.exits == level.exits
    ensures kind == ExitItem ==> r.platforms == level.platforms
    ensures |r.exits| == |level.exits| && forall j :: 0 <= j < |level.exits| ==> r.exits[j].next == level.exits[j].next
    ensures r.meta == level.meta && r.start == level.start
  {
    if idx >= Count(level, kind) then level
    else
      var before := ItemRect(level, kind, idx);
      WithRect(level, kind, idx, Rect(before.x + d.x, before.y + d.y, before.w, before.h))
  }

  /** Moving back by the opposite amount restores the level. */
  lemma MoveBackRestores(level: Level, kind: ItemKind, idx: nat, d: Vec2)
    ensures MoveItem(MoveItem(level, kind, idx, d), kind, idx, Vec2(-d.x, -d.y)) == level
  {
    if idx < Count(level, kind) {
      match kind
      case PlatformItem =>
        assert MoveItem(MoveItem(level, kind, idx, d), kind, idx, Vec2(-d.x, -d.y)).platforms == level.platforms;
      case ExitItem =>
        assert MoveItem(MoveItem(level, kind, idx, d), kind, idx, Vec2(-d.x, -d.y)).exits == level.exits;
    }
  }

  /** Dragging the selection with the select tool moves the selected item
      by the drag's world-space delta. */
  function MoveSelected(level: Level, sel: Selection, delta: Vec2, zoom: real, shift: bool, snap: bool): (r: Level)
    requires zoom != 0.0
    ensures sel == NoSelection ==> r == level
    ensures sel.Item? ==> r == MoveItem(level, sel.kind, sel.idx, DragDelta(delta, zoom, shift, snap))
  {
    match sel
    case NoSelection => level
    case Item(kind, idx) => MoveItem(level, kind, idx, DragDelta(delta, zoom, shift, snap))
  }

  /** Dragging with the start tool puts the start under the cursor, snapped
      to the nearest grid point when snapping; nothing else changes. */
  function SetStart(level: Level, world: Vec2, snap: bool): (r: Level)
    ensures r == level.(start := r.start)
    ensures !snap ==> r.start == Start(world.x, world.y)
    ensures snap ==> Abs(r.start.x - world.x) <= SnapSize / 2.0 && Abs(r.start.y - world.y) <= SnapSize / 2.0
    ensures snap ==> r.start == Start(SnapValue(world.x, SnapSize), SnapValue(world.y, SnapSize))
  {
    var p := if snap then SnapVec2(world, SnapSize) else world;
    level.(start := Start(p.x, p.y))
  }

  /** The bottom panel's text field: renames the selected exit's
      destination; any other selection changes nothing. */
  function SetExitNext(level: Level, sel: Selection, next: string): (r: Level)
    ensures !(sel.Item? && sel.kind == ExitItem && sel.idx < |level.exits|) ==> r == level
    ensures r == level.(exits := r.exits)
    ensures sel.Item? && sel.kind == ExitItem && sel.idx < |level.exits| ==>
      && r.platforms == level.platforms && |r.exits| == |level.exits|
      && r.exits[sel.idx].next == next
      && ExitRect(r.exits[sel.idx]) == ExitRect(level.exits[sel.idx])
      && (forall j :: 0 <= j < |level.exits| && j != sel.idx ==> r.exits[j] == level.exits[j])
  {
    if sel.Item? && sel.kind == ExitItem && sel.idx < |level.exits| then
      level.(exits := level.exits[sel.idx := level.exits[sel.idx].(next := next)])
    else level
  }

  /** Typing the old destination back into the text field undoes a
      rename. */
  lemma RenameBackRestores(level: Level, sel: Selection, next: string)
    requires sel.Item? && sel.kind == ExitItem && sel.idx < |level.exits|
    ensures SetExitNext(SetExitNext(level, sel, next), sel, level.exits[sel.idx].next) == level
  {
  }
}
