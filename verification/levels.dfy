/** The level lifecycle of `game/src/systems/levels.rs`: resolving a level
    name to a file, reading it, spawning its geometry, spotting the exit the
    player touches, and switching levels. The file system is a map from path
    to contents and the TOML parser an opaque function that may fail. */
module LevelSystem {
  import opened Wrappers
  import opened Geometry
  import opened Resources
  import opened Components
  import opened GameWorld
  import opened LevelFormat

  // ------------------------------------------------------------ file lookup

  type Files = map<string, string>

  /** A level reader: level name to parsed level, `None` on any failure. */
  type Reader = string -> Option<Level>

  predicate EndsWith(s: string, suffix: string) {
    |suffix| <= |s| && s[|s| - |suffix|..] == suffix
  }

  /** Whether a name is taken as a path as it stands: it already ends in
      `.toml` or contains a `/` or `\` separator. */
  predicate IsPath(name: string)
    ensures IsPath(name) ==> |name| > 0
    ensures |name| >= 7 && name[..7] == "levels/" ==> IsPath(name)
  {
    assert |name| >= 7 && name[..7] == "levels/" ==> name[6] == '/';
    EndsWith(name, ".toml") || '/' in name || '\\' in name
  }

  /** Path resolution: a path is used verbatim, a bare name becomes
      `levels/<name>.toml`. */
  function ResolvePath(name: string): (path: string)
    ensures IsPath(name) ==> path == name
    ensures !IsPath(name) ==> path == "levels/" + name + ".toml"
    ensures IsPath(path)
  {
    if IsPath(name) then name
    else
      var path := "levels/" + name + ".toml";
      assert path[|path| - 5..] == ".toml";
      path
  }

  /** Resolving twice is resolving once. */
  lemma ResolvePathIdempotent(name: string)
    ensures ResolvePath(ResolvePath(name)) == ResolvePath(name)
  {
  }

  /** `read_level`: `None` when the file is missing or does not parse. */
  function ReadLevel(files: Files, parse: string -> Option<Level>, name: string): (r: Option<Level>)
    ensures ResolvePath(name) !in files ==> r.None?
    ensures ResolvePath(name) in files ==> r == parse(files[ResolvePath(name)])
  {
    var path := ResolvePath(name);
    if path in files then parse(files[path]) else None
  }

  // --------------------------------------------------------------- spawning

  /** The entity a platform record becomes: a tagged ground. */
  function PlatformEntity(p: Rect): Entity {
    Entity(Vec2(p.x, p.y), Ground(Vec2(p.w, p.h)), true)
  }

  /** The entity an exit record becomes: a tagged exit. */
  function ExitEntity(e: ExitDef): Entity {
    Entity(Vec2(e.x, e.y), ExitDoor(Exit(e.next, Vec2(e.w, e.h))), true)
  }

  function StartPoint(def: Level): Vec2 {
    Vec2(def.start.x, def.start.y)
  }

  function PlatformEntities(ps: seq<Rect>): (r: seq<Entity>)
    ensures |r| == |ps|
    ensures forall i :: 0 <= i < |ps| ==> r[i] == PlatformEntity(ps[i])
  {
    seq(|ps|, i requires 0 <= i < |ps| => PlatformEntity(ps[i]))
  }

  function ExitEntities(xs: seq<ExitDef>): (r: seq<Entity>)
    ensures |r| == |xs|
    ensures forall i :: 0 <= i < |xs| ==> r[i] == ExitEntity(xs[i])
  {
    seq(|xs|, i requires 0 <= i < |xs| => ExitEntity(xs[i]))
  }

  /** The entities a level spawns, platforms first, each list in file order. */
  function LevelEntities(def: Level): (r: seq<Entity>)
    ensures |r| == |def.platforms| + |def.exits|
    ensures forall i :: 0 <= i < |def.platforms| ==> r[i] == PlatformEntity(def.platforms[i])
    ensures forall i :: 0 <= i < |def.exits| ==> r[|def.platforms| + i] == ExitEntity(def.exits[i])
    ensures forall e :: e in r ==> e.levelEntity
  {
    PlatformEntities(def.platforms) + ExitEntities(def.exits)
  }

  /** `spawn_loaded_level`: the level's entities are added after the existing
      ones, and both the pending start and the level start become the file's
      start. */
  function SpawnLoadedLevel(w: World, def: Level): (r: World)
    ensures r.entities == w.entities + LevelEntities(def)
    ensures r.pending == Some(StartPoint(def)) && r.levelStart == Some(StartPoint(def))
    ensures r == w.(entities := r.entities, pending := r.pending, levelStart := r.levelStart)
  {
    w.(entities := w.entities + LevelEntities(def),
       pending := Some(StartPoint(def)),
       levelStart := Some(StartPoint(def)))
  }

  /** Loading with a given reader (native `spawn_or_queue_load`): a level
      that cannot be read spawns nothing and touches no resource. */
  function LoadLevel(w: World, read: Reader, name: string): (r: World)
    ensures read(name).None? ==> r == w
    ensures read(name).Some? ==> r == SpawnLoadedLevel(w, read(name).value)
  {
    match read(name)
    case None => w
    case Some(def) => SpawnLoadedLevel(w, def)
  }

  /** The ground rows the physics query sees for a level's platforms. */
  function PlatformBoxes(ps: seq<Rect>): (r: seq<GroundBox>)
    ensures |r| == |ps|
    ensures forall i :: 0 <= i < |ps| ==>
      r[i] == GroundBox(Vec2(ps[i].x, ps[i].y), Vec2(ps[i].w, ps[i].h))
  {
    seq(|ps|, i requires 0 <= i < |ps| => GroundBox(Vec2(ps[i].x, ps[i].y), Vec2(ps[i].w, ps[i].h)))
  }

  /** The exit rows the exit query sees for a level's exits. */
  function ExitBoxes(es: seq<ExitDef>): (r: seq<ExitBox>)
    ensures |r| == |es|
    ensures forall i :: 0 <= i < |es| ==>
      r[i] == ExitBox(Vec2(es[i].x, es[i].y), Exit(es[i].next, Vec2(es[i].w, es[i].h)))
  {
    seq(|es|, i requires 0 <= i < |es| => ExitBox(Vec2(es[i].x, es[i].y), Exit(es[i].next, Vec2(es[i].w, es[i].h))))
  }

  lemma {:induction false} GroundsOfPlatforms(ps: seq<Rect>)
    ensures Grounds(PlatformEntities(ps)) == PlatformBoxes(ps)
    ensures Exits(PlatformEntities(ps)) == []
  {
    if |ps| > 0 {
      assert PlatformEntities(ps)[1..] == PlatformEntities(ps[1..]);
      GroundsOfPlatforms(ps[1..]);
      assert PlatformBoxes(ps) == [PlatformBoxes(ps)[0]] + PlatformBoxes(ps[1..]);
    }
  }

  lemma {:induction false} ExitsOfExitDefs(xs: seq<ExitDef>)
    ensures Exits(ExitEntities(xs)) == ExitBoxes(xs)
    ensures Grounds(ExitEntities(xs)) == []
  {
    if |xs| > 0 {
      assert ExitEntities(xs)[1..] == ExitEntities(xs[1..]);
      ExitsOfExitDefs(xs[1..]);
      assert ExitBoxes(xs) == [ExitBoxes(xs)[0]] + ExitBoxes(xs[1..]);
    }
  }

  /** After spawning, the ground query yields the old grounds followed by the
      level's platforms in file order, and the exit query the old exits
      followed by the level's exits: exactly the geometry the file describes. */
  lemma SpawnedGeometryIsQueried(w: World, def: Level)
    ensures Grounds(SpawnLoadedLevel(w, def).entities) == Grounds(w.entities) + PlatformBoxes(def.platforms)
    ensures Exits(SpawnLoadedLevel(w, def).entities) == Exits(w.entities) + ExitBoxes(def.exits)
  {
    var ps := PlatformEntities(def.platforms);
    var xs := ExitEntities(def.exits);
    assert SpawnLoadedLevel(w, def).entities == w.entities + (ps + xs);
    GroundsOfPlatforms(def.platforms);
    ExitsOfExitDefs(def.exits);
    GroundsAppend(ps, xs);
    ExitsAppend(ps, xs);
    assert Grounds(ps + xs) == PlatformBoxes(def.platforms);
    assert Exits(ps + xs) == ExitBoxes(def.exits);
    GroundsAppend(w.entities, ps + xs);
    ExitsAppend(w.entities, ps + xs);
  }

  // ------------------------------------------------------ asynchronous load

  /** The web build's poll of its one-slot channel: `None` when no load is
      outstanding, `Some(None)` while the fetch has not delivered, and
      `Some(Some(def))` once it has. A delivered level is spawned and the slot
      emptied; otherwise nothing happens. */
  function PollLevelSlot(w: World, slot: Option<Option<Level>>): (r: (World, Option<Option<Level>>))
    ensures slot.Some? && slot.value.Some? ==> r == (SpawnLoadedLevel(w, slot.value.value), None)
    ensures !(slot.Some? && slot.value.Some?) ==> r == (w, slot)
  {
    match slot
    case Some(Some(def)) => (SpawnLoadedLevel(w, def), None)
    case _ => (w, slot)
  }

  // ---------------------------------------------------------- exit detection

  /** Strict overlap of the player's box centred at `p` with an exit box. */
  predicate TouchesExit(p: Vec2, e: ExitBox)
    ensures p == e.center && e.exit.size.x >= 0.0 && e.exit.size.y >= 0.0 ==> TouchesExit(p, e)
    ensures Abs(p.x - e.center.x) == PlayerHalf + e.exit.size.x / 2.0 ==> !TouchesExit(p, e)
    ensures Abs(p.y - e.center.y) == PlayerHalf + e.exit.size.y / 2.0 ==> !TouchesExit(p, e)
  {
    Abs(p.x - e.center.x) < PlayerHalf + e.exit.size.x / 2.0 &&
    Abs(p.y - e.center.y) < PlayerHalf + e.exit.size.y / 2.0
  }

  /** The index of the first exit, from `from` on, that the player touches. */
  function FirstTouched(p: Vec2, exits: seq<ExitBox>, from: nat): (r: Option<nat>)
    requires from <= |exits|
    ensures r.Some? ==> from <= r.value < |exits| && TouchesExit(p, exits[r.value])
    ensures r.Some? ==> forall j :: from <= j < r.value ==> !TouchesExit(p, exits[j])
    ensures r.None? <==> forall j :: from <= j < |exits| ==> !TouchesExit(p, exits[j])
    decreases |exits| - from
  {
    if from == |exits| then None
    else if TouchesExit(p, exits[from]) then Some(from)
    else FirstTouched(p, exits, from + 1)
  }

  /** `exit_detection_system`: while no request is pending, the first exit in
      storage order that strictly overlaps the player sets the request to its
      destination; nothing else changes. */
  function ExitDetection(w: World): (r: World)
    ensures w.request.Some? || |w.players| != 1 ==> r == w
    ensures w.request.None? && |w.players| == 1 ==>
      var exits := Exits(w.entities);
      var p := w.players[0].pos;
      && (r.request.None? <==> forall j :: 0 <= j < |exits| ==> !TouchesExit(p, exits[j]))
      && (r.request.Some? ==>
            exists i :: (0 <= i < |exits| && TouchesExit(p, exits[i]) &&
                         r.request.value == exits[i].exit.next &&
                         forall j :: 0 <= j < i ==> !TouchesExit(p, exits[j])))
    ensures r == w.(request := r.request)
  {
    if w.request.Some? then w
    else match Single(w.players)
      case None => w
      case Some(player) =>
        var exits := Exits(w.entities);
        match FirstTouched(player.pos, exits, 0)
        case None => w
        case Some(i) => w.(request := Some(exits[i].exit.next))
  }

  // -------------------------------------------------------------- transition

  /** `level_transition_system` with a given reader: a pending request is
      consumed, every `LevelEntity` is despawned, the requested level becomes
      current, and it is loaded. */
  function LevelTransition(w: World, read: Reader): (r: World)
    ensures w.request.None? ==> r == w
    ensures w.request.Some? ==>
      && r.request.None?
      && r.manager == LevelManager(w.request.value)
      && r == LoadLevel(w.(request := None, entities := WithoutLevelEntities(w.entities),
                           manager := LevelManager(w.request.value)), read, w.request.value)
    ensures r.players == w.players && r.cameras == w.cameras
    ensures r.lives == w.lives && r.state == w.state && r.overlays == w.overlays && r.hearts == w.hearts
  {
    match w.request
    case None => w
    case Some(next) =>
      var cleared := w.(request := None, entities := WithoutLevelEntities(w.entities), manager := LevelManager(next));
      LoadLevel(cleared, read, next)
  }

  /** After a switch, the only level entities are the new level's: every
      entity of the old level is gone, every other entity stays, and the
      spawn point is the new level's start, or untouched if it failed to load. */
  lemma TransitionReplacesLevel(w: World, read: Reader)
    requires w.request.Some?
    ensures var r := LevelTransition(w, read);
            var next := read(w.request.value);
            && (forall e :: e in w.entities && !e.levelEntity ==> e in r.entities)
            && (forall e :: e in r.entities && e.levelEntity ==> next.Some? && e in LevelEntities(next.value))
            && (next.None? ==> r.pending == w.pending && r.levelStart == w.levelStart)
            && (next.Some? ==> r.pending == Some(StartPoint(next.value)) && r.levelStart == r.pending)
  {
  }

  /** When nothing but level geometry holds `Ground` or `Exit`, a switch leaves
      the physics and exit queries seeing exactly the new level's platforms and
      exits in file order (none if it failed to load). */
  lemma TransitionQueriesSeeNewLevel(w: World, read: Reader)
    requires w.request.Some?
    requires forall e :: e in w.entities && !e.levelEntity ==> e.kind.Scenery?
    ensures var r := LevelTransition(w, read);
            var next := read(w.request.value);
            && (next.None? ==> Grounds(r.entities) == [] && Exits(r.entities) == [])
            && (next.Some? ==> Grounds(r.entities) == PlatformBoxes(next.value.platforms) &&
                               Exits(r.entities) == ExitBoxes(next.value.exits))
  {
    var kept := WithoutLevelEntities(w.entities);
    assert forall e :: e in kept ==> e.kind.Scenery?;
    SceneryHasNoGeometry(kept);
    var cleared := w.(request := None, entities := kept, manager := LevelManager(w.request.value));
    if read(w.request.value).Some? {
      SpawnedGeometryIsQueried(cleared, read(w.request.value).value);
    }
  }

  lemma {:induction false} SceneryHasNoGeometry(es: seq<Entity>)
    requires forall e :: e in es ==> e.kind.Scenery?
    ensures Grounds(es) == [] && Exits(es) == []
  {
    if |es| > 0 {
      assert es[0] in es;
      assert forall e :: e in es[1..] ==> e in es;
      SceneryHasNoGeometry(es[1..]);
    }
  }
}
