/** The older level lifecycle of `src/systems/levels.rs`. Its exit detection
    is the same code as the newer crate's (`LevelSystem.ExitDetection`); it
    differs in path resolution, which always builds `levels/<name>.toml`,
    and in loading inline instead of through `spawn_loaded_level`. */
module LegacyLevelSystem {
  import opened Wrappers
  import opened Geometry
  import opened GameWorld
  import opened LevelFormat
  import opened LevelSystem

  const Prefix: string := "levels/"
  const Suffix: string := ".toml"

  /** `read_level`'s path: the name wrapped as `levels/<name>.toml`, with no
      verbatim case; the name can be read back from between the two. */
  function LegacyPath(name: string): (path: string)
    ensures |path| == |name| + 12
    ensures path[..7] == Prefix && EndsWith(path, Suffix)
    ensures path[7..|path| - 5] == name
  {
    var path := Prefix + name + Suffix;
    assert path[..7] == Prefix;
    assert path[|path| - 5..] == Suffix;
    assert path[7..|path| - 5] == name;
    path
  }

  /** Two names never share a file. */
  lemma LegacyPathInjective(a: string, b: string)
    ensures LegacyPath(a) == LegacyPath(b) <==> a == b
  {
    if LegacyPath(a) == LegacyPath(b) {
      assert a == LegacyPath(a)[7..|LegacyPath(a)| - 5];
    }
  }

  /** On a bare name both crates open the same file; on a name that is
      already a path they never do. */
  lemma LegacyAgreesOnBareNames(name: string)
    ensures !IsPath(name) ==> ResolvePath(name) == LegacyPath(name)
    ensures IsPath(name) ==> ResolvePath(name) != LegacyPath(name)
  {
  }

  /** `read_level`: `None` when the file is missing or does not parse. */
  function LegacyReadLevel(files: Files, parse: string -> Option<Level>, name: string): (r: Option<Level>)
    ensures LegacyPath(name) !in files ==> r.None?
    ensures LegacyPath(name) in files ==> r == parse(files[LegacyPath(name)])
  {
    var path := LegacyPath(name);
    if path in files then parse(files[path]) else None
  }

  /** `do_load_level`: a level that reads spawns its platforms and exits as
      level entities and sets both starts; one that does not changes nothing. */
  function DoLoadLevel(w: World, files: Files, parse: string -> Option<Level>, name: string): (r: World)
    ensures LegacyReadLevel(files, parse, name).None? ==> r == w
    ensures LegacyReadLevel(files, parse, name).Some? ==>
      var def := LegacyReadLevel(files, parse, name).value;
      && r.entities == w.entities + LevelEntities(def)
      && r.pending == Some(StartPoint(def)) && r.levelStart == Some(StartPoint(def))
      && r == w.(entities := r.entities, pending := r.pending, levelStart := r.levelStart)
  {
    LoadLevel(w, n => LegacyReadLevel(files, parse, n), name)
  }

  /** `level_transition_system`: consume the request, despawn the level
      entities, make the requested level current, then load it. */
  function LegacyTransition(w: World, files: Files, parse: string -> Option<Level>): (r: World)
    ensures w.request.None? ==> r == w
    ensures w.request.Some? ==>
      && r.request.None?
      && r.manager.current == w.request.value
      && r == DoLoadLevel(w.(request := None, entities := WithoutLevelEntities(w.entities),
                             manager := r.manager), files, parse, w.request.value)
    ensures r.players == w.players && r.cameras == w.cameras
  {
    LevelTransition(w, n => LegacyReadLevel(files, parse, n))
  }
}
