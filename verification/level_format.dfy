/** The level file's record shapes (`level_format/src/lib.rs`, and the
    identical private structs in both `levels.rs`). Coordinates are centres;
    `w` and `h` are full sizes. */
module LevelFormat {

  datatype Meta = Meta(name: string)

  datatype Start = Start(x: real, y: real)

  datatype Rect = Rect(x: real, y: real, w: real, h: real)

  datatype ExitDef = ExitDef(x: real, y: real, w: real, h: real, next: string)

  datatype Level = Level(meta: Meta, start: Start, platforms: seq<Rect>, exits: seq<ExitDef>)
}
