/** The game's world as one record: the entity stores the systems query and
    the game-wide resources. A query that the source runs with `get_single`
    succeeds exactly when its store holds one entity; a query that iterates
    visits the store in sequence order. */
module GameWorld {
  import opened Wrappers
  import opened Geometry
  import opened Resources
  import opened Components

  datatype World = World(
    players: seq<Player>,
    cameras: seq<Vec2>,
    entities: seq<Entity>,
    overlays: seq<Visibility>,
    hearts: seq<Heart>,
    lives: Lives,
    state: GameState,
    levelStart: Option<Vec2>,
    pending: Option<Vec2>,
    manager: LevelManager,
    request: Option<string>)

  /** `Query::get_single`: the one element of a store that holds exactly one. */
  function Single<T>(s: seq<T>): (r: Option<T>)
    ensures r.Some? <==> |s| == 1
    ensures r.Some? ==> r.value == s[0]
  {
    if |s| == 1 then Some(s[0]) else None
  }

  /** A row of the ground query: centre and sprite size. */
  datatype GroundBox = GroundBox(center: Vec2, size: Vec2)

  /** A row of the exit query: centre and `Exit` component. */
  datatype ExitBox = ExitBox(center: Vec2, exit: Exit)

  /** The ground query: every `Ground` entity and nothing else, in storage
      order (a single entity yields its own row or none, and `GroundsAppend`
      shows that the rows of a concatenation are concatenated in order). */
  function Grounds(es: seq<Entity>): (r: seq<GroundBox>)
    ensures |r| <= |es|
    ensures forall e :: e in es && e.kind.Ground? ==> GroundBox(e.pos, e.kind.size) in r
    ensures forall g :: g in r ==> exists e :: e in es && e.kind.Ground? && g == GroundBox(e.pos, e.kind.size)
    ensures |es| == 1 ==> r == (if es[0].kind.Ground? then [GroundBox(es[0].pos, es[0].kind.size)] else [])
  {
    if |es| == 0 then []
    else
      var rest := Grounds(es[1..]);
      assert forall e :: e in es[1..] ==> e in es;
      match es[0].kind
      case Ground(size) => [GroundBox(es[0].pos, size)] + rest
      case _ => rest
  }

  /** The exit query: every `Exit` entity and nothing else, in storage order
      (see `ExitsAppend` for the order). */
  function Exits(es: seq<Entity>): (r: seq<ExitBox>)
    ensures |r| <= |es|
    ensures forall e :: e in es && e.kind.ExitDoor? ==> ExitBox(e.pos, e.kind.exit) in r
    ensures forall x :: x in r ==> exists e :: e in es && e.kind.ExitDoor? && x == ExitBox(e.pos, e.kind.exit)
    ensures |es| == 1 ==> r == (if es[0].kind.ExitDoor? then [ExitBox(es[0].pos, es[0].kind.exit)] else [])
  {
    if |es| == 0 then []
    else
      var rest := Exits(es[1..]);
      assert forall e :: e in es[1..] ==> e in es;
      match es[0].kind
      case ExitDoor(x) => [ExitBox(es[0].pos, x)] + rest
      case _ => rest
  }

  /** Despawning every `LevelEntity`: the entities without the marker, in
      their original order. */
  function WithoutLevelEntities(es: seq<Entity>): (r: seq<Entity>)
    ensures forall e :: e in r <==> e in es && !e.levelEntity
    ensures |r| <= |es|
  {
    if |es| == 0 then []
    else if es[0].levelEntity then WithoutLevelEntities(es[1..])
    else [es[0]] + WithoutLevelEntities(es[1..])
  }

  lemma {:induction false} GroundsAppend(a: seq<Entity>, b: seq<Entity>)
    ensures Grounds(a + b) == Grounds(a) + Grounds(b)
  {
    if |a| == 0 {
      assert a + b == b;
    } else {
      assert (a + b)[1..] == a[1..] + b;
      GroundsAppend(a[1..], b);
    }
  }

  lemma {:induction false} ExitsAppend(a: seq<Entity>, b: seq<Entity>)
    ensures Exits(a + b) == Exits(a) + Exits(b)
  {
    if |a| == 0 {
      assert a + b == b;
    } else {
      assert (a + b)[1..] == a[1..] + b;
      ExitsAppend(a[1..], b);
    }
  }

  lemma {:induction false} WithoutLevelEntitiesAppend(a: seq<Entity>, b: seq<Entity>)
    ensures WithoutLevelEntities(a + b) == WithoutLevelEntities(a) + WithoutLevelEntities(b)
  {
    if |a| == 0 {
      assert a + b == b;
    } else {
      assert (a + b)[1..] == a[1..] + b;
      WithoutLevelEntitiesAppend(a[1..], b);
    }
  }
}
