/** `PlayerService` as store transitions. */
module Players {
  import opened Domain
  import opened Store
  import Repos

  const PlayerReferencedKey := "player.seasonPlayer.player.referenced"

  /** A `new Player()`: all fields unset until `mapToEntity` and `save`. */
  const NewPlayer: Player := Player(Unsaved, "", None)

  function MapToDTO(p: Player): PlayerDTO
  {
    PlayerDTO(Some(p.playerId), p.name, p.createdAt)
  }

  /** Writes every field of the DTO except the id onto the entity. */
  function MapToEntity(dto: PlayerDTO, p: Player): (r: Player)
    ensures r.playerId == p.playerId
    ensures MapToDTO(r) == dto.(playerId := Some(p.playerId))
  {
    p.(name := dto.name, createdAt := dto.createdAt)
  }

  function GetPlayerIdByName(db: Db, name: string): (r: Result<Id>)
    ensures r.Ok? ==> exists p :: p in db.players && p.name == name && p.playerId == r.value
    ensures r == Err(EmptyResult) <==> forall p | p in db.players :: p.name != name
    ensures r == Err(IncorrectResultSize) <==>
      exists i, j :: 0 <= i < j < |db.players| && db.players[i].name == name && db.players[j].name == name
    ensures r.Err? ==> r.error == EmptyResult || r.error == IncorrectResultSize
  {
    Repos.FindPlayerIdByName(db.players, name)
  }

  function Get(db: Db, id: Id): (r: Result<PlayerDTO>)
    ensures r.Ok? <==> id in PlayerIds(db)
    ensures r.Ok? ==> exists p :: p in db.players && p.playerId == id && r.value == MapToDTO(p)
    ensures r.Err? ==> r.error == NotFound("")
  {
    match Repos.FindPlayerById(db.players, id)
    case None => Err(NotFound(""))
    case Some(p) => Ok(MapToDTO(p))
  }

  /** `create`: the new row holds the DTO's fields under the next id of the sequence. */
  function Create(db: Db, dto: PlayerDTO): (r: (Db, Id))
    ensures r.1 == db.nextId
    ensures r.0 == db.(players := r.0.players, nextId := db.nextId + 1)
    ensures |r.0.players| == |db.players| + 1 && r.0.players[..|db.players|] == db.players
    ensures MapToDTO(r.0.players[|db.players|]) == dto.(playerId := Some(r.1))
    ensures ValidKeys(db) ==> ValidKeys(r.0) && Get(r.0, r.1) == Ok(dto.(playerId := Some(r.1)))
  {
    var (d, id) := InsertPlayer(db, MapToEntity(dto, NewPlayer));
    assert d.players[..|db.players|] == db.players;
    (d, id)
  }

  /** `update`: a full replace of the row's fields by the DTO's. */
  function Update(db: Db, id: Id, dto: PlayerDTO): (r: Result<Db>)
    ensures r.Ok? <==> id in PlayerIds(db)
    ensures r.Err? ==> r.error == NotFound("")
    ensures r.Ok? ==> r.value == db.(players := r.value.players)
    ensures r.Ok? ==>
      |r.value.players| == |db.players| &&
      forall i :: 0 <= i < |db.players| ==>
        r.value.players[i] == if db.players[i].playerId == id then Player(id, dto.name, dto.createdAt)
                              else db.players[i]
    ensures r.Ok? ==> Get(r.value, id) == Ok(dto.(playerId := Some(id)))
  {
    match Repos.FindPlayerById(db.players, id)
    case None => Err(NotFound(""))
    case Some(p) => Ok(MergePlayer(db, MapToEntity(dto, p)))
  }

  /** `delete`: `deleteById` with no reference check; an unknown id changes nothing. */
  function Delete(db: Db, id: Id): (r: Db)
    ensures r == db.(players := r.players)
    ensures forall p | p in r.players :: p in db.players && p.playerId != id
    ensures forall p | p in db.players && p.playerId != id :: p in r.players
    ensures PlayerIds(r) == PlayerIds(db) - {id}
    ensures Get(r, id) == Err(NotFound(""))
  {
    DeletePlayer(db, id)
  }

  /** The first account that references the player blocks its deletion. */
  function GetReferencedWarning(db: Db, id: Id): (r: Result<Option<ReferencedWarning>>)
    ensures r.Err? <==> id !in PlayerIds(db)
    ensures r.Err? ==> r.error == NotFound("")
    ensures r == Ok(None) <==> id in PlayerIds(db) && forall a | a in db.seasonPlayers :: a.player != Some(id)
    ensures r.Ok? && r.value.Some? ==>
      exists i :: 0 <= i < |db.seasonPlayers| && db.seasonPlayers[i].player == Some(id) &&
        (forall j :: 0 <= j < i ==> db.seasonPlayers[j].player != Some(id)) &&
        r.value.value == ReferencedWarning(PlayerReferencedKey, [db.seasonPlayers[i].seasonPlayerId])
  {
    match Repos.FindPlayerById(db.players, id)
    case None => Err(NotFound(""))
    case Some(p) =>
      match Repos.FindFirstSeasonPlayerByPlayer(db.seasonPlayers, p.playerId)
      case Some(a) => Ok(Some(ReferencedWarning(PlayerReferencedKey, [a.seasonPlayerId])))
      case None => Ok(None)
  }

  /** The id of the first player (in table order) with that name; otherwise a
      new player with that name and no creation time. */
  function GetOrCreatePlayerIdByName(db: Db, name: string): (r: (Db, Id))
    ensures (exists p :: p in db.players && p.name == name) ==>
      r.0 == db &&
      exists i :: 0 <= i < |db.players| && db.players[i].name == name && db.players[i].playerId == r.1 &&
        forall j :: 0 <= j < i ==> db.players[j].name != name
    ensures (forall p | p in db.players :: p.name != name) ==>
      r == (db.(players := db.players + [Player(db.nextId, name, None)], nextId := db.nextId + 1), db.nextId)
  {
    match Repos.FindFirstPlayerNamed(db.players, name)
    case Some(p) => (db, p.playerId)
    case None => Create(db, PlayerDTO(None, name, None))
  }

  // ------------------------------------------------------------------ lemmas

  /** A name held by exactly one player resolves to that player's id. */
  lemma GetPlayerIdByNameUnique(db: Db, name: string, i: nat)
    requires i < |db.players| && db.players[i].name == name
    requires forall j :: 0 <= j < |db.players| && j != i ==> db.players[j].name != name
    ensures GetPlayerIdByName(db, name) == Ok(db.players[i].playerId)
  {
    var r := GetPlayerIdByName(db, name);
    assert db.players[i] in db.players;
    assert r.Ok?;
    var p :| p in db.players && p.name == name && p.playerId == r.value;
    var k :| 0 <= k < |db.players| && db.players[k] == p;
    assert k == i;
  }

  /** When the name query succeeds, get-or-create returns the same id and
      creates nothing. */
  lemma GetOrCreateAgreesWithGetPlayerIdByName(db: Db, name: string)
    requires GetPlayerIdByName(db, name).Ok?
    ensures GetOrCreatePlayerIdByName(db, name) == (db, GetPlayerIdByName(db, name).value)
  {
    var r := GetPlayerIdByName(db, name);
    var p :| p in db.players && p.name == name && p.playerId == r.value;
    var k :| 0 <= k < |db.players| && db.players[k] == p;
    var (d1, id1) := GetOrCreatePlayerIdByName(db, name);
    var i :| 0 <= i < |db.players| && db.players[i].name == name && db.players[i].playerId == id1 &&
      forall j :: 0 <= j < i ==> db.players[j].name != name;
    assert i == k;
  }

  /** A name no player holds resolves, once get-or-create has added it, to
      the id get-or-create returned. */
  lemma GetOrCreateThenGetPlayerIdByName(db: Db, name: string)
    requires forall p | p in db.players :: p.name != name
    ensures var (d1, id1) := GetOrCreatePlayerIdByName(db, name);
      GetPlayerIdByName(d1, name) == Ok(id1)
  {
    var (d1, id1) := GetOrCreatePlayerIdByName(db, name);
    var n := |db.players|;
    forall j | 0 <= j < |d1.players| && j != n
      ensures d1.players[j].name != name
    {
      assert d1.players[j] == db.players[j];
      assert db.players[j] in db.players;
    }
    GetPlayerIdByNameUnique(d1, name, n);
  }

  /** A second call with the same name finds the player the first call
      returned or created: same id, no further row. */
  lemma GetOrCreateIdempotent(db: Db, name: string)
    ensures var (d1, id1) := GetOrCreatePlayerIdByName(db, name);
      GetOrCreatePlayerIdByName(d1, name) == (d1, id1) && |d1.players| <= |db.players| + 1
  {
    var (d1, id1) := GetOrCreatePlayerIdByName(db, name);
    if forall p | p in db.players :: p.name != name {
      var p := d1.players[|db.players|];
      assert p in d1.players && p.name == name;
      assert forall q | q in d1.players && q.name == name :: q == p;
      assert forall j :: 0 <= j < |db.players| ==> d1.players[j].name != name;
    }
  }

  /** The returned id names a player with that name. */
  lemma GetOrCreateNamesPlayer(db: Db, name: string)
    requires ValidKeys(db)
    ensures var (d1, id1) := GetOrCreatePlayerIdByName(db, name);
      ValidKeys(d1) && Repos.FindPlayerById(d1.players, id1).Some? &&
      Repos.FindPlayerById(d1.players, id1).value.name == name
  {
    var (d1, id1) := GetOrCreatePlayerIdByName(db, name);
    if forall p | p in db.players :: p.name != name {
      assert Get(d1, id1).Ok?;
    } else {
      var i :| 0 <= i < |db.players| && db.players[i].name == name && db.players[i].playerId == id1;
      assert db.players[i] in d1.players;
    }
  }

  /** With the name not shared, the player `findByName` finds afterwards is
      the one whose id was returned. */
  lemma GetOrCreateThenFindByName(db: Db, name: string) returns (p: Player)
    requires Repos.FindPlayerByName(db.players, name).Ok?
    ensures var (d1, id1) := GetOrCreatePlayerIdByName(db, name);
      Repos.FindPlayerByName(d1.players, name) == Ok(Some(p)) && p.playerId == id1
  {
    var (d1, id1) := GetOrCreatePlayerIdByName(db, name);
    if forall q | q in db.players :: q.name != name {
      p := d1.players[|db.players|];
      Repos.FindPlayerByNameAppended(db.players, p, name);
    } else {
      p := Repos.FindPlayerByName(db.players, name).value.value;
      var i :| 0 <= i < |db.players| && db.players[i].name == name && db.players[i].playerId == id1;
    }
  }

  /** Only the player table decides what get-or-create returns. */
  lemma GetOrCreateDependsOnPlayers(db: Db, db': Db, name: string)
    requires db.players == db'.players
    requires exists p :: p in db.players && p.name == name
    ensures GetOrCreatePlayerIdByName(db, name).1 == GetOrCreatePlayerIdByName(db', name).1
    ensures GetOrCreatePlayerIdByName(db', name).0 == db'
  {
  }

  /** A delete that the warning would have allowed keeps every reference
      resolvable. */
  lemma DeleteUnreferencedKeepsForeignKeys(db: Db, id: Id)
    requires ForeignKeysHold(db)
    requires GetReferencedWarning(db, id) == Ok(None)
    ensures ForeignKeysHold(Delete(db, id))
  {
    var d := Delete(db, id);
    forall a | a in d.seasonPlayers
      ensures Resolves(a.player, PlayerIds(d))
    {
      assert Resolves(a.player, PlayerIds(db)) && a.player != Some(id);
    }
  }

  /** `delete` does not consult the warning: deleting a referenced player
      leaves the blocking account pointing at no player. */
  lemma DeleteIgnoresWarning(db: Db, id: Id, w: ReferencedWarning)
    requires GetReferencedWarning(db, id) == Ok(Some(w))
    ensures var d := Delete(db, id);
      exists a :: a in d.seasonPlayers && [a.seasonPlayerId] == w.params && a.player == Some(id) &&
        id !in PlayerIds(d) && !ForeignKeysHold(d)
  {
    var d := Delete(db, id);
    var i :| 0 <= i < |db.seasonPlayers| && db.seasonPlayers[i].player == Some(id) &&
      w == ReferencedWarning(PlayerReferencedKey, [db.seasonPlayers[i].seasonPlayerId]);
    var a := db.seasonPlayers[i];
    assert a in d.seasonPlayers && !Resolves(a.player, PlayerIds(d));
  }
}

/** `PlayerService`'s methods against the live store. */
module PlayerService {
  import opened Domain
  import opened Store
  import Repos
  import Players

  method Create(store: Database, dto: PlayerDTO) returns (id: Id)
    requires store.Valid()
    modifies store
    ensures store.Valid()
    ensures (store.Snapshot(), id) == Players.Create(old(store.Snapshot()), dto)
  {
    var player := Players.MapToEntity(dto, Players.NewPlayer);
    id := store.SaveNewPlayer(player);
  }

  method Update(store: Database, id: Id, dto: PlayerDTO) returns (r: Result<()>)
    requires store.Valid()
    modifies store
    ensures store.Valid()
    ensures Applies(Players.Update(old(store.Snapshot()), id, dto), old(store.Snapshot()), store.Snapshot(), r)
  {
    var found := Repos.FindPlayerById(store.players, id);
    if found.None? {
      return Err(NotFound(""));
    }
    var player := Players.MapToEntity(dto, found.value);
    store.SavePlayer(player);
    r := Ok(());
  }

  method Delete(store: Database, id: Id)
    requires store.Valid()
    modifies store
    ensures store.Valid()
    ensures store.Snapshot() == Players.Delete(old(store.Snapshot()), id)
  {
    store.DeletePlayerById(id);
  }

  /** Scans `findAll()` for the first player with the name; creates one when
      the scan finds none. */
  method GetOrCreatePlayerIdByName(store: Database, name: string) returns (id: Id)
    requires store.Valid()
    modifies store
    ensures store.Valid()
    ensures (store.Snapshot(), id) == Players.GetOrCreatePlayerIdByName(old(store.Snapshot()), name)
  {
    var players := store.players;
    var i := 0;
    while i < |players|
      invariant 0 <= i <= |players|
      invariant forall j :: 0 <= j < i ==> players[j].name != name
    {
      if players[i].name == name {
        ghost var first := Repos.FindFirstPlayerNamed(players, name);
        ghost var k :| 0 <= k < |players| && players[k] == first.value &&
          forall j :: 0 <= j < k ==> players[j].name != name;
        assert k == i;
        return players[i].playerId;
      }
      i := i + 1;
    }
    id := Create(store, PlayerDTO(None, name, None));
  }
}
