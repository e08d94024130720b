/** `GameBuyInService` as store transitions: money a player put into one game. */
module GameBuyIns {
  import opened Domain
  import opened Store
  import Repos
  import Games

  const NewBuyIn: GameBuyIn := GameBuyIn(Unsaved, 0, None, None)

  function MapToDTO(b: GameBuyIn): GameBuyInDTO
  {
    GameBuyInDTO(Some(b.gameBuyInId), b.buyInAmount, b.game, b.seasonPlayer)
  }

  /** Writes the amount and both references of the DTO onto the entity; a
      reference that names no row fails, the game first. */
  function MapToEntity(db: Db, dto: GameBuyInDTO, b: GameBuyIn): (r: Result<GameBuyIn>)
    ensures r.Ok? <==> Resolves(dto.game, GameIds(db)) && Resolves(dto.seasonPlayer, AccountIds(db))
    ensures !Resolves(dto.game, GameIds(db)) ==> r == Err(NotFound("game not found"))
    ensures Resolves(dto.game, GameIds(db)) && !Resolves(dto.seasonPlayer, AccountIds(db)) ==>
      r == Err(NotFound("seasonPlayer not found"))
    ensures r.Ok? ==> r.value.gameBuyInId == b.gameBuyInId
    ensures r.Ok? ==> MapToDTO(r.value) == dto.(gameBuyInId := Some(b.gameBuyInId))
  {
    var game :- match dto.game
      case None => Ok(None)
      case Some(gid) =>
        match Repos.FindGameById(db.games, gid)
        case None => Err(NotFound("game not found"))
        case Some(g) => Ok(Some(g.gameId));
    var account :- match dto.seasonPlayer
      case None => Ok(None)
      case Some(aid) =>
        match Repos.FindSeasonPlayerById(db.seasonPlayers, aid)
        case None => Err(NotFound("seasonPlayer not found"))
        case Some(a) => Ok(Some(a.seasonPlayerId));
    Ok(b.(buyInAmount := dto.buyInAmount, game := game, seasonPlayer := account))
  }

  function Get(db: Db, id: Id): (r: Result<GameBuyInDTO>)
    ensures r.Ok? <==> id in BuyInIds(db)
    ensures r.Ok? ==> exists b :: b in db.buyIns && b.gameBuyInId == id && r.value == MapToDTO(b)
    ensures r.Err? ==> r.error == NotFound("")
  {
    match Repos.FindBuyInById(db.buyIns, id)
    case None => Err(NotFound(""))
    case Some(b) => Ok(MapToDTO(b))
  }

  /** `create`: fails as `mapToEntity` does, before anything is saved. */
  function Create(db: Db, dto: GameBuyInDTO): (r: Result<(Db, Id)>)
    ensures r.Ok? <==> Resolves(dto.game, GameIds(db)) && Resolves(dto.seasonPlayer, AccountIds(db))
    ensures r.Err? ==> r.error == MapToEntity(db, dto, NewBuyIn).error
    ensures r.Ok? ==>
      r.value.1 == db.nextId &&
      r.value.0 == db.(buyIns := db.buyIns + [GameBuyIn(db.nextId, dto.buyInAmount, dto.game, dto.seasonPlayer)],
                       nextId := db.nextId + 1)
    ensures r.Ok? && ValidKeys(db) ==>
      ValidKeys(r.value.0) && Get(r.value.0, r.value.1) == Ok(dto.(gameBuyInId := Some(r.value.1)))
  {
    var b :- MapToEntity(db, dto, NewBuyIn);
    var (d, id) := InsertBuyIn(db, b);
    Ok((d, id))
  }

  /** `update`: an unknown id fails first, then an unresolvable reference;
      otherwise the amount and both references are replaced. */
  function Update(db: Db, id: Id, dto: GameBuyInDTO): (r: Result<Db>)
    ensures id !in BuyInIds(db) ==> r == Err(NotFound(""))
    ensures id in BuyInIds(db) ==>
      (r.Ok? <==> Resolves(dto.game, GameIds(db)) && Resolves(dto.seasonPlayer, AccountIds(db)))
    ensures id in BuyInIds(db) && r.Err? ==> r.error == MapToEntity(db, dto, NewBuyIn).error
    ensures r.Ok? ==> r.value == db.(buyIns := r.value.buyIns)
    ensures r.Ok? ==>
      |r.value.buyIns| == |db.buyIns| &&
      forall i :: 0 <= i < |db.buyIns| ==>
        r.value.buyIns[i] ==
          if db.buyIns[i].gameBuyInId == id then GameBuyIn(id, dto.buyInAmount, dto.game, dto.seasonPlayer)
          else db.buyIns[i]
    ensures r.Ok? ==> Get(r.value, id) == Ok(dto.(gameBuyInId := Some(id)))
  {
    match Repos.FindBuyInById(db.buyIns, id)
    case None => Err(NotFound(""))
    case Some(b) =>
      var updated :- MapToEntity(db, dto, b);
      Ok(MergeBuyIn(db, updated))
  }

  /** `delete`: `deleteById`; an unknown id changes nothing. */
  function Delete(db: Db, id: Id): (r: Db)
    ensures r == db.(buyIns := r.buyIns)
    ensures forall b | b in r.buyIns :: b in db.buyIns && b.gameBuyInId != id
    ensures forall b | b in db.buyIns && b.gameBuyInId != id :: b in r.buyIns
    ensures BuyInIds(r) == BuyInIds(db) - {id}
    ensures Get(r, id) == Err(NotFound(""))
  {
    DeleteBuyIn(db, id)
  }

  /** `createGameBuyIn`: records `amount` against the game with that number
      and the named player's account in the game's season. Only the buy-in
      table and the id sequence change: no account's pot is touched, and an
      earlier buy-in for the same game and account is not looked for. */
  function CreateGameBuyIn(db: Db, gameNumber: int, playerName: string, amount: Cents): (r: Result<Db>)
    ensures r.Err? <==> Games.ResolveGameAndAccount(db, gameNumber, playerName).Err?
    ensures r.Err? ==> r.error == Games.ResolveGameAndAccount(db, gameNumber, playerName).error
    ensures r.Ok? ==>
      var (gameId, accountId) := Games.ResolveGameAndAccount(db, gameNumber, playerName).value;
      r.value == db.(buyIns := db.buyIns + [GameBuyIn(db.nextId, amount, Some(gameId), Some(accountId))],
                     nextId := db.nextId + 1)
  {
    var (gameId, accountId) :- Games.ResolveGameAndAccount(db, gameNumber, playerName);
    match Create(db, GameBuyInDTO(None, amount, Some(gameId), Some(accountId)))
    case Ok(c) => Ok(c.0)
    case Err(e) => Err(e)
  }

  // ------------------------------------------------------------------ lemmas

  /** A recorded buy-in keeps every reference resolvable, and leaves every
      account, and so every current pot, as it was. */
  lemma CreateGameBuyInKeepsForeignKeys(db: Db, gameNumber: int, playerName: string, amount: Cents)
    requires ForeignKeysHold(db)
    requires CreateGameBuyIn(db, gameNumber, playerName, amount).Ok?
    ensures ForeignKeysHold(CreateGameBuyIn(db, gameNumber, playerName, amount).value)
    ensures CreateGameBuyIn(db, gameNumber, playerName, amount).value.seasonPlayers == db.seasonPlayers
  {
    var d := CreateGameBuyIn(db, gameNumber, playerName, amount).value;
    var (gameId, accountId) := Games.ResolveGameAndAccount(db, gameNumber, playerName).value;
    assert GameIds(d) == GameIds(db) && AccountIds(d) == AccountIds(db);
    forall b | b in d.buyIns
      ensures Resolves(b.game, GameIds(d)) && Resolves(b.seasonPlayer, AccountIds(d))
    {
      if b !in db.buyIns {
        assert b == d.buyIns[|db.buyIns|];
      }
    }
  }

  /** Recording the same buy-in twice adds two rows for the same game and
      account, with the same amount. */
  lemma CreateGameBuyInTwice(db: Db, gameNumber: int, playerName: string, amount: Cents)
    requires CreateGameBuyIn(db, gameNumber, playerName, amount).Ok?
    ensures var d1 := CreateGameBuyIn(db, gameNumber, playerName, amount).value;
      var r2 := CreateGameBuyIn(d1, gameNumber, playerName, amount);
      var n := |db.buyIns|;
      r2.Ok? && |r2.value.buyIns| == n + 2 &&
      r2.value.buyIns[n].gameBuyInId != r2.value.buyIns[n + 1].gameBuyInId &&
      r2.value.buyIns[n].(gameBuyInId := Unsaved) == r2.value.buyIns[n + 1].(gameBuyInId := Unsaved)
  {
    var d1 := CreateGameBuyIn(db, gameNumber, playerName, amount).value;
    Games.ResolveDependsOnReferencedTables(db, d1, gameNumber, playerName);
  }
}

/** `GameBuyInService`'s methods against the live store. */
module GameBuyInService {
  import opened Domain
  import opened Store
  import Repos
  import Games
  import GameBuyIns
  import SeasonPlayers

  method Create(store: Database, dto: GameBuyInDTO) returns (r: Result<Id>)
    requires store.Valid()
    modifies store
    ensures store.Valid()
    ensures Performs(GameBuyIns.Create(old(store.Snapshot()), dto), old(store.Snapshot()), store.Snapshot(), r)
  {
    var mapped := GameBuyIns.MapToEntity(store.Snapshot(), dto, GameBuyIns.NewBuyIn);
    if mapped.Err? {
      return Err(mapped.error);
    }
    var id := store.SaveNewBuyIn(mapped.value);
    r := Ok(id);
  }

  method Update(store: Database, id: Id, dto: GameBuyInDTO) returns (r: Result<()>)
    requires store.Valid()
    modifies store
    ensures store.Valid()
    ensures Applies(GameBuyIns.Update(old(store.Snapshot()), id, dto), old(store.Snapshot()), store.Snapshot(), r)
  {
    var found := Repos.FindBuyInById(store.buyIns, id);
    if found.None? {
      return Err(NotFound(""));
    }
    var mapped := GameBuyIns.MapToEntity(store.Snapshot(), dto, found.value);
    if mapped.Err? {
      return Err(mapped.error);
    }
    store.SaveBuyIn(mapped.value);
    r := Ok(());
  }

  method Delete(store: Database, id: Id)
    requires store.Valid()
    modifies store
    ensures store.Valid()
    ensures store.Snapshot() == GameBuyIns.Delete(old(store.Snapshot()), id)
  {
    store.DeleteBuyInById(id);
  }

  /** Fills the DTO one field at a time, as the service does, then creates. */
  method CreateGameBuyIn(store: Database, gameNumber: int, playerName: string, amount: Cents)
    returns (r: Result<()>)
    requires store.Valid()
    modifies store
    ensures store.Valid()
    ensures Applies(GameBuyIns.CreateGameBuyIn(old(store.Snapshot()), gameNumber, playerName, amount),
                    old(store.Snapshot()), store.Snapshot(), r)
  {
    var dto := GameBuyInDTO(None, 0, None, None);
    var gameId := Games.GetGameId(store.Snapshot(), gameNumber);
    if gameId.Err? {
      return Err(gameId.error);
    }
    dto := dto.(game := Some(gameId.value));
    var seasonId := Games.GetSeasonIdByGameNumber(store.Snapshot(), gameNumber);
    if seasonId.Err? {
      return Err(seasonId.error);
    }
    var accountId := SeasonPlayers.GetSeasonPlayerIdByPlayerNameAndSeasonId(store.Snapshot(), playerName,
                                                                            seasonId.value);
    if accountId.Err? {
      return Err(accountId.error);
    }
    dto := dto.(seasonPlayer := Some(accountId.value));
    dto := dto.(buyInAmount := amount);
    var created := Create(store, dto);
    r := if created.Ok? then Ok(()) else Err(created.error);
  }
}
