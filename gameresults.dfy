/** `GameResultService` as store transitions: what a player won in one game. */
module GameResults {
  import opened Domain
  import opened Store
  import Repos
  import Games

  const NewResult: GameResult := GameResult(Unsaved, 0, None, None)

  function MapToDTO(res: GameResult): GameResultDTO
  {
    GameResultDTO(Some(res.gameResultId), res.winnings, res.game, res.seasonPlayer)
  }

  /** Writes the amount and both references of the DTO onto the entity; a
      reference that names no row fails, the game first. */
  function MapToEntity(db: Db, dto: GameResultDTO, res: GameResult): (r: Result<GameResult>)
    ensures r.Ok? <==> Resolves(dto.game, GameIds(db)) && Resolves(dto.seasonPlayer, AccountIds(db))
    ensures !Resolves(dto.game, GameIds(db)) ==> r == Err(NotFound("game not found"))
    ensures Resolves(dto.game, GameIds(db)) && !Resolves(dto.seasonPlayer, AccountIds(db)) ==>
      r == Err(NotFound("seasonPlayer not found"))
    ensures r.Ok? ==> r.value.gameResultId == res.gameResultId
    ensures r.Ok? ==> MapToDTO(r.value) == dto.(gameResultId := Some(res.gameResultId))
  {
    var game :- match dto.game
      case None => Ok(None)
      case Some(gid) =>
        match Repos.FindGameById(db.games, gid)
        case None => Err(NotFound("game not found"))
        case Some(g) => Ok(Some(g.gameId));
    var account :- match dto.seasonPlayer
      case None => Ok(None)
      case Some(aid) =>
        match Repos.FindSeasonPlayerById(db.seasonPlayers, aid)
        case None => Err(NotFound("seasonPlayer not found"))
        case Some(a) => Ok(Some(a.seasonPlayerId));
    Ok(res.(winnings := dto.winnings, game := game, seasonPlayer := account))
  }

  function Get(db: Db, id: Id): (r: Result<GameResultDTO>)
    ensures r.Ok? <==> id in ResultIds(db)
    ensures r.Ok? ==> exists res :: res in db.results && res.gameResultId == id && r.value == MapToDTO(res)
    ensures r.Err? ==> r.error == NotFound("")
  {
    match Repos.FindResultById(db.results, id)
    case None => Err(NotFound(""))
    case Some(res) => Ok(MapToDTO(res))
  }

  /** `create`: fails as `mapToEntity` does, before anything is saved. */
  function Create(db: Db, dto: GameResultDTO): (r: Result<(Db, Id)>)
    ensures r.Ok? <==> Resolves(dto.game, GameIds(db)) && Resolves(dto.seasonPlayer, AccountIds(db))
    ensures r.Err? ==> r.error == MapToEntity(db, dto, NewResult).error
    ensures r.Ok? ==>
      r.value.1 == db.nextId &&
      r.value.0 == db.(results := db.results + [GameResult(db.nextId, dto.winnings, dto.game, dto.seasonPlayer)],
                       nextId := db.nextId + 1)
    ensures r.Ok? && ValidKeys(db) ==>
      ValidKeys(r.value.0) && Get(r.value.0, r.value.1) == Ok(dto.(gameResultId := Some(r.value.1)))
  {
    var res :- MapToEntity(db, dto, NewResult);
    var (d, id) := InsertResult(db, res);
    Ok((d, id))
  }

  /** `update`: an unknown id fails first, then an unresolvable reference;
      otherwise the amount and both references are replaced. */
  function Update(db: Db, id: Id, dto: GameResultDTO): (r: Result<Db>)
    ensures id !in ResultIds(db) ==> r == Err(NotFound(""))
    ensures id in ResultIds(db) ==>
      (r.Ok? <==> Resolves(dto.game, GameIds(db)) && Resolves(dto.seasonPlayer, AccountIds(db)))
    ensures id in ResultIds(db) && r.Err? ==> r.error == MapToEntity(db, dto, NewResult).error
    ensures r.Ok? ==> r.value == db.(results := r.value.results)
    ensures r.Ok? ==>
      |r.value.results| == |db.results| &&
      forall i :: 0 <= i < |db.results| ==>
        r.value.results[i] ==
          if db.results[i].gameResultId == id then GameResult(id, dto.winnings, dto.game, dto.seasonPlayer)
          else db.results[i]
    ensures r.Ok? ==> Get(r.value, id) == Ok(dto.(gameResultId := Some(id)))
  {
    match Repos.FindResultById(db.results, id)
    case None => Err(NotFound(""))
    case Some(res) =>
      var updated :- MapToEntity(db, dto, res);
      Ok(MergeResult(db, updated))
  }

  /** `delete`: `deleteById`; an unknown id changes nothing. */
  function Delete(db: Db, id: Id): (r: Db)
    ensures r == db.(results := r.results)
    ensures forall res | res in r.results :: res in db.results && res.gameResultId != id
    ensures forall res | res in db.results && res.gameResultId != id :: res in r.results
    ensures ResultIds(r) == ResultIds(db) - {id}
    ensures Get(r, id) == Err(NotFound(""))
  {
    DeleteResult(db, id)
  }

  /** `createGameResult`: records `amount` won against the game with that
      number and the named player's account in the game's season. Only the
      result table and the id sequence change: no account's pot is credited,
      and an earlier result for the same game and account is not looked for. */
  function CreateGameResult(db: Db, gameNumber: int, playerName: string, amount: Cents): (r: Result<Db>)
    ensures r.Err? <==> Games.ResolveGameAndAccount(db, gameNumber, playerName).Err?
    ensures r.Err? ==> r.error == Games.ResolveGameAndAccount(db, gameNumber, playerName).error
    ensures r.Ok? ==>
      var (gameId, accountId) := Games.ResolveGameAndAccount(db, gameNumber, playerName).value;
      r.value == db.(results := db.results + [GameResult(db.nextId, amount, Some(gameId), Some(accountId))],
                     nextId := db.nextId + 1)
  {
    var (gameId, accountId) :- Games.ResolveGameAndAccount(db, gameNumber, playerName);
    match Create(db, GameResultDTO(None, amount, Some(gameId), Some(accountId)))
    case Ok(c) => Ok(c.0)
    case Err(e) => Err(e)
  }

  // ------------------------------------------------------------------ lemmas

  /** A recorded result keeps every reference resolvable, and leaves every
      account, and so every current pot, as it was. */
  lemma CreateGameResultKeepsForeignKeys(db: Db, gameNumber: int, playerName: string, amount: Cents)
    requires ForeignKeysHold(db)
    requires CreateGameResult(db, gameNumber, playerName, amount).Ok?
    ensures ForeignKeysHold(CreateGameResult(db, gameNumber, playerName, amount).value)
    ensures CreateGameResult(db, gameNumber, playerName, amount).value.seasonPlayers == db.seasonPlayers
  {
    var d := CreateGameResult(db, gameNumber, playerName, amount).value;
    var (gameId, accountId) := Games.ResolveGameAndAccount(db, gameNumber, playerName).value;
    assert GameIds(d) == GameIds(db) && AccountIds(d) == AccountIds(db);
    forall res | res in d.results
      ensures Resolves(res.game, GameIds(d)) && Resolves(res.seasonPlayer, AccountIds(d))
    {
      if res !in db.results {
        assert res == d.results[|db.results|];
      }
    }
  }

  /** Recording the same result twice adds two rows for the same game and
      account, with the same winnings. */
  lemma CreateGameResultTwice(db: Db, gameNumber: int, playerName: string, amount: Cents)
    requires CreateGameResult(db, gameNumber, playerName, amount).Ok?
    ensures var d1 := CreateGameResult(db, gameNumber, playerName, amount).value;
      var r2 := CreateGameResult(d1, gameNumber, playerName, amount);
      var n := |db.results|;
      r2.Ok? && |r2.value.results| == n + 2 &&
      r2.value.results[n].gameResultId != r2.value.results[n + 1].gameResultId &&
      r2.value.results[n].(gameResultId := Unsaved) == r2.value.results[n + 1].(gameResultId := Unsaved)
  {
    var d1 := CreateGameResult(db, gameNumber, playerName, amount).value;
    Games.ResolveDependsOnReferencedTables(db, d1, gameNumber, playerName);
  }
}

/** `GameResultService`'s methods against the live store. */
module GameResultService {
  import opened Domain
  import opened Store
  import Repos
  import Games
  import GameResults
  import SeasonPlayers

  method Create(store: Database, dto: GameResultDTO) returns (r: Result<Id>)
    requires store.Valid()
    modifies store
    ensures store.Valid()
    ensures Performs(GameResults.Create(old(store.Snapshot()), dto), old(store.Snapshot()), store.Snapshot(), r)
  {
    var mapped := GameResults.MapToEntity(store.Snapshot(), dto, GameResults.NewResult);
    if mapped.Err? {
      return Err(mapped.error);
    }
    var id := store.SaveNewResult(mapped.value);
    r := Ok(id);
  }

  method Update(store: Database, id: Id, dto: GameResultDTO) returns (r: Result<()>)
    requires store.Valid()
    modifies store
    ensures store.Valid()
    ensures Applies(GameResults.Update(old(store.Snapshot()), id, dto), old(store.Snapshot()), store.Snapshot(), r)
  {
    var found := Repos.FindResultById(store.results, id);
    if found.None? {
      return Err(NotFound(""));
    }
    var mapped := GameResults.MapToEntity(store.Snapshot(), dto, found.value);
    if mapped.Err? {
      return Err(mapped.error);
    }
    store.SaveResult(mapped.value);
    r := Ok(());
  }

  method Delete(store: Database, id: Id)
    requires store.Valid()
    modifies store
    ensures store.Valid()
    ensures store.Snapshot() == GameResults.Delete(old(store.Snapshot()), id)
  {
    store.DeleteResultById(id);
  }

  /** Fills the DTO one field at a time, as the service does, then creates. */
  method CreateGameResult(store: Database, gameNumber: int, playerName: string, amount: Cents)
    returns (r: Result<()>)
    requires store.Valid()
    modifies store
    ensures store.Valid()
    ensures Applies(GameResults.CreateGameResult(old(store.Snapshot()), gameNumber, playerName, amount),
                    old(store.Snapshot()), store.Snapshot(), r)
  {
    var dto := GameResultDTO(None, 0, None, None);
    var gameId := Games.GetGameId(store.Snapshot(), gameNumber);
    if gameId.Err? {
      return Err(gameId.error);
    }
    dto := dto.(game := Some(gameId.value));
    var seasonId := Games.GetSeasonIdByGameNumber(store.Snapshot(), gameNumber);
    if seasonId.Err? {
      return Err(seasonId.error);
    }
    var accountId := SeasonPlayers.GetSeasonPlayerIdByPlayerNameAndSeasonId(store.Snapshot(), playerName,
                                                                            seasonId.value);
    if accountId.Err? {
      return Err(accountId.error);
    }
    dto := dto.(seasonPlayer := Some(accountId.value));
    dto := dto.(winnings := amount);
    var created := Create(store, dto);
    r := if created.Ok? then Ok(()) else Err(created.error);
  }
}
