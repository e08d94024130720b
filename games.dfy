/** `GameService` as store transitions: one numbered game of a season. */
module Games {
  import opened Domain
  import opened Store
  import Repos
  import Seasons
  import SeasonPlayers

  const BuyInReferencedKey := "game.gameBuyIn.game.referenced"
  const ResultReferencedKey := "game.gameResult.game.referenced"
  const ParticipationReferencedKey := "game.playerParticipation.game.referenced"

  const NewGame: Game := Game(Unsaved, 0, None, None, None, None)

  function MapToDTO(g: Game): GameDTO
  {
    GameDTO(Some(g.gameId), g.gameNumber, g.startTime, g.endTime, g.createdAt, g.season)
  }

  /** Writes the number, the three times and the season of the DTO onto the
      entity; a season id that names no season fails. */
  function MapToEntity(db: Db, dto: GameDTO, g: Game): (r: Result<Game>)
    ensures r.Ok? <==> Resolves(dto.season, SeasonIds(db))
    ensures r.Err? ==> r.error == NotFound("season not found")
    ensures r.Ok? ==> r.value.gameId == g.gameId
    ensures r.Ok? ==> MapToDTO(r.value) == dto.(gameId := Some(g.gameId))
  {
    var season :- match dto.season
      case None => Ok(None)
      case Some(sid) =>
        match Repos.FindSeasonById(db.seasons, sid)
        case None => Err(NotFound("season not found"))
        case Some(s) => Ok(Some(s.seasonId));
    Ok(g.(gameNumber := dto.gameNumber, startTime := dto.startTime, endTime := dto.endTime,
          createdAt := dto.createdAt, season := season))
  }

  /** `getGameId`: the id of the one game with that number. */
  function GetGameId(db: Db, gameNumber: int): (r: Result<Id>)
    ensures r.Ok? ==> exists g :: g in db.games && g.gameNumber == gameNumber && g.gameId == r.value
    ensures r == Err(EmptyResult) <==> forall g | g in db.games :: g.gameNumber != gameNumber
    ensures r == Err(IncorrectResultSize) <==>
      exists i, j :: 0 <= i < j < |db.games| &&
        db.games[i].gameNumber == gameNumber && db.games[j].gameNumber == gameNumber
    ensures r.Err? ==> r.error == EmptyResult || r.error == IncorrectResultSize
  {
    Repos.FindGameIdByGameNumber(db.games, gameNumber)
  }

  /** `getSeasonIdByGameNumber`: the season of the one game with that number;
      a game without a season dereferences null. */
  function GetSeasonIdByGameNumber(db: Db, gameNumber: int): (r: Result<Id>)
    ensures r.Ok? ==>
      exists g :: g in db.games && g.gameNumber == gameNumber && g.season == Some(r.value) &&
        forall j :: 0 <= j < |db.games| && db.games[j].gameNumber == gameNumber ==> db.games[j] == g
    ensures r == Err(NotFound("Game not found")) <==> forall g | g in db.games :: g.gameNumber != gameNumber
    ensures r == Err(IncorrectResultSize) <==>
      exists i, j :: 0 <= i < j < |db.games| &&
        db.games[i].gameNumber == gameNumber && db.games[j].gameNumber == gameNumber
    ensures r == Err(NullReference) ==>
      exists g :: g in db.games && g.gameNumber == gameNumber && g.season.None?
    ensures r.Err? ==> r.error in {NotFound("Game not found"), IncorrectResultSize, NullReference}
  {
    var game :- Repos.FindGameByGameNumber(db.games, gameNumber);
    match game
    case None => Err(NotFound("Game not found"))
    case Some(g) =>
      match g.season
      case None => Err(NullReference)
      case Some(sid) => Ok(sid)
  }

  /** The three lookups with which `createGameBuyIn` and `createGameResult`
      both begin: the game's id by number, its season by number, then the
      named player's account in that season. The first that fails decides
      the error. */
  function ResolveGameAndAccount(db: Db, gameNumber: int, playerName: string): (r: Result<(Id, Id)>)
    ensures GetGameId(db, gameNumber).Err? ==> r == Err(GetGameId(db, gameNumber).error)
    ensures GetGameId(db, gameNumber).Ok? && GetSeasonIdByGameNumber(db, gameNumber).Err? ==>
      r == Err(GetSeasonIdByGameNumber(db, gameNumber).error)
    ensures GetGameId(db, gameNumber).Ok? && GetSeasonIdByGameNumber(db, gameNumber).Ok? ==>
      var account := SeasonPlayers.GetSeasonPlayerIdByPlayerNameAndSeasonId(
        db, playerName, GetSeasonIdByGameNumber(db, gameNumber).value);
      (r.Err? <==> account.Err?) && (r.Err? ==> r.error == account.error)
    ensures r.Ok? ==>
      exists g, a, p ::
        g in db.games && g.gameId == r.value.0 && g.gameNumber == gameNumber &&
        a in db.seasonPlayers && a.seasonPlayerId == r.value.1 && a.season == g.season && a.season.Some? &&
        p in db.players && p.name == playerName && a.player == Some(p.playerId)
    ensures r.Ok? ==> r.value.0 in GameIds(db) && r.value.1 in AccountIds(db)
  {
    var gameId :- GetGameId(db, gameNumber);
    var seasonId :- GetSeasonIdByGameNumber(db, gameNumber);
    var accountId :- SeasonPlayers.GetSeasonPlayerIdByPlayerNameAndSeasonId(db, playerName, seasonId);
    SeasonLookupAgreesWithIdLookup(db, gameNumber);
    Ok((gameId, accountId))
  }

  function Get(db: Db, id: Id): (r: Result<GameDTO>)
    ensures r.Ok? <==> id in GameIds(db)
    ensures r.Ok? ==> exists g :: g in db.games && g.gameId == id && r.value == MapToDTO(g)
    ensures r.Err? ==> r.error == NotFound("")
  {
    match Repos.FindGameById(db.games, id)
    case None => Err(NotFound(""))
    case Some(g) => Ok(MapToDTO(g))
  }

  /** `create`: fails as `mapToEntity` does, before anything is saved. */
  function Create(db: Db, dto: GameDTO): (r: Result<(Db, Id)>)
    ensures r.Ok? <==> Resolves(dto.season, SeasonIds(db))
    ensures r.Err? ==> r.error == NotFound("season not found")
    ensures r.Ok? ==>
      r.value.1 == db.nextId &&
      r.value.0 == db.(games := db.games + [Game(db.nextId, dto.gameNumber, dto.startTime, dto.endTime,
                                                 dto.createdAt, dto.season)],
                       nextId := db.nextId + 1)
    ensures r.Ok? && ValidKeys(db) ==>
      ValidKeys(r.value.0) && Get(r.value.0, r.value.1) == Ok(dto.(gameId := Some(r.value.1)))
  {
    var g :- MapToEntity(db, dto, NewGame);
    var (d, id) := InsertGame(db, g);
    Ok((d, id))
  }

  /** `update`: an unknown id fails first, then an unresolvable season;
      otherwise every field but the id is replaced. */
  function Update(db: Db, id: Id, dto: GameDTO): (r: Result<Db>)
    ensures id !in GameIds(db) ==> r == Err(NotFound(""))
    ensures id in GameIds(db) ==> (r.Ok? <==> Resolves(dto.season, SeasonIds(db)))
    ensures id in GameIds(db) && r.Err? ==> r.error == NotFound("season not found")
    ensures r.Ok? ==> r.value == db.(games := r.value.games)
    ensures r.Ok? ==>
      |r.value.games| == |db.games| &&
      forall i :: 0 <= i < |db.games| ==>
        r.value.games[i] ==
          if db.games[i].gameId == id
          then Game(id, dto.gameNumber, dto.startTime, dto.endTime, dto.createdAt, dto.season)
          else db.games[i]
    ensures r.Ok? ==> Get(r.value, id) == Ok(dto.(gameId := Some(id)))
  {
    match Repos.FindGameById(db.games, id)
    case None => Err(NotFound(""))
    case Some(g) =>
      var updated :- MapToEntity(db, dto, g);
      Ok(MergeGame(db, updated))
  }

  /** `delete`: `deleteById` with no reference check; an unknown id changes nothing. */
  function Delete(db: Db, id: Id): (r: Db)
    ensures r == db.(games := r.games)
    ensures forall g | g in r.games :: g in db.games && g.gameId != id
    ensures forall g | g in db.games && g.gameId != id :: g in r.games
    ensures GameIds(r) == GameIds(db) - {id}
    ensures Get(r, id) == Err(NotFound(""))
  {
    DeleteGame(db, id)
  }

  /** `createGame`: a game with that number in the season with that name,
      with no times set. Neither the number nor the name is checked for
      reuse; an unresolvable season name fails before any row is added. */
  function CreateGame(db: Db, seasonName: string, gameNumber: int): (r: Result<Db>)
    ensures r.Err? <==> Seasons.GetSeasonIdByName(db, seasonName).Err?
    ensures r.Err? ==> r.error == Seasons.GetSeasonIdByName(db, seasonName).error
    ensures r.Ok? ==>
      r.value == db.(games := db.games + [Game(db.nextId, gameNumber, None, None, None,
                                               Some(Seasons.GetSeasonIdByName(db, seasonName).value))],
                     nextId := db.nextId + 1)
  {
    var seasonId :- Seasons.GetSeasonIdByName(db, seasonName);
    match Create(db, GameDTO(None, gameNumber, None, None, None, Some(seasonId)))
    case Ok(c) => Ok(c.0)
    case Err(e) => Err(e)
  }

  /** Buy-ins of the game are looked at first, then results, then
      participations. */
  function GetReferencedWarning(db: Db, id: Id): (r: Result<Option<ReferencedWarning>>)
    ensures r.Err? <==> id !in GameIds(db)
    ensures r.Err? ==> r.error == NotFound("")
    ensures r == Ok(None) <==>
      id in GameIds(db) &&
      (forall b | b in db.buyIns :: b.game != Some(id)) &&
      (forall g | g in db.results :: g.game != Some(id)) &&
      (forall q | q in db.participations :: q.game != Some(id))
    ensures r.Ok? && r.value.Some? ==>
      (exists i :: 0 <= i < |db.buyIns| && db.buyIns[i].game == Some(id) &&
        (forall j :: 0 <= j < i ==> db.buyIns[j].game != Some(id)) &&
        r.value.value == ReferencedWarning(BuyInReferencedKey, [db.buyIns[i].gameBuyInId]))
      ||
      ((forall b | b in db.buyIns :: b.game != Some(id)) &&
       exists i :: 0 <= i < |db.results| && db.results[i].game == Some(id) &&
        (forall j :: 0 <= j < i ==> db.results[j].game != Some(id)) &&
        r.value.value == ReferencedWarning(ResultReferencedKey, [db.results[i].gameResultId]))
      ||
      ((forall b | b in db.buyIns :: b.game != Some(id)) &&
       (forall g | g in db.results :: g.game != Some(id)) &&
       exists i :: 0 <= i < |db.participations| && db.participations[i].game == Some(id) &&
        (forall j :: 0 <= j < i ==> db.participations[j].game != Some(id)) &&
        r.value.value == ReferencedWarning(ParticipationReferencedKey, [db.participations[i].participationId]))
  {
    match Repos.FindGameById(db.games, id)
    case None => Err(NotFound(""))
    case Some(game) =>
      match Repos.FindFirstBuyInByGame(db.buyIns, game.gameId)
      case Some(b) => Ok(Some(ReferencedWarning(BuyInReferencedKey, [b.gameBuyInId])))
      case None =>
        match Repos.FindFirstResultByGame(db.results, game.gameId)
        case Some(g) => Ok(Some(ReferencedWarning(ResultReferencedKey, [g.gameResultId])))
        case None =>
          match Repos.FindFirstParticipationByGame(db.participations, game.gameId)
          case Some(q) => Ok(Some(ReferencedWarning(ParticipationReferencedKey, [q.participationId])))
          case None => Ok(None)
  }

  // ------------------------------------------------------------------ lemmas

  /** The two lookups by game number agree: when the season is found, the id
      is found too, and it is the id of a game of that season. */
  lemma SeasonLookupAgreesWithIdLookup(db: Db, gameNumber: int)
    requires GetSeasonIdByGameNumber(db, gameNumber).Ok?
    ensures GetGameId(db, gameNumber).Ok?
    ensures exists g ::
      g in db.games && g.gameId == GetGameId(db, gameNumber).value &&
      g.season == Some(GetSeasonIdByGameNumber(db, gameNumber).value)
  {
    var g :| g in db.games && g.gameNumber == gameNumber && g.season == Some(GetSeasonIdByGameNumber(db, gameNumber).value) &&
      forall j :: 0 <= j < |db.games| && db.games[j].gameNumber == gameNumber ==> db.games[j] == g;
    var r := GetGameId(db, gameNumber);
    var h :| h in db.games && h.gameNumber == gameNumber && h.gameId == r.value;
    var k :| 0 <= k < |db.games| && db.games[k] == h;
  }

  /** The id lookup runs first, so the season lookup's "Game not found" never
      reaches the caller; every error is one of the lookups' own. */
  lemma ResolveErrors(db: Db, gameNumber: int, playerName: string)
    ensures var r := ResolveGameAndAccount(db, gameNumber, playerName);
      r.Err? ==>
        r.error in {EmptyResult, IncorrectResultSize, NullReference, NotFound("Player not found"),
                    NotFound("Season not found"), NotFound("Season player not found")}
  {
    var r := ResolveGameAndAccount(db, gameNumber, playerName);
    if GetGameId(db, gameNumber).Ok? && GetSeasonIdByGameNumber(db, gameNumber).Err? {
      var g :| g in db.games && g.gameNumber == gameNumber;
    }
  }

  /** The lookups read only the games, seasons, players and accounts. */
  lemma ResolveDependsOnReferencedTables(db: Db, db': Db, gameNumber: int, playerName: string)
    requires db'.games == db.games && db'.seasons == db.seasons
    requires db'.players == db.players && db'.seasonPlayers == db.seasonPlayers
    ensures ResolveGameAndAccount(db', gameNumber, playerName) == ResolveGameAndAccount(db, gameNumber, playerName)
  {
    assert GetGameId(db', gameNumber) == GetGameId(db, gameNumber);
    assert GetSeasonIdByGameNumber(db', gameNumber) == GetSeasonIdByGameNumber(db, gameNumber);
    if GetSeasonIdByGameNumber(db, gameNumber).Ok? {
      var sid := GetSeasonIdByGameNumber(db, gameNumber).value;
      assert SeasonPlayers.GetSeasonPlayerIdByPlayerNameAndSeasonId(db', playerName, sid) ==
             SeasonPlayers.GetSeasonPlayerIdByPlayerNameAndSeasonId(db, playerName, sid);
    }
  }

  /** While every reference resolves, the season of a found game exists, so
      the account lookup never reports a missing season. */
  lemma ResolveWithForeignKeys(db: Db, gameNumber: int, playerName: string)
    requires ForeignKeysHold(db)
    ensures ResolveGameAndAccount(db, gameNumber, playerName) != Err(NotFound("Season not found"))
  {
    if GetGameId(db, gameNumber).Ok? && GetSeasonIdByGameNumber(db, gameNumber).Ok? {
      var sid := GetSeasonIdByGameNumber(db, gameNumber).value;
      var g :| g in db.games && g.gameNumber == gameNumber && g.season == Some(sid);
      assert sid in SeasonIds(db);
    }
  }

  /** A game created under a fresh number is found by it, with its season. */
  lemma CreateGameThenFind(db: Db, seasonName: string, gameNumber: int)
    requires CreateGame(db, seasonName, gameNumber).Ok?
    requires forall g | g in db.games :: g.gameNumber != gameNumber
    ensures var d := CreateGame(db, seasonName, gameNumber).value;
      GetGameId(d, gameNumber) == Ok(db.nextId) &&
      GetSeasonIdByGameNumber(d, gameNumber) == Seasons.GetSeasonIdByName(db, seasonName)
  {
    var d := CreateGame(db, seasonName, gameNumber).value;
    var n := |db.games|;
    assert d.games[n].gameNumber == gameNumber;
    assert forall j :: 0 <= j < n ==> d.games[j] in db.games;
    var r := GetGameId(d, gameNumber);
    var h :| h in d.games && h.gameNumber == gameNumber && h.gameId == r.value;
    var s := GetSeasonIdByGameNumber(d, gameNumber);
    if s.Ok? {
      var g :| g in d.games && g.gameNumber == gameNumber && g.season == Some(s.value);
    }
  }

  /** Nothing stops a second game with the same number, after which the
      number resolves neither to an id nor to a season. */
  lemma CreateGameTwiceAmbiguous(db: Db, seasonName: string, gameNumber: int, otherSeason: string)
    requires CreateGame(db, seasonName, gameNumber).Ok?
    requires CreateGame(CreateGame(db, seasonName, gameNumber).value, otherSeason, gameNumber).Ok?
    ensures var d := CreateGame(CreateGame(db, seasonName, gameNumber).value, otherSeason, gameNumber).value;
      GetGameId(d, gameNumber) == Err(IncorrectResultSize) &&
      GetSeasonIdByGameNumber(d, gameNumber) == Err(IncorrectResultSize)
  {
    var d := CreateGame(CreateGame(db, seasonName, gameNumber).value, otherSeason, gameNumber).value;
    var n := |db.games|;
    assert d.games[n].gameNumber == gameNumber && d.games[n + 1].gameNumber == gameNumber;
  }

  /** A delete that the warning would have allowed keeps every reference
      resolvable. */
  lemma DeleteUnreferencedKeepsForeignKeys(db: Db, id: Id)
    requires ForeignKeysHold(db)
    requires GetReferencedWarning(db, id) == Ok(None)
    ensures ForeignKeysHold(Delete(db, id))
  {
    var d := Delete(db, id);
    forall b | b in d.buyIns
      ensures Resolves(b.game, GameIds(d))
    {
      assert Resolves(b.game, GameIds(db)) && b.game != Some(id);
    }
    forall g | g in d.results
      ensures Resolves(g.game, GameIds(d))
    {
      assert Resolves(g.game, GameIds(db)) && g.game != Some(id);
    }
    forall q | q in d.participations
      ensures Resolves(q.game, GameIds(d))
    {
      assert Resolves(q.game, GameIds(db)) && q.game != Some(id);
    }
    forall g | g in d.games
      ensures Resolves(g.season, SeasonIds(d))
    {
      assert g in db.games;
    }
  }

  /** `delete` does not consult the warning: deleting a referenced game
      leaves the blocking buy-in, result or participation pointing at no
      game. */
  lemma DeleteIgnoresWarning(db: Db, id: Id, w: ReferencedWarning)
    requires GetReferencedWarning(db, id) == Ok(Some(w))
    ensures id !in GameIds(Delete(db, id))
    ensures !ForeignKeysHold(Delete(db, id))
  {
    var d := Delete(db, id);
    if w.key == BuyInReferencedKey {
      var i :| 0 <= i < |db.buyIns| && db.buyIns[i].game == Some(id) &&
        w == ReferencedWarning(BuyInReferencedKey, [db.buyIns[i].gameBuyInId]);
      assert db.buyIns[i] in d.buyIns && !Resolves(db.buyIns[i].game, GameIds(d));
    } else if w.key == ResultReferencedKey {
      var i :| 0 <= i < |db.results| && db.results[i].game == Some(id) &&
        w == ReferencedWarning(ResultReferencedKey, [db.results[i].gameResultId]);
      assert db.results[i] in d.results && !Resolves(db.results[i].game, GameIds(d));
    } else {
      var i :| 0 <= i < |db.participations| && db.participations[i].game == Some(id) &&
        w == ReferencedWarning(ParticipationReferencedKey, [db.participations[i].participationId]);
      assert db.participations[i] in d.participations && !Resolves(db.participations[i].game, GameIds(d));
    }
  }
}

/** `GameService`'s methods against the live store. */
module GameService {
  import opened Domain
  import opened Store
  import Repos
  import Games
  import Seasons

  method Create(store: Database, dto: GameDTO) returns (r: Result<Id>)
    requires store.Valid()
    modifies store
    ensures store.Valid()
    ensures Performs(Games.Create(old(store.Snapshot()), dto), old(store.Snapshot()), store.Snapshot(), r)
  {
    var mapped := Games.MapToEntity(store.Snapshot(), dto, Games.NewGame);
    if mapped.Err? {
      return Err(mapped.error);
    }
    var id := store.SaveNewGame(mapped.value);
    r := Ok(id);
  }

  method Update(store: Database, id: Id, dto: GameDTO) returns (r: Result<()>)
    requires store.Valid()
    modifies store
    ensures store.Valid()
    ensures Applies(Games.Update(old(store.Snapshot()), id, dto), old(store.Snapshot()), store.Snapshot(), r)
  {
    var found := Repos.FindGameById(store.games, id);
    if found.None? {
      return Err(NotFound(""));
    }
    var mapped := Games.MapToEntity(store.Snapshot(), dto, found.value);
    if mapped.Err? {
      return Err(mapped.error);
    }
    store.SaveGame(mapped.value);
    r := Ok(());
  }

  method Delete(store: Database, id: Id)
    requires store.Valid()
    modifies store
    ensures store.Valid()
    ensures store.Snapshot() == Games.Delete(old(store.Snapshot()), id)
  {
    store.DeleteGameById(id);
  }

  /** Fills the DTO one field at a time, as the service does, then creates. */
  method CreateGame(store: Database, seasonName: string, gameNumber: int) returns (r: Result<()>)
    requires store.Valid()
    modifies store
    ensures store.Valid()
    ensures Applies(Games.CreateGame(old(store.Snapshot()), seasonName, gameNumber), old(store.Snapshot()),
                    store.Snapshot(), r)
  {
    var dto := GameDTO(None, 0, None, None, None, None);
    var seasonId := Seasons.GetSeasonIdByName(store.Snapshot(), seasonName);
    if seasonId.Err? {
      return Err(seasonId.error);
    }
    dto := dto.(season := Some(seasonId.value));
    dto := dto.(gameNumber := gameNumber);
    var created := Create(store, dto);
    r := if created.Ok? then Ok(()) else Err(created.error);
  }
}
