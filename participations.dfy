/** `PlayerParticipationService` as store transitions: whether a player took
    part in one game. Unlike the other services, every failure reaches the
    caller wrapped in a message of this service's own. */
module Participations {
  import opened Domain
  import opened Store
  import Repos
  import Games
  import SeasonPlayers

  const NewParticipation: PlayerParticipation := PlayerParticipation(Unsaved, false, None, None, None)

  const CreateFailed := "Failed to create player participation"

  function NotFoundMessage(id: Id): string
  {
    "Player participation not found with id: " + IntToString(id)
  }

  function GetFailed(id: Id): string
  {
    "Failed to retrieve player participation with id: " + IntToString(id)
  }

  function UpdateFailed(id: Id): string
  {
    "Failed to update player participation with id: " + IntToString(id)
  }

  function CreateForPlayerFailed(playerName: string, gameNumber: int): string
  {
    "Failed to create player participation for player: " + playerName + ", game number: " + IntToString(gameNumber)
  }

  function MapToDTO(q: PlayerParticipation): PlayerParticipationDTO
  {
    PlayerParticipationDTO(Some(q.participationId), q.participated, q.participationTime, q.game, q.seasonPlayer)
  }

  /** Writes the flag, the time and both references of the DTO onto the
      entity; a reference that names no row fails with its id in the
      message, the game first. */
  function MapToEntity(db: Db, dto: PlayerParticipationDTO, q: PlayerParticipation): (r: Result<PlayerParticipation>)
    ensures r.Ok? <==> Resolves(dto.game, GameIds(db)) && Resolves(dto.seasonPlayer, AccountIds(db))
    ensures !Resolves(dto.game, GameIds(db)) ==>
      r == Err(NotFound("Game not found with id: " + IntToString(dto.game.value)))
    ensures Resolves(dto.game, GameIds(db)) && !Resolves(dto.seasonPlayer, AccountIds(db)) ==>
      r == Err(NotFound("Season player not found with id: " + IntToString(dto.seasonPlayer.value)))
    ensures r.Ok? ==> r.value.participationId == q.participationId
    ensures r.Ok? ==> MapToDTO(r.value) == dto.(participationId := Some(q.participationId))
  {
    var game :- match dto.game
      case None => Ok(None)
      case Some(gid) =>
        match Repos.FindGameById(db.games, gid)
        case None => Err(NotFound("Game not found with id: " + IntToString(gid)))
        case Some(g) => Ok(Some(g.gameId));
    var account :- match dto.seasonPlayer
      case None => Ok(None)
      case Some(aid) =>
        match Repos.FindSeasonPlayerById(db.seasonPlayers, aid)
        case None => Err(NotFound("Season player not found with id: " + IntToString(aid)))
        case Some(a) => Ok(Some(a.seasonPlayerId));
    Ok(q.(participated := dto.participated, participationTime := dto.participationTime, game := game,
          seasonPlayer := account))
  }

  function Get(db: Db, id: Id): (r: Result<PlayerParticipationDTO>)
    ensures r.Ok? <==> id in ParticipationIds(db)
    ensures r.Ok? ==> exists q :: q in db.participations && q.participationId == id && r.value == MapToDTO(q)
    ensures r.Err? ==> r.error == Wrapped(GetFailed(id), NotFound(NotFoundMessage(id)))
  {
    match Repos.FindParticipationById(db.participations, id)
    case None => Err(Wrapped(GetFailed(id), NotFound(NotFoundMessage(id))))
    case Some(q) => Ok(MapToDTO(q))
  }

  /** `create`: fails as `mapToEntity` does, wrapped, before anything is saved. */
  function Create(db: Db, dto: PlayerParticipationDTO): (r: Result<(Db, Id)>)
    ensures r.Ok? <==> Resolves(dto.game, GameIds(db)) && Resolves(dto.seasonPlayer, AccountIds(db))
    ensures r.Err? ==> r.error == Wrapped(CreateFailed, MapToEntity(db, dto, NewParticipation).error)
    ensures r.Ok? ==>
      r.value.1 == db.nextId &&
      r.value.0 == db.(participations := db.participations +
                         [PlayerParticipation(db.nextId, dto.participated, dto.participationTime, dto.game,
                                              dto.seasonPlayer)],
                       nextId := db.nextId + 1)
    ensures r.Ok? && ValidKeys(db) ==>
      ValidKeys(r.value.0) && Get(r.value.0, r.value.1) == Ok(dto.(participationId := Some(r.value.1)))
  {
    match MapToEntity(db, dto, NewParticipation)
    case Err(e) => Err(Wrapped(CreateFailed, e))
    case Ok(q) =>
      var (d, id) := InsertParticipation(db, q);
      Ok((d, id))
  }

  /** `update`: an unknown id fails first, then an unresolvable reference,
      both wrapped in the same message; otherwise every field but the id is
      replaced. */
  function Update(db: Db, id: Id, dto: PlayerParticipationDTO): (r: Result<Db>)
    ensures id !in ParticipationIds(db) ==> r == Err(Wrapped(UpdateFailed(id), NotFound(NotFoundMessage(id))))
    ensures id in ParticipationIds(db) ==>
      (r.Ok? <==> Resolves(dto.game, GameIds(db)) && Resolves(dto.seasonPlayer, AccountIds(db)))
    ensures id in ParticipationIds(db) && r.Err? ==>
      r.error == Wrapped(UpdateFailed(id), MapToEntity(db, dto, NewParticipation).error)
    ensures r.Ok? ==> r.value == db.(participations := r.value.participations)
    ensures r.Ok? ==>
      |r.value.participations| == |db.participations| &&
      forall i :: 0 <= i < |db.participations| ==>
        r.value.participations[i] ==
          if db.participations[i].participationId == id
          then PlayerParticipation(id, dto.participated, dto.participationTime, dto.game, dto.seasonPlayer)
          else db.participations[i]
    ensures r.Ok? ==> Get(r.value, id) == Ok(dto.(participationId := Some(id)))
  {
    match Repos.FindParticipationById(db.participations, id)
    case None => Err(Wrapped(UpdateFailed(id), NotFound(NotFoundMessage(id))))
    case Some(q) =>
      var mapped := MapToEntity(db, dto, q);
      if mapped.Err? then Err(Wrapped(UpdateFailed(id), mapped.error))
      else Ok(MergeParticipation(db, mapped.value))
  }

  /** `delete`: `deleteById`; an unknown id changes nothing, so the wrapping
      catch never runs. */
  function Delete(db: Db, id: Id): (r: Db)
    ensures r == db.(participations := r.participations)
    ensures forall q | q in r.participations :: q in db.participations && q.participationId != id
    ensures forall q | q in db.participations && q.participationId != id :: q in r.participations
    ensures ParticipationIds(r) == ParticipationIds(db) - {id}
    ensures Get(r, id).Err?
  {
    DeleteParticipation(db, id)
  }

  /** The lookups with which `createPlayerParticipation` begins, in its
      order: the season by game number, the named player's account in that
      season, then the game's id. The first that fails decides the error,
      which is not yet wrapped. The result is the pair (game, account). */
  function ResolveAccountAndGame(db: Db, gameNumber: int, playerName: string): (r: Result<(Id, Id)>)
    ensures Games.GetSeasonIdByGameNumber(db, gameNumber).Err? ==>
      r == Err(Games.GetSeasonIdByGameNumber(db, gameNumber).error)
    ensures Games.GetSeasonIdByGameNumber(db, gameNumber).Ok? ==>
      var account := SeasonPlayers.GetSeasonPlayerIdByPlayerNameAndSeasonId(
        db, playerName, Games.GetSeasonIdByGameNumber(db, gameNumber).value);
      (r.Err? <==> account.Err?) && (r.Err? ==> r.error == account.error)
    ensures r.Ok? ==> r.value.0 in GameIds(db) && r.value.1 in AccountIds(db)
  {
    var seasonId :- Games.GetSeasonIdByGameNumber(db, gameNumber);
    var accountId :- SeasonPlayers.GetSeasonPlayerIdByPlayerNameAndSeasonId(db, playerName, seasonId);
    Games.SeasonLookupAgreesWithIdLookup(db, gameNumber);
    match Games.GetGameId(db, gameNumber)
    case Ok(gameId) => Ok((gameId, accountId))
    case Err(e) => Err(e)
  }

  /** The participation `createPlayerParticipation` records. */
  function Recorded(id: Id, gameId: Id, accountId: Id, choice: Participation): PlayerParticipation
  {
    PlayerParticipation(id, choice == YES, None, Some(gameId), Some(accountId))
  }

  /** `createPlayerParticipation`: records whether the named player took part
      in the game with that number, with no time. Any failure comes back
      wrapped in one message naming the player and the game number. */
  function CreatePlayerParticipation(db: Db, playerName: string, choice: Participation, gameNumber: int)
    : (r: Result<Db>)
    ensures r.Err? <==> ResolveAccountAndGame(db, gameNumber, playerName).Err?
    ensures r.Err? ==>
      r.error == Wrapped(CreateForPlayerFailed(playerName, gameNumber),
                         ResolveAccountAndGame(db, gameNumber, playerName).error)
    ensures r.Ok? ==>
      var (gameId, accountId) := ResolveAccountAndGame(db, gameNumber, playerName).value;
      r.value == db.(participations := db.participations + [Recorded(db.nextId, gameId, accountId, choice)],
                     nextId := db.nextId + 1)
  {
    match ResolveAccountAndGame(db, gameNumber, playerName)
    case Err(e) => Err(Wrapped(CreateForPlayerFailed(playerName, gameNumber), e))
    case Ok((gameId, accountId)) =>
      match Create(db, PlayerParticipationDTO(None, choice == YES, None, Some(gameId), Some(accountId)))
      case Ok(c) => Ok(c.0)
      case Err(e) => Err(Wrapped(CreateForPlayerFailed(playerName, gameNumber), e))
  }

  // ------------------------------------------------------------------ lemmas

  /** Two different ids never share a not-found message. */
  lemma NotFoundMessageInjective(id1: Id, id2: Id)
    requires NotFoundMessage(id1) == NotFoundMessage(id2)
    ensures id1 == id2
  {
    var prefix := "Player participation not found with id: ";
    assert NotFoundMessage(id1)[|prefix|..] == IntToString(id1);
    assert NotFoundMessage(id2)[|prefix|..] == IntToString(id2);
    IntToStringInjective(id1, id2);
  }

  /** The order of the lookups decides only which error is reported: they
      succeed on the same inputs as those of `createGameBuyIn` and
      `createGameResult`, and find the same game and account. */
  lemma LookupOrderIrrelevantOnSuccess(db: Db, gameNumber: int, playerName: string)
    ensures ResolveAccountAndGame(db, gameNumber, playerName).Ok? <==>
            Games.ResolveGameAndAccount(db, gameNumber, playerName).Ok?
    ensures ResolveAccountAndGame(db, gameNumber, playerName).Ok? ==>
      ResolveAccountAndGame(db, gameNumber, playerName) == Games.ResolveGameAndAccount(db, gameNumber, playerName)
  {
    if Games.GetSeasonIdByGameNumber(db, gameNumber).Ok? {
      Games.SeasonLookupAgreesWithIdLookup(db, gameNumber);
    } else if Games.GetGameId(db, gameNumber).Ok? {
      assert Games.ResolveGameAndAccount(db, gameNumber, playerName).Err?;
    }
  }

  /** The season lookup runs first, so `getGameId`'s empty result never
      reaches the caller, while "Game not found" does. */
  lemma ResolveErrors(db: Db, gameNumber: int, playerName: string)
    ensures var r := ResolveAccountAndGame(db, gameNumber, playerName);
      r.Err? ==>
        r.error in {NotFound("Game not found"), IncorrectResultSize, NullReference, NotFound("Player not found"),
                    NotFound("Season not found"), NotFound("Season player not found")}
    ensures (forall g | g in db.games :: g.gameNumber != gameNumber) ==>
      ResolveAccountAndGame(db, gameNumber, playerName) == Err(NotFound("Game not found"))
  {
  }

  /** The recorded flag is true exactly for YES, the time is never set, and
      the row names the game with that number and the named player's account
      in that game's season. */
  lemma CreatePlayerParticipationRecords(db: Db, playerName: string, choice: Participation, gameNumber: int)
    requires CreatePlayerParticipation(db, playerName, choice, gameNumber).Ok?
    ensures var d := CreatePlayerParticipation(db, playerName, choice, gameNumber).value;
      var q := d.participations[|db.participations|];
      (q.participated <==> choice == YES) && q.participationTime.None? &&
      exists g, a, p ::
        g in db.games && q.game == Some(g.gameId) && g.gameNumber == gameNumber &&
        a in db.seasonPlayers && q.seasonPlayer == Some(a.seasonPlayerId) && a.season == g.season &&
        p in db.players && p.name == playerName && a.player == Some(p.playerId)
  {
    LookupOrderIrrelevantOnSuccess(db, gameNumber, playerName);
  }

  /** A recorded participation keeps every reference resolvable. */
  lemma CreatePlayerParticipationKeepsForeignKeys(db: Db, playerName: string, choice: Participation,
                                                  gameNumber: int)
    requires ForeignKeysHold(db)
    requires CreatePlayerParticipation(db, playerName, choice, gameNumber).Ok?
    ensures ForeignKeysHold(CreatePlayerParticipation(db, playerName, choice, gameNumber).value)
  {
    var d := CreatePlayerParticipation(db, playerName, choice, gameNumber).value;
    assert GameIds(d) == GameIds(db) && AccountIds(d) == AccountIds(db);
    forall q | q in d.participations
      ensures Resolves(q.game, GameIds(d)) && Resolves(q.seasonPlayer, AccountIds(d))
    {
      if q !in db.participations {
        assert q == d.participations[|db.participations|];
      }
    }
  }
}

/** `PlayerParticipationService`'s methods against the live store. */
module PlayerParticipationService {
  import opened Domain
  import opened Store
  import Repos
  import Games
  import SeasonPlayers
  import Participations

  method Create(store: Database, dto: PlayerParticipationDTO) returns (r: Result<Id>)
    requires store.Valid()
    modifies store
    ensures store.Valid()
    ensures Performs(Participations.Create(old(store.Snapshot()), dto), old(store.Snapshot()), store.Snapshot(), r)
  {
    var mapped := Participations.MapToEntity(store.Snapshot(), dto, Participations.NewParticipation);
    if mapped.Err? {
      return Err(Wrapped(Participations.CreateFailed, mapped.error));
    }
    var id := store.SaveNewParticipation(mapped.value);
    r := Ok(id);
  }

  method Update(store: Database, id: Id, dto: PlayerParticipationDTO) returns (r: Result<()>)
    requires store.Valid()
    modifies store
    ensures store.Valid()
    ensures Applies(Participations.Update(old(store.Snapshot()), id, dto), old(store.Snapshot()),
                    store.Snapshot(), r)
  {
    var found := Repos.FindParticipationById(store.participations, id);
    if found.None? {
      return Err(Wrapped(Participations.UpdateFailed(id), NotFound(Participations.NotFoundMessage(id))));
    }
    var mapped := Participations.MapToEntity(store.Snapshot(), dto, found.value);
    if mapped.Err? {
      return Err(Wrapped(Participations.UpdateFailed(id), mapped.error));
    }
    store.SaveParticipation(mapped.value);
    r := Ok(());
  }

  method Delete(store: Database, id: Id)
    requires store.Valid()
    modifies store
    ensures store.Valid()
    ensures store.Snapshot() == Participations.Delete(old(store.Snapshot()), id)
  {
    store.DeleteParticipationById(id);
  }

  /** Fills the DTO one field at a time, as the service does, then creates
      through its own `create`; any failure is wrapped once more. */
  method CreatePlayerParticipation(store: Database, playerName: string, choice: Participation, gameNumber: int)
    returns (r: Result<()>)
    requires store.Valid()
    modifies store
    ensures store.Valid()
    ensures Applies(Participations.CreatePlayerParticipation(old(store.Snapshot()), playerName, choice, gameNumber),
                    old(store.Snapshot()), store.Snapshot(), r)
  {
    var failed := Participations.CreateForPlayerFailed(playerName, gameNumber);
    var dto := PlayerParticipationDTO(None, false, None, None, None);
    var seasonId := Games.GetSeasonIdByGameNumber(store.Snapshot(), gameNumber);
    if seasonId.Err? {
      return Err(Wrapped(failed, seasonId.error));
    }
    var accountId := SeasonPlayers.GetSeasonPlayerIdByPlayerNameAndSeasonId(store.Snapshot(), playerName,
                                                                            seasonId.value);
    if accountId.Err? {
      return Err(Wrapped(failed, accountId.error));
    }
    dto := dto.(seasonPlayer := Some(accountId.value));
    var gameId := Games.GetGameId(store.Snapshot(), gameNumber);
    if gameId.Err? {
      return Err(Wrapped(failed, gameId.error));
    }
    dto := dto.(game := Some(gameId.value));
    dto := dto.(participated := choice == YES);
    var created := Create(store, dto);
    r := if created.Ok? then Ok(()) else Err(Wrapped(failed, created.error));
  }
}
