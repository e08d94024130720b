/** `PokerSeasonImpl`: opens a season starting today. */
module PokerSeasonImpl {
  import opened Domain
  import opened Store
  import Seasons
  import SeasonService

  /** `today` stands for `LocalDate.now()`. */
  method CreateSeason(store: Database, seasonName: string, today: Day)
    requires store.Valid()
    modifies store
    ensures store.Valid()
    ensures store.Snapshot() == Seasons.CreateSeason(old(store.Snapshot()), seasonName, today)
  {
    var dto := SeasonDTO(None, "", None, None, None);
    dto := dto.(name := seasonName);
    dto := dto.(startDate := Some(today));
    var _ := SeasonService.Create(store, dto);
  }
}

/** `PokerSeasonPlayerImpl`: enrols a player, created on first use, in a
    season. */
module PokerSeasonPlayerImpl {
  import opened Domain
  import opened Store
  import Seasons
  import SeasonPlayers
  import PlayerService
  import SeasonPlayerService

  /** The same transition as the service's `createSeasonPlayers`; the guard
      against a null player id never fires, since get-or-create always
      returns one. */
  method CreateSeasonPlayers(store: Database, seasonName: string, playerName: string, minBuyIn: Cents,
                             allocatedPotSize: Cents) returns (r: Result<()>)
    requires store.Valid()
    modifies store
    ensures store.Valid()
    ensures Applies(SeasonPlayers.CreateSeasonPlayers(old(store.Snapshot()), seasonName, playerName, minBuyIn,
                                                      allocatedPotSize),
                    old(store.Snapshot()), store.Snapshot(), r)
  {
    var dto := SeasonPlayerDTO(None, 0, 0, 0, None, None);
    var seasonId := Seasons.GetSeasonIdByName(store.Snapshot(), seasonName);
    if seasonId.Err? {
      return Err(seasonId.error);
    }
    dto := dto.(season := Some(seasonId.value));
    var created := PlayerService.GetOrCreatePlayerIdByName(store, playerName);
    var playerId: Option<Id> := Some(created);
    if playerId.None? {
      return Err(IllegalState("Player ID is null for player: " + playerName));
    }
    dto := dto.(player := Some(playerId.value));
    dto := dto.(minBuyIn := minBuyIn);
    dto := dto.(allocatedPotSize := allocatedPotSize);
    dto := dto.(currentPotSize := allocatedPotSize);
    var id := SeasonPlayerService.Create(store, dto);
    r := if id.Ok? then Ok(()) else Err(id.error);
  }
}

/** `PokerGamesImpl`: adds a numbered game to a season. */
module PokerGamesImpl {
  import opened Domain
  import opened Store
  import Seasons
  import Games
  import GameService

  method CreateGame(store: Database, seasonName: string, gameNumber: int) returns (r: Result<()>)
    requires store.Valid()
    modifies store
    ensures store.Valid()
    ensures Applies(Games.CreateGame(old(store.Snapshot()), seasonName, gameNumber), old(store.Snapshot()),
                    store.Snapshot(), r)
  {
    var dto := GameDTO(None, 0, None, None, None, None);
    var seasonId := Seasons.GetSeasonIdByName(store.Snapshot(), seasonName);
    if seasonId.Err? {
      return Err(seasonId.error);
    }
    dto := dto.(season := Some(seasonId.value));
    dto := dto.(gameNumber := gameNumber);
    var id := GameService.Create(store, dto);
    r := if id.Ok? then Ok(()) else Err(id.error);
  }
}

/** `GameBuyInImpl`: records a player's buy-in for a game. */
module GameBuyInImpl {
  import opened Domain
  import opened Store
  import Games
  import SeasonPlayers
  import GameBuyIns
  import GameBuyInService

  method CreateGameBuyIn(store: Database, gameNumber: int, playerName: string, amount: Cents)
    returns (r: Result<()>)
    requires store.Valid()
    modifies store
    ensures store.Valid()
    ensures Applies(GameBuyIns.CreateGameBuyIn(old(store.Snapshot()), gameNumber, playerName, amount),
                    old(store.Snapshot()), store.Snapshot(), r)
  {
    var dto := GameBuyInDTO(None, 0, None, None);
    var gameId := Games.GetGameId(store.Snapshot(), gameNumber);
    if gameId.Err? {
      return Err(gameId.error);
    }
    dto := dto.(game := Some(gameId.value));
    var seasonId := Games.GetSeasonIdByGameNumber(store.Snapshot(), gameNumber);
    if seasonId.Err? {
      return Err(seasonId.error);
    }
    var accountId := SeasonPlayers.GetSeasonPlayerIdByPlayerNameAndSeasonId(store.Snapshot(), playerName,
                                                                            seasonId.value);
    if accountId.Err? {
      return Err(accountId.error);
    }
    dto := dto.(seasonPlayer := Some(accountId.value));
    dto := dto.(buyInAmount := amount);
    var id := GameBuyInService.Create(store, dto);
    r := if id.Ok? then Ok(()) else Err(id.error);
  }
}

/** `GameResultsImpl`: records a player's winnings for a game. */
module GameResultsImpl {
  import opened Domain
  import opened Store
  import Games
  import SeasonPlayers
  import GameResults
  import GameResultService

  method CreateGameResult(store: Database, gameNumber: int, playerName: string, winnings: Cents)
    returns (r: Result<()>)
    requires store.Valid()
    modifies store
    ensures store.Valid()
    ensures Applies(GameResults.CreateGameResult(old(store.Snapshot()), gameNumber, playerName, winnings),
                    old(store.Snapshot()), store.Snapshot(), r)
  {
    var dto := GameResultDTO(None, 0, None, None);
    var gameId := Games.GetGameId(store.Snapshot(), gameNumber);
    if gameId.Err? {
      return Err(gameId.error);
    }
    dto := dto.(game := Some(gameId.value));
    var seasonId := Games.GetSeasonIdByGameNumber(store.Snapshot(), gameNumber);
    if seasonId.Err? {
      return Err(seasonId.error);
    }
    var accountId := SeasonPlayers.GetSeasonPlayerIdByPlayerNameAndSeasonId(store.Snapshot(), playerName,
                                                                            seasonId.value);
    if accountId.Err? {
      return Err(accountId.error);
    }
    dto := dto.(seasonPlayer := Some(accountId.value));
    dto := dto.(winnings := winnings);
    var id := GameResultService.Create(store, dto);
    r := if id.Ok? then Ok(()) else Err(id.error);
  }
}

/** `PokerPlayerParticipationImpl`: records whether a player took part in a
    game, through the service's `create` but without the service's outer
    wrapping of lookup failures. */
module PokerPlayerParticipationImpl {
  import opened Domain
  import opened Store
  import Games
  import SeasonPlayers
  import Participations
  import PlayerParticipationService

  /** The transition this class performs: the service's lookups in the
      service's order, their failures passed on as they are. */
  function CreateOutcome(db: Db, playerName: string, choice: Participation, gameNumber: int)
    : (r: Result<Db>)
    ensures r.Ok? ==> r == Participations.CreatePlayerParticipation(db, playerName, choice, gameNumber)
    ensures r.Err? ==>
      Participations.CreatePlayerParticipation(db, playerName, choice, gameNumber) ==
        Err(Wrapped(Participations.CreateForPlayerFailed(playerName, gameNumber), r.error))
    ensures r.Err? ==> !r.error.Wrapped?
  {
    Participations.ResolveErrors(db, gameNumber, playerName);
    match Participations.ResolveAccountAndGame(db, gameNumber, playerName)
    case Err(e) => Err(e)
    case Ok((gameId, accountId)) =>
      match Participations.Create(db, PlayerParticipationDTO(None, choice == YES, None, Some(gameId),
                                                             Some(accountId)))
      case Ok(c) => Ok(c.0)
      case Err(e) => Err(e)
  }

  method CreatePlayerParticipation(store: Database, playerName: string, choice: Participation, gameNumber: int)
    returns (r: Result<()>)
    requires store.Valid()
    modifies store
    ensures store.Valid()
    ensures Applies(CreateOutcome(old(store.Snapshot()), playerName, choice, gameNumber),
                    old(store.Snapshot()), store.Snapshot(), r)
  {
    var dto := PlayerParticipationDTO(None, false, None, None, None);
    var seasonId := Games.GetSeasonIdByGameNumber(store.Snapshot(), gameNumber);
    if seasonId.Err? {
      return Err(seasonId.error);
    }
    var accountId := SeasonPlayers.GetSeasonPlayerIdByPlayerNameAndSeasonId(store.Snapshot(), playerName,
                                                                            seasonId.value);
    if accountId.Err? {
      return Err(accountId.error);
    }
    dto := dto.(seasonPlayer := Some(accountId.value));
    var gameId := Games.GetGameId(store.Snapshot(), gameNumber);
    if gameId.Err? {
      return Err(gameId.error);
    }
    dto := dto.(game := Some(gameId.value));
    dto := dto.(participated := choice == YES);
    var id := PlayerParticipationService.Create(store, dto);
    r := if id.Ok? then Ok(()) else Err(id.error);
  }
}
