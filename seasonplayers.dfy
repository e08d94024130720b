/** `SeasonPlayerService` as store transitions: a player's money account in
    one season. */
module SeasonPlayers {
  import opened Domain
  import opened Store
  import Repos
  import Players
  import Seasons

  const BuyInReferencedKey := "seasonPlayer.gameBuyIn.seasonPlayer.referenced"
  const ResultReferencedKey := "seasonPlayer.gameResult.seasonPlayer.referenced"
  const ParticipationReferencedKey := "seasonPlayer.playerParticipation.seasonPlayer.referenced"

  const NewSeasonPlayer: SeasonPlayer := SeasonPlayer(Unsaved, 0, 0, 0, None, None)

  function MapToDTO(a: SeasonPlayer): SeasonPlayerDTO
  {
    SeasonPlayerDTO(Some(a.seasonPlayerId), a.allocatedPotSize, a.minBuyIn, a.currentPotSize, a.season, a.player)
  }

  /** Writes the three amounts and both references of the DTO onto the
      entity; a reference that names no row fails, the season first. */
  function MapToEntity(db: Db, dto: SeasonPlayerDTO, a: SeasonPlayer): (r: Result<SeasonPlayer>)
    ensures r.Ok? <==> Resolves(dto.season, SeasonIds(db)) && Resolves(dto.player, PlayerIds(db))
    ensures !Resolves(dto.season, SeasonIds(db)) ==> r == Err(NotFound("season not found"))
    ensures Resolves(dto.season, SeasonIds(db)) && !Resolves(dto.player, PlayerIds(db)) ==>
      r == Err(NotFound("player not found"))
    ensures r.Ok? ==> r.value.seasonPlayerId == a.seasonPlayerId
    ensures r.Ok? ==> MapToDTO(r.value) == dto.(seasonPlayerId := Some(a.seasonPlayerId))
  {
    var season :- match dto.season
      case None => Ok(None)
      case Some(sid) =>
        match Repos.FindSeasonById(db.seasons, sid)
        case None => Err(NotFound("season not found"))
        case Some(s) => Ok(Some(s.seasonId));
    var player :- match dto.player
      case None => Ok(None)
      case Some(pid) =>
        match Repos.FindPlayerById(db.players, pid)
        case None => Err(NotFound("player not found"))
        case Some(p) => Ok(Some(p.playerId));
    Ok(a.(allocatedPotSize := dto.allocatedPotSize, minBuyIn := dto.minBuyIn,
          currentPotSize := dto.currentPotSize, season := season, player := player))
  }

  function Get(db: Db, id: Id): (r: Result<SeasonPlayerDTO>)
    ensures r.Ok? <==> id in AccountIds(db)
    ensures r.Ok? ==> exists a :: a in db.seasonPlayers && a.seasonPlayerId == id && r.value == MapToDTO(a)
    ensures r.Err? ==> r.error == NotFound("")
  {
    match Repos.FindSeasonPlayerById(db.seasonPlayers, id)
    case None => Err(NotFound(""))
    case Some(a) => Ok(MapToDTO(a))
  }

  /** `create`: fails as `mapToEntity` does, before anything is saved. */
  function Create(db: Db, dto: SeasonPlayerDTO): (r: Result<(Db, Id)>)
    ensures r.Ok? <==> Resolves(dto.season, SeasonIds(db)) && Resolves(dto.player, PlayerIds(db))
    ensures r.Err? ==> r.error == MapToEntity(db, dto, NewSeasonPlayer).error
    ensures r.Ok? ==>
      r.value.1 == db.nextId &&
      r.value.0 == db.(seasonPlayers := r.value.0.seasonPlayers, nextId := db.nextId + 1) &&
      |r.value.0.seasonPlayers| == |db.seasonPlayers| + 1 &&
      r.value.0.seasonPlayers[..|db.seasonPlayers|] == db.seasonPlayers &&
      MapToDTO(r.value.0.seasonPlayers[|db.seasonPlayers|]) == dto.(seasonPlayerId := Some(db.nextId))
    ensures r.Ok? && ValidKeys(db) ==>
      ValidKeys(r.value.0) && Get(r.value.0, r.value.1) == Ok(dto.(seasonPlayerId := Some(r.value.1)))
  {
    var a :- MapToEntity(db, dto, NewSeasonPlayer);
    var (d, id) := InsertSeasonPlayer(db, a);
    assert d.seasonPlayers[..|db.seasonPlayers|] == db.seasonPlayers;
    Ok((d, id))
  }

  /** `update`: an unknown id fails first, then an unresolvable reference;
      otherwise all three amounts and both references are replaced. */
  function Update(db: Db, id: Id, dto: SeasonPlayerDTO): (r: Result<Db>)
    ensures id !in AccountIds(db) ==> r == Err(NotFound(""))
    ensures id in AccountIds(db) ==>
      (r.Ok? <==> Resolves(dto.season, SeasonIds(db)) && Resolves(dto.player, PlayerIds(db)))
    ensures id in AccountIds(db) && r.Err? ==> r.error == MapToEntity(db, dto, NewSeasonPlayer).error
    ensures r.Ok? ==> r.value == db.(seasonPlayers := r.value.seasonPlayers)
    ensures r.Ok? ==>
      |r.value.seasonPlayers| == |db.seasonPlayers| &&
      forall i :: 0 <= i < |db.seasonPlayers| ==>
        r.value.seasonPlayers[i] ==
          if db.seasonPlayers[i].seasonPlayerId == id
          then SeasonPlayer(id, dto.allocatedPotSize, dto.minBuyIn, dto.currentPotSize, dto.season, dto.player)
          else db.seasonPlayers[i]
    ensures r.Ok? ==> Get(r.value, id) == Ok(dto.(seasonPlayerId := Some(id)))
  {
    match Repos.FindSeasonPlayerById(db.seasonPlayers, id)
    case None => Err(NotFound(""))
    case Some(a) =>
      var updated :- MapToEntity(db, dto, a);
      Ok(MergeSeasonPlayer(db, updated))
  }

  /** `delete`: `deleteById` with no reference check; an unknown id changes nothing. */
  function Delete(db: Db, id: Id): (r: Db)
    ensures r == db.(seasonPlayers := r.seasonPlayers)
    ensures forall a | a in r.seasonPlayers :: a in db.seasonPlayers && a.seasonPlayerId != id
    ensures forall a | a in db.seasonPlayers && a.seasonPlayerId != id :: a in r.seasonPlayers
    ensures AccountIds(r) == AccountIds(db) - {id}
    ensures Get(r, id) == Err(NotFound(""))
  {
    DeleteSeasonPlayer(db, id)
  }

  /** The account of the player with that name in the season with that id,
      resolved in that order; each stage that finds nothing has its own
      message. */
  function GetSeasonPlayerIdByPlayerNameAndSeasonId(db: Db, playerName: string, seasonId: Id): (r: Result<Id>)
    ensures r.Ok? ==>
      exists a, p :: a in db.seasonPlayers && p in db.players && p.name == playerName &&
        a.player == Some(p.playerId) && a.season == Some(seasonId) && a.seasonPlayerId == r.value
    ensures Repos.FindPlayerByName(db.players, playerName).Err? ==> r == Err(IncorrectResultSize)
    ensures Repos.FindPlayerByName(db.players, playerName) == Ok(None) ==> r == Err(NotFound("Player not found"))
    ensures Repos.FindPlayerByName(db.players, playerName).Ok? ==>
      Repos.FindPlayerByName(db.players, playerName).value.Some? ==>
        (r == Err(NotFound("Season not found")) <==> seasonId !in SeasonIds(db))
    ensures Repos.FindPlayerByName(db.players, playerName).Ok? ==>
      Repos.FindPlayerByName(db.players, playerName).value.Some? ==>
        var p := Repos.FindPlayerByName(db.players, playerName).value.value;
        seasonId in SeasonIds(db) ==>
          (forall a | a in db.seasonPlayers :: !(a.player == Some(p.playerId) && a.season == Some(seasonId))) ==>
            r == Err(NotFound("Season player not found"))
    ensures r == Err(NotFound("Season player not found")) ==>
      seasonId in SeasonIds(db) &&
      exists p :: p in db.players && p.name == playerName &&
        forall a | a in db.seasonPlayers :: !(a.player == Some(p.playerId) && a.season == Some(seasonId))
    ensures r.Err? ==>
      r.error in {NotFound("Player not found"), NotFound("Season not found"), NotFound("Season player not found"),
                  IncorrectResultSize}
  {
    var player :- Repos.FindPlayerByName(db.players, playerName);
    if player.None? then Err(NotFound("Player not found"))
    else
      match Repos.FindSeasonById(db.seasons, seasonId)
      case None => Err(NotFound("Season not found"))
      case Some(season) =>
        var account :- Repos.FindSeasonPlayerByPlayerAndSeason(db.seasonPlayers, player.value.playerId, season.seasonId);
        if account.None? then Err(NotFound("Season player not found"))
        else Ok(account.value.seasonPlayerId)
  }

  /** The account `createSeasonPlayers` opens. */
  function OpeningAccount(id: Id, seasonId: Id, playerId: Id, minBuyIn: Cents, allocatedPotSize: Cents): SeasonPlayer
  {
    SeasonPlayer(id, allocatedPotSize, minBuyIn, allocatedPotSize, Some(seasonId), Some(playerId))
  }

  /** `createSeasonPlayers`: resolves the season by name, then gets or creates
      the player, then opens an account whose current pot starts at the
      allocated pot. An unresolvable season name fails before any row is
      added; no existing account for the pair is looked for. */
  function CreateSeasonPlayers(db: Db, seasonName: string, playerName: string, minBuyIn: Cents,
                               allocatedPotSize: Cents): (r: Result<Db>)
    ensures r.Err? <==> Seasons.GetSeasonIdByName(db, seasonName).Err?
    ensures r.Err? ==> r.error == Seasons.GetSeasonIdByName(db, seasonName).error
    ensures r.Ok? ==>
      var (d1, playerId) := Players.GetOrCreatePlayerIdByName(db, playerName);
      r.value == d1.(seasonPlayers := d1.seasonPlayers + [OpeningAccount(d1.nextId,
                       Seasons.GetSeasonIdByName(db, seasonName).value, playerId, minBuyIn, allocatedPotSize)],
                     nextId := d1.nextId + 1)
  {
    var seasonId :- Seasons.GetSeasonIdByName(db, seasonName);
    var (d1, playerId) := Players.GetOrCreatePlayerIdByName(db, playerName);
    assert playerId in PlayerIds(d1);
    match Create(d1, SeasonPlayerDTO(None, allocatedPotSize, minBuyIn, allocatedPotSize, Some(seasonId),
                                     Some(playerId)))
    case Ok(c) => Ok(c.0)
    case Err(e) => Err(e)
  }

  /** Buy-ins that charge the account are looked at first, then results,
      then participations. */
  function GetReferencedWarning(db: Db, id: Id): (r: Result<Option<ReferencedWarning>>)
    ensures r.Err? <==> id !in AccountIds(db)
    ensures r.Err? ==> r.error == NotFound("")
    ensures r == Ok(None) <==>
      id in AccountIds(db) &&
      (forall b | b in db.buyIns :: b.seasonPlayer != Some(id)) &&
      (forall g | g in db.results :: g.seasonPlayer != Some(id)) &&
      (forall q | q in db.participations :: q.seasonPlayer != Some(id))
    ensures r.Ok? && r.value.Some? ==>
      (exists i :: 0 <= i < |db.buyIns| && db.buyIns[i].seasonPlayer == Some(id) &&
        (forall j :: 0 <= j < i ==> db.buyIns[j].seasonPlayer != Some(id)) &&
        r.value.value == ReferencedWarning(BuyInReferencedKey, [db.buyIns[i].gameBuyInId]))
      ||
      ((forall b | b in db.buyIns :: b.seasonPlayer != Some(id)) &&
       exists i :: 0 <= i < |db.results| && db.results[i].seasonPlayer == Some(id) &&
        (forall j :: 0 <= j < i ==> db.results[j].seasonPlayer != Some(id)) &&
        r.value.value == ReferencedWarning(ResultReferencedKey, [db.results[i].gameResultId]))
      ||
      ((forall b | b in db.buyIns :: b.seasonPlayer != Some(id)) &&
       (forall g | g in db.results :: g.seasonPlayer != Some(id)) &&
       exists i :: 0 <= i < |db.participations| && db.participations[i].seasonPlayer == Some(id) &&
        (forall j :: 0 <= j < i ==> db.participations[j].seasonPlayer != Some(id)) &&
        r.value.value == ReferencedWarning(ParticipationReferencedKey, [db.participations[i].participationId]))
  {
    match Repos.FindSeasonPlayerById(db.seasonPlayers, id)
    case None => Err(NotFound(""))
    case Some(a) =>
      match Repos.FindFirstBuyInBySeasonPlayer(db.buyIns, a.seasonPlayerId)
      case Some(b) => Ok(Some(ReferencedWarning(BuyInReferencedKey, [b.gameBuyInId])))
      case None =>
        match Repos.FindFirstResultBySeasonPlayer(db.results, a.seasonPlayerId)
        case Some(g) => Ok(Some(ReferencedWarning(ResultReferencedKey, [g.gameResultId])))
        case None =>
          match Repos.FindFirstParticipationBySeasonPlayer(db.participations, a.seasonPlayerId)
          case Some(q) => Ok(Some(ReferencedWarning(ParticipationReferencedKey, [q.participationId])))
          case None => Ok(None)
  }

  // ------------------------------------------------------------------ lemmas

  /** The three stages of the lookup, each finding its one row. */
  lemma ResolveFound(db: Db, playerName: string, seasonId: Id, p: Player, a: SeasonPlayer)
    requires Repos.FindPlayerByName(db.players, playerName) == Ok(Some(p))
    requires seasonId in SeasonIds(db)
    requires Repos.FindSeasonPlayerByPlayerAndSeason(db.seasonPlayers, p.playerId, seasonId) == Ok(Some(a))
    ensures GetSeasonPlayerIdByPlayerNameAndSeasonId(db, playerName, seasonId) == Ok(a.seasonPlayerId)
  {
    assert Repos.FindSeasonById(db.seasons, seasonId).Some?;
  }

  /** Two accounts for the pair make the last stage ambiguous. */
  lemma ResolveAmbiguous(db: Db, playerName: string, seasonId: Id, p: Player, i: nat, j: nat)
    requires Repos.FindPlayerByName(db.players, playerName) == Ok(Some(p))
    requires seasonId in SeasonIds(db)
    requires i < j < |db.seasonPlayers|
    requires db.seasonPlayers[i].player == Some(p.playerId) && db.seasonPlayers[i].season == Some(seasonId)
    requires db.seasonPlayers[j].player == Some(p.playerId) && db.seasonPlayers[j].season == Some(seasonId)
    ensures GetSeasonPlayerIdByPlayerNameAndSeasonId(db, playerName, seasonId) == Err(IncorrectResultSize)
  {
    assert Repos.FindSeasonById(db.seasons, seasonId).Some?;
  }

  /** The opened account resolves, by the player's name and the season's id,
      when the player name was not shared and the season had no account yet. */
  lemma CreateSeasonPlayersThenResolve(db: Db, seasonName: string, playerName: string, minBuyIn: Cents,
                                       allocatedPotSize: Cents)
    requires CreateSeasonPlayers(db, seasonName, playerName, minBuyIn, allocatedPotSize).Ok?
    requires Repos.FindPlayerByName(db.players, playerName).Ok?
    requires forall a | a in db.seasonPlayers :: a.season != Some(Seasons.GetSeasonIdByName(db, seasonName).value)
    ensures var d := CreateSeasonPlayers(db, seasonName, playerName, minBuyIn, allocatedPotSize).value;
      GetSeasonPlayerIdByPlayerNameAndSeasonId(d, playerName, Seasons.GetSeasonIdByName(db, seasonName).value)
        == Ok(Players.GetOrCreatePlayerIdByName(db, playerName).0.nextId)
  {
    var seasonId := Seasons.GetSeasonIdByName(db, seasonName).value;
    var (d1, playerId) := Players.GetOrCreatePlayerIdByName(db, playerName);
    var d := CreateSeasonPlayers(db, seasonName, playerName, minBuyIn, allocatedPotSize).value;
    var a := OpeningAccount(d1.nextId, seasonId, playerId, minBuyIn, allocatedPotSize);
    assert d.seasonPlayers == d1.seasonPlayers + [a] && d.players == d1.players && d.seasons == db.seasons;
    var p := Players.GetOrCreateThenFindByName(db, playerName);
    assert seasonId in SeasonIds(d);
    Repos.FindSeasonPlayerByPlayerAndSeasonAppended(d1.seasonPlayers, a, playerId, seasonId);
    ResolveFound(d, playerName, seasonId, p, a);
  }

  /** What one successful call leaves behind: the player table as
      get-or-create left it, and one new account for the pair at the end. */
  lemma OpensAccount(db: Db, seasonName: string, playerName: string, minBuyIn: Cents, allocatedPotSize: Cents)
    returns (playerId: Id)
    requires CreateSeasonPlayers(db, seasonName, playerName, minBuyIn, allocatedPotSize).Ok?
    ensures playerId == Players.GetOrCreatePlayerIdByName(db, playerName).1
    ensures var d := CreateSeasonPlayers(db, seasonName, playerName, minBuyIn, allocatedPotSize).value;
      var n := |db.seasonPlayers|;
      d.seasons == db.seasons && d.players == Players.GetOrCreatePlayerIdByName(db, playerName).0.players &&
      (exists q :: q in d.players && q.name == playerName) &&
      |d.seasonPlayers| == n + 1 && d.seasonPlayers[..n] == db.seasonPlayers &&
      d.seasonPlayers[n].player == Some(playerId) &&
      d.seasonPlayers[n].season == Some(Seasons.GetSeasonIdByName(db, seasonName).value)
  {
    var e1: Db;
    e1, playerId := Players.GetOrCreatePlayerIdByName(db, playerName).0, Players.GetOrCreatePlayerIdByName(db, playerName).1;
    var d := CreateSeasonPlayers(db, seasonName, playerName, minBuyIn, allocatedPotSize).value;
    if forall q | q in db.players :: q.name != playerName {
      assert e1.players[|db.players|] in d.players;
    } else {
      var q :| q in db.players && q.name == playerName;
      assert q in d.players;
    }
    assert d.seasonPlayers[..|db.seasonPlayers|] == db.seasonPlayers;
  }

  /** Nothing stops a second account for the same player and season, after
      which the pair no longer resolves. */
  lemma CreateSeasonPlayersTwiceAmbiguous(db: Db, seasonName: string, playerName: string, minBuyIn: Cents,
                                          allocatedPotSize: Cents)
    requires CreateSeasonPlayers(db, seasonName, playerName, minBuyIn, allocatedPotSize).Ok?
    ensures var d1 := CreateSeasonPlayers(db, seasonName, playerName, minBuyIn, allocatedPotSize).value;
      var r2 := CreateSeasonPlayers(d1, seasonName, playerName, minBuyIn, allocatedPotSize);
      r2.Ok? && |r2.value.seasonPlayers| == |db.seasonPlayers| + 2 &&
      GetSeasonPlayerIdByPlayerNameAndSeasonId(r2.value, playerName, Seasons.GetSeasonIdByName(db, seasonName).value)
        == Err(IncorrectResultSize)
  {
    var seasonId := Seasons.GetSeasonIdByName(db, seasonName).value;
    var d1 := CreateSeasonPlayers(db, seasonName, playerName, minBuyIn, allocatedPotSize).value;
    var pid1 := OpensAccount(db, seasonName, playerName, minBuyIn, allocatedPotSize);
    assert Seasons.GetSeasonIdByName(d1, seasonName) == Seasons.GetSeasonIdByName(db, seasonName);
    var pid2 := OpensAccount(d1, seasonName, playerName, minBuyIn, allocatedPotSize);
    var d2 := CreateSeasonPlayers(d1, seasonName, playerName, minBuyIn, allocatedPotSize).value;
    Players.GetOrCreateIdempotent(db, playerName);
    Players.GetOrCreateDependsOnPlayers(Players.GetOrCreatePlayerIdByName(db, playerName).0, d1, playerName);
    assert pid1 == pid2 && d2.players == d1.players;
    var n := |db.seasonPlayers|;
    assert d2.seasonPlayers[n] == d1.seasonPlayers[n];
    if Repos.FindPlayerByName(d2.players, playerName).Ok? {
      var p := Players.GetOrCreateThenFindByName(d1, playerName);
      assert seasonId in SeasonIds(d2);
      ResolveAmbiguous(d2, playerName, seasonId, p, n, n + 1);
    }
  }

  /** A delete that the warning would have allowed keeps every reference
      resolvable. */
  lemma DeleteUnreferencedKeepsForeignKeys(db: Db, id: Id)
    requires ForeignKeysHold(db)
    requires GetReferencedWarning(db, id) == Ok(None)
    ensures ForeignKeysHold(Delete(db, id))
  {
    var d := Delete(db, id);
    forall b | b in d.buyIns
      ensures Resolves(b.seasonPlayer, AccountIds(d))
    {
      assert Resolves(b.seasonPlayer, AccountIds(db)) && b.seasonPlayer != Some(id);
    }
    forall g | g in d.results
      ensures Resolves(g.seasonPlayer, AccountIds(d))
    {
      assert Resolves(g.seasonPlayer, AccountIds(db)) && g.seasonPlayer != Some(id);
    }
    forall q | q in d.participations
      ensures Resolves(q.seasonPlayer, AccountIds(d))
    {
      assert Resolves(q.seasonPlayer, AccountIds(db)) && q.seasonPlayer != Some(id);
    }
    forall a | a in d.seasonPlayers
      ensures Resolves(a.season, SeasonIds(d)) && Resolves(a.player, PlayerIds(d))
    {
      assert a in db.seasonPlayers;
    }
  }

  /** `delete` does not consult the warning: deleting a referenced account
      leaves the blocking buy-in, result or participation pointing at no
      account. */
  lemma DeleteIgnoresWarning(db: Db, id: Id, w: ReferencedWarning)
    requires GetReferencedWarning(db, id) == Ok(Some(w))
    ensures id !in AccountIds(Delete(db, id))
    ensures !ForeignKeysHold(Delete(db, id))
  {
    var d := Delete(db, id);
    if w.key == BuyInReferencedKey {
      var i :| 0 <= i < |db.buyIns| && db.buyIns[i].seasonPlayer == Some(id) &&
        w == ReferencedWarning(BuyInReferencedKey, [db.buyIns[i].gameBuyInId]);
      assert db.buyIns[i] in d.buyIns && !Resolves(db.buyIns[i].seasonPlayer, AccountIds(d));
    } else if w.key == ResultReferencedKey {
      var i :| 0 <= i < |db.results| && db.results[i].seasonPlayer == Some(id) &&
        w == ReferencedWarning(ResultReferencedKey, [db.results[i].gameResultId]);
      assert db.results[i] in d.results && !Resolves(db.results[i].seasonPlayer, AccountIds(d));
    } else {
      var i :| 0 <= i < |db.participations| && db.participations[i].seasonPlayer == Some(id) &&
        w == ReferencedWarning(ParticipationReferencedKey, [db.participations[i].participationId]);
      assert db.participations[i] in d.participations &&
        !Resolves(db.participations[i].seasonPlayer, AccountIds(d));
    }
  }
}

/** `SeasonPlayerService`'s methods against the live store. */
module SeasonPlayerService {
  import opened Domain
  import opened Store
  import Repos
  import SeasonPlayers
  import Seasons
  import PlayerService

  method Create(store: Database, dto: SeasonPlayerDTO) returns (r: Result<Id>)
    requires store.Valid()
    modifies store
    ensures store.Valid()
    ensures Performs(SeasonPlayers.Create(old(store.Snapshot()), dto), old(store.Snapshot()), store.Snapshot(), r)
  {
    var mapped := SeasonPlayers.MapToEntity(store.Snapshot(), dto, SeasonPlayers.NewSeasonPlayer);
    if mapped.Err? {
      return Err(mapped.error);
    }
    var id := store.SaveNewSeasonPlayer(mapped.value);
    r := Ok(id);
  }

  method Update(store: Database, id: Id, dto: SeasonPlayerDTO) returns (r: Result<()>)
    requires store.Valid()
    modifies store
    ensures store.Valid()
    ensures Applies(SeasonPlayers.Update(old(store.Snapshot()), id, dto), old(store.Snapshot()), store.Snapshot(), r)
  {
    var found := Repos.FindSeasonPlayerById(store.seasonPlayers, id);
    if found.None? {
      return Err(NotFound(""));
    }
    var mapped := SeasonPlayers.MapToEntity(store.Snapshot(), dto, found.value);
    if mapped.Err? {
      return Err(mapped.error);
    }
    store.SaveSeasonPlayer(mapped.value);
    r := Ok(());
  }

  method Delete(store: Database, id: Id)
    requires store.Valid()
    modifies store
    ensures store.Valid()
    ensures store.Snapshot() == SeasonPlayers.Delete(old(store.Snapshot()), id)
  {
    store.DeleteSeasonPlayerById(id);
  }

  /** Fills the DTO one field at a time, as the service does, then creates. */
  method CreateSeasonPlayers(store: Database, seasonName: string, playerName: string, minBuyIn: Cents,
                             allocatedPotSize: Cents) returns (r: Result<()>)
    requires store.Valid()
    modifies store
    ensures store.Valid()
    ensures Applies(SeasonPlayers.CreateSeasonPlayers(old(store.Snapshot()), seasonName, playerName, minBuyIn,
                                                      allocatedPotSize),
                    old(store.Snapshot()), store.Snapshot(), r)
  {
    var dto := SeasonPlayerDTO(None, 0, 0, 0, None, None);
    var seasonId := Seasons.GetSeasonIdByName(store.Snapshot(), seasonName);
    if seasonId.Err? {
      return Err(seasonId.error);
    }
    dto := dto.(season := Some(seasonId.value));
    var playerId := PlayerService.GetOrCreatePlayerIdByName(store, playerName);
    dto := dto.(player := Some(playerId));
    dto := dto.(minBuyIn := minBuyIn);
    dto := dto.(allocatedPotSize := allocatedPotSize);
    dto := dto.(currentPotSize := allocatedPotSize);
    var created := Create(store, dto);
    r := if created.Ok? then Ok(()) else Err(created.error);
  }
}
