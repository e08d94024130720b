/** `SeasonService` as store transitions. */
module Seasons {
  import opened Domain
  import opened Store
  import Repos

  const SeasonPlayerReferencedKey := "season.seasonPlayer.season.referenced"
  const GameReferencedKey := "season.game.season.referenced"

  const NewSeason: Season := Season(Unsaved, "", None, None, None)

  function MapToDTO(s: Season): SeasonDTO
  {
    SeasonDTO(Some(s.seasonId), s.name, s.startDate, s.endDate, s.createdAt)
  }

  /** Writes every field of the DTO except the id onto the entity. */
  function MapToEntity(dto: SeasonDTO, s: Season): (r: Season)
    ensures r.seasonId == s.seasonId
    ensures MapToDTO(r) == dto.(seasonId := Some(s.seasonId))
  {
    s.(name := dto.name, startDate := dto.startDate, endDate := dto.endDate, createdAt := dto.createdAt)
  }

  function GetSeasonIdByName(db: Db, name: string): (r: Result<Id>)
    ensures r.Ok? ==> exists s :: s in db.seasons && s.name == name && s.seasonId == r.value
    ensures r == Err(EmptyResult) <==> forall s | s in db.seasons :: s.name != name
    ensures r == Err(IncorrectResultSize) <==>
      exists i, j :: 0 <= i < j < |db.seasons| && db.seasons[i].name == name && db.seasons[j].name == name
    ensures r.Err? ==> r.error == EmptyResult || r.error == IncorrectResultSize
  {
    Repos.FindSeasonIdByName(db.seasons, name)
  }

  function Get(db: Db, id: Id): (r: Result<SeasonDTO>)
    ensures r.Ok? <==> id in SeasonIds(db)
    ensures r.Ok? ==> exists s :: s in db.seasons && s.seasonId == id && r.value == MapToDTO(s)
    ensures r.Err? ==> r.error == NotFound("")
  {
    match Repos.FindSeasonById(db.seasons, id)
    case None => Err(NotFound(""))
    case Some(s) => Ok(MapToDTO(s))
  }

  /** `create`: the new row holds the DTO's fields under the next id of the sequence. */
  function Create(db: Db, dto: SeasonDTO): (r: (Db, Id))
    ensures r.1 == db.nextId
    ensures r.0 == db.(seasons := r.0.seasons, nextId := db.nextId + 1)
    ensures |r.0.seasons| == |db.seasons| + 1 && r.0.seasons[..|db.seasons|] == db.seasons
    ensures MapToDTO(r.0.seasons[|db.seasons|]) == dto.(seasonId := Some(r.1))
    ensures ValidKeys(db) ==> ValidKeys(r.0) && Get(r.0, r.1) == Ok(dto.(seasonId := Some(r.1)))
  {
    var (d, id) := InsertSeason(db, MapToEntity(dto, NewSeason));
    assert d.seasons[..|db.seasons|] == db.seasons;
    (d, id)
  }

  /** `update`: a full replace of the row's fields by the DTO's. */
  function Update(db: Db, id: Id, dto: SeasonDTO): (r: Result<Db>)
    ensures r.Ok? <==> id in SeasonIds(db)
    ensures r.Err? ==> r.error == NotFound("")
    ensures r.Ok? ==> r.value == db.(seasons := r.value.seasons)
    ensures r.Ok? ==>
      |r.value.seasons| == |db.seasons| &&
      forall i :: 0 <= i < |db.seasons| ==>
        r.value.seasons[i] ==
          if db.seasons[i].seasonId == id then Season(id, dto.name, dto.startDate, dto.endDate, dto.createdAt)
          else db.seasons[i]
    ensures r.Ok? ==> Get(r.value, id) == Ok(dto.(seasonId := Some(id)))
  {
    match Repos.FindSeasonById(db.seasons, id)
    case None => Err(NotFound(""))
    case Some(s) => Ok(MergeSeason(db, MapToEntity(dto, s)))
  }

  /** `delete`: `deleteById` with no reference check; an unknown id changes nothing. */
  function Delete(db: Db, id: Id): (r: Db)
    ensures r == db.(seasons := r.seasons)
    ensures forall s | s in r.seasons :: s in db.seasons && s.seasonId != id
    ensures forall s | s in db.seasons && s.seasonId != id :: s in r.seasons
    ensures SeasonIds(r) == SeasonIds(db) - {id}
    ensures Get(r, id) == Err(NotFound(""))
  {
    DeleteSeason(db, id)
  }

  /** `createSeason`: a season with that name starting `today`, with no end
      date and no creation time. The name is not checked for reuse. */
  function CreateSeason(db: Db, name: string, today: Day): (r: Db)
    ensures r == db.(seasons := db.seasons + [Season(db.nextId, name, Some(today), None, None)],
                     nextId := db.nextId + 1)
    ensures ValidKeys(db) ==> ValidKeys(r)
  {
    Create(db, SeasonDTO(None, name, Some(today), None, None)).0
  }

  /** Accounts of the season are looked at first, then its games. */
  function GetReferencedWarning(db: Db, id: Id): (r: Result<Option<ReferencedWarning>>)
    ensures r.Err? <==> id !in SeasonIds(db)
    ensures r.Err? ==> r.error == NotFound("")
    ensures r == Ok(None) <==>
      id in SeasonIds(db) &&
      (forall a | a in db.seasonPlayers :: a.season != Some(id)) &&
      (forall g | g in db.games :: g.season != Some(id))
    ensures r.Ok? && r.value.Some? ==>
      (exists i :: 0 <= i < |db.seasonPlayers| && db.seasonPlayers[i].season == Some(id) &&
        (forall j :: 0 <= j < i ==> db.seasonPlayers[j].season != Some(id)) &&
        r.value.value == ReferencedWarning(SeasonPlayerReferencedKey, [db.seasonPlayers[i].seasonPlayerId]))
      ||
      ((forall a | a in db.seasonPlayers :: a.season != Some(id)) &&
       exists i :: 0 <= i < |db.games| && db.games[i].season == Some(id) &&
        (forall j :: 0 <= j < i ==> db.games[j].season != Some(id)) &&
        r.value.value == ReferencedWarning(GameReferencedKey, [db.games[i].gameId]))
  {
    match Repos.FindSeasonById(db.seasons, id)
    case None => Err(NotFound(""))
    case Some(s) =>
      match Repos.FindFirstSeasonPlayerBySeason(db.seasonPlayers, s.seasonId)
      case Some(a) => Ok(Some(ReferencedWarning(SeasonPlayerReferencedKey, [a.seasonPlayerId])))
      case None =>
        match Repos.FindFirstGameBySeason(db.games, s.seasonId)
        case Some(g) => Ok(Some(ReferencedWarning(GameReferencedKey, [g.gameId])))
        case None => Ok(None)
  }

  // ------------------------------------------------------------------ lemmas

  /** A season created under a fresh name is found by that name. */
  lemma CreateSeasonThenFind(db: Db, name: string, today: Day)
    requires forall s | s in db.seasons :: s.name != name
    ensures GetSeasonIdByName(CreateSeason(db, name, today), name) == Ok(db.nextId)
  {
    var d := CreateSeason(db, name, today);
    assert d.seasons[|db.seasons|].name == name;
    assert forall j :: 0 <= j < |db.seasons| ==> d.seasons[j] in db.seasons;
  }

  /** Nothing stops a second season with the same name, after which the name
      no longer resolves. */
  lemma CreateSeasonTwiceAmbiguous(db: Db, name: string, today: Day, later: Day)
    ensures GetSeasonIdByName(CreateSeason(CreateSeason(db, name, today), name, later), name)
         == Err(IncorrectResultSize)
  {
    var d := CreateSeason(CreateSeason(db, name, today), name, later);
    var n := |db.seasons|;
    assert d.seasons[n].name == name && d.seasons[n + 1].name == name;
  }

  /** A delete that the warning would have allowed keeps every reference
      resolvable. */
  lemma DeleteUnreferencedKeepsForeignKeys(db: Db, id: Id)
    requires ForeignKeysHold(db)
    requires GetReferencedWarning(db, id) == Ok(None)
    ensures ForeignKeysHold(Delete(db, id))
  {
    var d := Delete(db, id);
    forall a | a in d.seasonPlayers
      ensures Resolves(a.season, SeasonIds(d))
    {
      assert Resolves(a.season, SeasonIds(db)) && a.season != Some(id);
    }
    forall g | g in d.games
      ensures Resolves(g.season, SeasonIds(d))
    {
      assert Resolves(g.season, SeasonIds(db)) && g.season != Some(id);
    }
  }

  /** `delete` does not consult the warning: deleting a referenced season
      leaves the blocking account or game pointing at no season. */
  lemma DeleteIgnoresWarning(db: Db, id: Id, w: ReferencedWarning)
    requires GetReferencedWarning(db, id) == Ok(Some(w))
    ensures id !in SeasonIds(Delete(db, id))
    ensures w.key == SeasonPlayerReferencedKey ==>
      exists a :: a in Delete(db, id).seasonPlayers && [a.seasonPlayerId] == w.params && a.season == Some(id)
    ensures w.key == GameReferencedKey ==>
      exists g :: g in Delete(db, id).games && [g.gameId] == w.params && g.season == Some(id)
    ensures !ForeignKeysHold(Delete(db, id))
  {
    var d := Delete(db, id);
    if w.key == SeasonPlayerReferencedKey {
      var i :| 0 <= i < |db.seasonPlayers| && db.seasonPlayers[i].season == Some(id) &&
        w == ReferencedWarning(SeasonPlayerReferencedKey, [db.seasonPlayers[i].seasonPlayerId]);
      var a := db.seasonPlayers[i];
      assert a in d.seasonPlayers && !Resolves(a.season, SeasonIds(d));
    } else {
      var i :| 0 <= i < |db.games| && db.games[i].season == Some(id) &&
        w == ReferencedWarning(GameReferencedKey, [db.games[i].gameId]);
      var g := db.games[i];
      assert g in d.games && !Resolves(g.season, SeasonIds(d));
    }
  }
}

/** `SeasonService`'s methods against the live store. */
module SeasonService {
  import opened Domain
  import opened Store
  import Repos
  import Seasons

  method Create(store: Database, dto: SeasonDTO) returns (id: Id)
    requires store.Valid()
    modifies store
    ensures store.Valid()
    ensures (store.Snapshot(), id) == Seasons.Create(old(store.Snapshot()), dto)
  {
    var season := Seasons.MapToEntity(dto, Seasons.NewSeason);
    id := store.SaveNewSeason(season);
  }

  method Update(store: Database, id: Id, dto: SeasonDTO) returns (r: Result<()>)
    requires store.Valid()
    modifies store
    ensures store.Valid()
    ensures Applies(Seasons.Update(old(store.Snapshot()), id, dto), old(store.Snapshot()), store.Snapshot(), r)
  {
    var found := Repos.FindSeasonById(store.seasons, id);
    if found.None? {
      return Err(NotFound(""));
    }
    var season := Seasons.MapToEntity(dto, found.value);
    store.SaveSeason(season);
    r := Ok(());
  }

  method Delete(store: Database, id: Id)
    requires store.Valid()
    modifies store
    ensures store.Valid()
    ensures store.Snapshot() == Seasons.Delete(old(store.Snapshot()), id)
  {
    store.DeleteSeasonById(id);
  }

  /** `today` stands for `LocalDate.now()`. */
  method CreateSeason(store: Database, name: string, today: Day)
    requires store.Valid()
    modifies store
    ensures store.Valid()
    ensures store.Snapshot() == Seasons.CreateSeason(old(store.Snapshot()), name, today)
  {
    var dto := SeasonDTO(None, "", None, None, None);
    dto := dto.(name := name);
    dto := dto.(startDate := Some(today));
    var _ := Create(store, dto);
  }
}
