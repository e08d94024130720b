/** The relational store behind the repositories: seven tables and the one
    sequence `primary_sequence` (initial value 10000, allocation size 1) from
    which every entity type draws its id. */
module Store {
  import opened Domain
  import Repos

  const FirstId: Id := 10000

  /** A snapshot of the whole store. */
  datatype Db = Db(
    players: seq<Player>,
    seasons: seq<Season>,
    seasonPlayers: seq<SeasonPlayer>,
    games: seq<Game>,
    buyIns: seq<GameBuyIn>,
    results: seq<GameResult>,
    participations: seq<PlayerParticipation>,
    nextId: Id)

  const EmptyDb: Db := Db([], [], [], [], [], [], [], FirstId)

  /** `id` has already been handed out by the sequence. */
  predicate Issued(db: Db, id: Id)
  {
    FirstId <= id < db.nextId
  }

  /** The primary keys of the store: every stored id was drawn from the
      sequence, which has not yet reached `nextId`, and within a table an id
      identifies one row. */
  ghost predicate ValidKeys(db: Db)
  {
    && FirstId <= db.nextId
    && (forall p | p in db.players :: Issued(db, p.playerId))
    && (forall s | s in db.seasons :: Issued(db, s.seasonId))
    && (forall a | a in db.seasonPlayers :: Issued(db, a.seasonPlayerId))
    && (forall g | g in db.games :: Issued(db, g.gameId))
    && (forall b | b in db.buyIns :: Issued(db, b.gameBuyInId))
    && (forall r | r in db.results :: Issued(db, r.gameResultId))
    && (forall q | q in db.participations :: Issued(db, q.participationId))
    && (forall p, p' | p in db.players && p' in db.players && p.playerId == p'.playerId :: p == p')
    && (forall s, s' | s in db.seasons && s' in db.seasons && s.seasonId == s'.seasonId :: s == s')
    && (forall a, a' | a in db.seasonPlayers && a' in db.seasonPlayers && a.seasonPlayerId == a'.seasonPlayerId
          :: a == a')
    && (forall g, g' | g in db.games && g' in db.games && g.gameId == g'.gameId :: g == g')
    && (forall b, b' | b in db.buyIns && b' in db.buyIns && b.gameBuyInId == b'.gameBuyInId :: b == b')
    && (forall r, r' | r in db.results && r' in db.results && r.gameResultId == r'.gameResultId :: r == r')
    && (forall q, q' | q in db.participations && q' in db.participations &&
          q.participationId == q'.participationId :: q == q')
  }

  function PlayerIds(db: Db): set<Id> { set p | p in db.players :: p.playerId }
  function SeasonIds(db: Db): set<Id> { set s | s in db.seasons :: s.seasonId }
  function AccountIds(db: Db): set<Id> { set a | a in db.seasonPlayers :: a.seasonPlayerId }
  function GameIds(db: Db): set<Id> { set g | g in db.games :: g.gameId }
  function BuyInIds(db: Db): set<Id> { set b | b in db.buyIns :: b.gameBuyInId }
  function ResultIds(db: Db): set<Id> { set g | g in db.results :: g.gameResultId }
  function ParticipationIds(db: Db): set<Id> { set q | q in db.participations :: q.participationId }

  /** A reference column is null or names a stored row. */
  predicate Resolves(ref: Option<Id>, ids: set<Id>)
  {
    ref.Some? ==> ref.value in ids
  }

  /** Every reference in the store names a stored row: the foreign keys of
      the schema. Nothing in the services maintains this; it is stated so that
      what a delete does to it can be stated. */
  ghost predicate ForeignKeysHold(db: Db)
  {
    && (forall a | a in db.seasonPlayers :: Resolves(a.season, SeasonIds(db)) && Resolves(a.player, PlayerIds(db)))
    && (forall g | g in db.games :: Resolves(g.season, SeasonIds(db)))
    && (forall b | b in db.buyIns :: Resolves(b.game, GameIds(db)) && Resolves(b.seasonPlayer, AccountIds(db)))
    && (forall r | r in db.results :: Resolves(r.game, GameIds(db)) && Resolves(r.seasonPlayer, AccountIds(db)))
    && (forall q | q in db.participations ::
          Resolves(q.game, GameIds(db)) && Resolves(q.seasonPlayer, AccountIds(db)))
  }

  /** `s` with every row satisfying `hit` replaced by `e`. */
  function Replace<T>(s: seq<T>, hit: T -> bool, e: T): (r: seq<T>)
    ensures |r| == |s|
    ensures forall i :: 0 <= i < |s| ==> r[i] == if hit(s[i]) then e else s[i]
    ensures forall x | x in r :: x == e || (x in s && !hit(x))
    ensures e in r <==> e in s || exists i :: 0 <= i < |s| && hit(s[i])
  {
    if |s| == 0 then []
    else
      var rest := Replace(s[1..], hit, e);
      assert forall x | x in s[1..] :: x in s;
      assert forall i :: 1 <= i < |s| ==> s[i] == s[1..][i - 1];
      [if hit(s[0]) then e else s[0]] + rest
  }

  /** Applies to every table the same three primitives of a JPA repository:
      `save` of a new entity (the sequence supplies the id), `save` of an
      entity that already has an id (its row is replaced), and `deleteById`
      (rows with that id are removed; an unknown id removes nothing). */

  function InsertPlayer(db: Db, p: Player): (r: (Db, Id))
    ensures ValidKeys(db) ==> ValidKeys(r.0)
  {
    (db.(players := db.players + [p.(playerId := db.nextId)], nextId := db.nextId + 1), db.nextId)
  }

  function MergePlayer(db: Db, p: Player): (r: Db)
    ensures ValidKeys(db) ==> ValidKeys(r)
  {
    db.(players := Replace(db.players, (q: Player) => q.playerId == p.playerId, p))
  }

  function DeletePlayer(db: Db, id: Id): (r: Db)
    ensures ValidKeys(db) ==> ValidKeys(r)
  {
    db.(players := Repos.Filter(db.players, (q: Player) => q.playerId != id))
  }

  function InsertSeason(db: Db, s: Season): (r: (Db, Id))
    ensures ValidKeys(db) ==> ValidKeys(r.0)
  {
    (db.(seasons := db.seasons + [s.(seasonId := db.nextId)], nextId := db.nextId + 1), db.nextId)
  }

  function MergeSeason(db: Db, s: Season): (r: Db)
    ensures ValidKeys(db) ==> ValidKeys(r)
  {
    db.(seasons := Replace(db.seasons, (q: Season) => q.seasonId == s.seasonId, s))
  }

  function DeleteSeason(db: Db, id: Id): (r: Db)
    ensures ValidKeys(db) ==> ValidKeys(r)
  {
    db.(seasons := Repos.Filter(db.seasons, (q: Season) => q.seasonId != id))
  }

  function InsertSeasonPlayer(db: Db, a: SeasonPlayer): (r: (Db, Id))
    ensures ValidKeys(db) ==> ValidKeys(r.0)
  {
    (db.(seasonPlayers := db.seasonPlayers + [a.(seasonPlayerId := db.nextId)], nextId := db.nextId + 1),
     db.nextId)
  }

  function MergeSeasonPlayer(db: Db, a: SeasonPlayer): (r: Db)
    ensures ValidKeys(db) ==> ValidKeys(r)
  {
    db.(seasonPlayers := Replace(db.seasonPlayers, (q: SeasonPlayer) => q.seasonPlayerId == a.seasonPlayerId, a))
  }

  function DeleteSeasonPlayer(db: Db, id: Id): (r: Db)
    ensures ValidKeys(db) ==> ValidKeys(r)
  {
    db.(seasonPlayers := Repos.Filter(db.seasonPlayers, (q: SeasonPlayer) => q.seasonPlayerId != id))
  }

  function InsertGame(db: Db, g: Game): (r: (Db, Id))
    ensures ValidKeys(db) ==> ValidKeys(r.0)
  {
    (db.(games := db.games + [g.(gameId := db.nextId)], nextId := db.nextId + 1), db.nextId)
  }

  function MergeGame(db: Db, g: Game): (r: Db)
    ensures ValidKeys(db) ==> ValidKeys(r)
  {
    db.(games := Replace(db.games, (q: Game) => q.gameId == g.gameId, g))
  }

  function DeleteGame(db: Db, id: Id): (r: Db)
    ensures ValidKeys(db) ==> ValidKeys(r)
  {
    db.(games := Repos.Filter(db.games, (q: Game) => q.gameId != id))
  }

  function InsertBuyIn(db: Db, b: GameBuyIn): (r: (Db, Id))
    ensures ValidKeys(db) ==> ValidKeys(r.0)
  {
    (db.(buyIns := db.buyIns + [b.(gameBuyInId := db.nextId)], nextId := db.nextId + 1), db.nextId)
  }

  function MergeBuyIn(db: Db, b: GameBuyIn): (r: Db)
    ensures ValidKeys(db) ==> ValidKeys(r)
  {
    db.(buyIns := Replace(db.buyIns, (q: GameBuyIn) => q.gameBuyInId == b.gameBuyInId, b))
  }

  function DeleteBuyIn(db: Db, id: Id): (r: Db)
    ensures ValidKeys(db) ==> ValidKeys(r)
  {
    db.(buyIns := Repos.Filter(db.buyIns, (q: GameBuyIn) => q.gameBuyInId != id))
  }

  function InsertResult(db: Db, g: GameResult): (r: (Db, Id))
    ensures ValidKeys(db) ==> ValidKeys(r.0)
  {
    (db.(results := db.results + [g.(gameResultId := db.nextId)], nextId := db.nextId + 1), db.nextId)
  }

  function MergeResult(db: Db, g: GameResult): (r: Db)
    ensures ValidKeys(db) ==> ValidKeys(r)
  {
    db.(results := Replace(db.results, (q: GameResult) => q.gameResultId == g.gameResultId, g))
  }

  function DeleteResult(db: Db, id: Id): (r: Db)
    ensures ValidKeys(db) ==> ValidKeys(r)
  {
    db.(results := Repos.Filter(db.results, (q: GameResult) => q.gameResultId != id))
  }

  function InsertParticipation(db: Db, p: PlayerParticipation): (r: (Db, Id))
    ensures ValidKeys(db) ==> ValidKeys(r.0)
  {
    (db.(participations := db.participations + [p.(participationId := db.nextId)], nextId := db.nextId + 1),
     db.nextId)
  }

  function MergeParticipation(db: Db, p: PlayerParticipation): (r: Db)
    ensures ValidKeys(db) ==> ValidKeys(r)
  {
    db.(participations :=
      Replace(db.participations, (q: PlayerParticipation) => q.participationId == p.participationId, p))
  }

  function DeleteParticipation(db: Db, id: Id): (r: Db)
    ensures ValidKeys(db) ==> ValidKeys(r)
  {
    db.(participations := Repos.Filter(db.participations, (q: PlayerParticipation) => q.participationId != id))
  }

  /** A service operation run against the store realises the transition `spec`:
      on success the store becomes the new snapshot and the caller receives the
      value; on failure the store is left as it was and the caller receives the
      same error. */
  ghost predicate Performs<T>(spec: Result<(Db, T)>, before: Db, after: Db, r: Result<T>)
  {
    match spec
    case Ok(p) => after == p.0 && r == Ok(p.1)
    case Err(e) => after == before && r == Err(e)
  }

  /** The same for an operation that returns nothing. */
  ghost predicate Applies(spec: Result<Db>, before: Db, after: Db, r: Result<()>)
  {
    match spec
    case Ok(d) => after == d && r == Ok(())
    case Err(e) => after == before && r == Err(e)
  }

  /** The store, as the repositories see it. */
  class Database {
    var players: seq<Player>
    var seasons: seq<Season>
    var seasonPlayers: seq<SeasonPlayer>
    var games: seq<Game>
    var buyIns: seq<GameBuyIn>
    var results: seq<GameResult>
    var participations: seq<PlayerParticipation>
    var nextId: Id

    function Snapshot(): Db
      reads this
    {
      Db(players, seasons, seasonPlayers, games, buyIns, results, participations, nextId)
    }

    ghost predicate Valid()
      reads this
    {
      ValidKeys(Snapshot())
    }

    constructor ()
      ensures Valid() && Snapshot() == EmptyDb
    {
      players, seasons, seasonPlayers, games := [], [], [], [];
      buyIns, results, participations := [], [], [];
      nextId := FirstId;
    }

    method SaveNewPlayer(p: Player) returns (id: Id)
      modifies this
      ensures (Snapshot(), id) == InsertPlayer(old(Snapshot()), p)
    {
      id := nextId;
      players := players + [p.(playerId := id)];
      nextId := nextId + 1;
    }

    method SavePlayer(p: Player)
      modifies this
      ensures Snapshot() == MergePlayer(old(Snapshot()), p)
    {
      players := Replace(players, (q: Player) => q.playerId == p.playerId, p);
    }

    method DeletePlayerById(id: Id)
      modifies this
      ensures Snapshot() == DeletePlayer(old(Snapshot()), id)
    {
      players := Repos.Filter(players, (q: Player) => q.playerId != id);
    }

    method SaveNewSeason(s: Season) returns (id: Id)
      modifies this
      ensures (Snapshot(), id) == InsertSeason(old(Snapshot()), s)
    {
      id := nextId;
      seasons := seasons + [s.(seasonId := id)];
      nextId := nextId + 1;
    }

    method SaveSeason(s: Season)
      modifies this
      ensures Snapshot() == MergeSeason(old(Snapshot()), s)
    {
      seasons := Replace(seasons, (q: Season) => q.seasonId == s.seasonId, s);
    }

    method DeleteSeasonById(id: Id)
      modifies this
      ensures Snapshot() == DeleteSeason(old(Snapshot()), id)
    {
      seasons := Repos.Filter(seasons, (q: Season) => q.seasonId != id);
    }

    method SaveNewSeasonPlayer(a: SeasonPlayer) returns (id: Id)
      modifies this
      ensures (Snapshot(), id) == InsertSeasonPlayer(old(Snapshot()), a)
    {
      id := nextId;
      seasonPlayers := seasonPlayers + [a.(seasonPlayerId := id)];
      nextId := nextId + 1;
    }

    method SaveSeasonPlayer(a: SeasonPlayer)
      modifies this
      ensures Snapshot() == MergeSeasonPlayer(old(Snapshot()), a)
    {
      seasonPlayers := Replace(seasonPlayers, (q: SeasonPlayer) => q.seasonPlayerId == a.seasonPlayerId, a);
    }

    method DeleteSeasonPlayerById(id: Id)
      modifies this
      ensures Snapshot() == DeleteSeasonPlayer(old(Snapshot()), id)
    {
      seasonPlayers := Repos.Filter(seasonPlayers, (q: SeasonPlayer) => q.seasonPlayerId != id);
    }

    method SaveNewGame(g: Game) returns (id: Id)
      modifies this
      ensures (Snapshot(), id) == InsertGame(old(Snapshot()), g)
    {
      id := nextId;
      games := games + [g.(gameId := id)];
      nextId := nextId + 1;
    }

    method SaveGame(g: Game)
      modifies this
      ensures Snapshot() == MergeGame(old(Snapshot()), g)
    {
      games := Replace(games, (q: Game) => q.gameId == g.gameId, g);
    }

    method DeleteGameById(id: Id)
      modifies this
      ensures Snapshot() == DeleteGame(old(Snapshot()), id)
    {
      games := Repos.Filter(games, (q: Game) => q.gameId != id);
    }

    method SaveNewBuyIn(b: GameBuyIn) returns (id: Id)
      modifies this
      ensures (Snapshot(), id) == InsertBuyIn(old(Snapshot()), b)
    {
      id := nextId;
      buyIns := buyIns + [b.(gameBuyInId := id)];
      nextId := nextId + 1;
    }

    method SaveBuyIn(b: GameBuyIn)
      modifies this
      ensures Snapshot() == MergeBuyIn(old(Snapshot()), b)
    {
      buyIns := Replace(buyIns, (q: GameBuyIn) => q.gameBuyInId == b.gameBuyInId, b);
    }

    method DeleteBuyInById(id: Id)
      modifies this
      ensures Snapshot() == DeleteBuyIn(old(Snapshot()), id)
    {
      buyIns := Repos.Filter(buyIns, (q: GameBuyIn) => q.gameBuyInId != id);
    }

    method SaveNewResult(g: GameResult) returns (id: Id)
      modifies this
      ensures (Snapshot(), id) == InsertResult(old(Snapshot()), g)
    {
      id := nextId;
      results := results + [g.(gameResultId := id)];
      nextId := nextId + 1;
    }

    method SaveResult(g: GameResult)
      modifies this
      ensures Snapshot() == MergeResult(old(Snapshot()), g)
    {
      results := Replace(results, (q: GameResult) => q.gameResultId == g.gameResultId, g);
    }

    method DeleteResultById(id: Id)
      modifies this
      ensures Snapshot() == DeleteResult(old(Snapshot()), id)
    {
      results := Repos.Filter(results, (q: GameResult) => q.gameResultId != id);
    }

    method SaveNewParticipation(p: PlayerParticipation) returns (id: Id)
      modifies this
      ensures (Snapshot(), id) == InsertParticipation(old(Snapshot()), p)
    {
      id := nextId;
      participations := participations + [p.(participationId := id)];
      nextId := nextId + 1;
    }

    method SaveParticipation(p: PlayerParticipation)
      modifies this
      ensures Snapshot() == MergeParticipation(old(Snapshot()), p)
    {
      participations :=
        Replace(participations, (q: PlayerParticipation) => q.participationId == p.participationId, p);
    }

    method DeleteParticipationById(id: Id)
      modifies this
      ensures Snapshot() == DeleteParticipation(old(Snapshot()), id)
    {
      participations := Repos.Filter(participations, (q: PlayerParticipation) => q.participationId != id);
    }
  }
}
