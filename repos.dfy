/** The Spring Data repository queries the services use, over the rows of a
    table held in insertion order.

    - `findById` and `findFirstByX` return the first matching row, or none.
    - An `Optional` finder (`findByName`, `findByGameNumber`,
      `findByPlayerAndSeason`) returns the single match; more than one match
      is the framework's `IncorrectResultSizeDataAccessException`.
    - A `@Query` method declared to return a primitive `int` fails when no row
      matches, and, like the Optional finders, when more than one does.

    A reference column compares by the id of the referenced row, so
    `findFirstByPlayer(player)` is a match on `player == Some(player.playerId)`. */
module Repos {
  import opened Domain

  // ------------------------------------------------------------ generic forms

  /** The position of the first row satisfying `p`. */
  function FirstIndex<T>(s: seq<T>, p: T -> bool): (r: Option<nat>)
    ensures r.Some? ==> r.value < |s| && p(s[r.value]) && forall j :: 0 <= j < r.value ==> !p(s[j])
    ensures r.None? ==> forall j :: 0 <= j < |s| ==> !p(s[j])
  {
    if |s| == 0 then None
    else if p(s[0]) then Some(0)
    else match FirstIndex(s[1..], p)
      case None => None
      case Some(k) => Some(k + 1)
  }

  /** The first row satisfying `p` (the `findFirstBy...` and `findById` shape). */
  function First<T>(s: seq<T>, p: T -> bool): (r: Option<T>)
    ensures r.Some? ==> r.value in s && p(r.value)
    ensures r.Some? ==> exists i :: 0 <= i < |s| && s[i] == r.value && forall j :: 0 <= j < i ==> !p(s[j])
    ensures r.None? <==> forall x | x in s :: !p(x)
  {
    match FirstIndex(s, p)
    case None => None
    case Some(i) => Some(s[i])
  }

  /** The rows satisfying `p`, in order. */
  function Filter<T>(s: seq<T>, p: T -> bool): (r: seq<T>)
    ensures |r| <= |s|
    ensures forall x | x in r :: x in s && p(x)
    ensures forall x | x in s && p(x) :: x in r
  {
    if |s| == 0 then []
    else
      var rest := Filter(s[1..], p);
      assert forall x | x in s[1..] :: x in s;
      assert forall x | x in s && x != s[0] :: x in s[1..];
      if p(s[0]) then [s[0]] + rest else rest
  }

  /** A single-result `Optional` finder. */
  function Single<T>(s: seq<T>, p: T -> bool): (r: Result<Option<T>>)
    ensures r == Ok(None) <==> forall x | x in s :: !p(x)
    ensures r.Ok? && r.value.Some? ==>
      r.value.value in s && p(r.value.value) && forall j :: 0 <= j < |s| && p(s[j]) ==> s[j] == r.value.value
    ensures r.Err? <==> exists i, j :: 0 <= i < j < |s| && p(s[i]) && p(s[j])
    ensures r.Err? ==> r.error == IncorrectResultSize
  {
    match FirstIndex(s, p)
    case None => Ok(None)
    case Some(i) =>
      match FirstIndex(s[i + 1..], p)
      case None =>
        assert forall j :: i < j < |s| ==> s[j] == s[i + 1..][j - (i + 1)];
        Ok(Some(s[i]))
      case Some(k) =>
        assert p(s[i + 1 + k]);
        Err(IncorrectResultSize)
  }

  /** A single-result query projecting one int column, declared with a
      primitive return type. */
  function SingleValue<T>(s: seq<T>, p: T -> bool, column: T -> int): (r: Result<int>)
    ensures r.Ok? ==> exists x :: x in s && p(x) && column(x) == r.value
    ensures r.Ok? ==> forall j :: 0 <= j < |s| && p(s[j]) ==> column(s[j]) == r.value
    ensures r == Err(EmptyResult) <==> forall x | x in s :: !p(x)
    ensures r == Err(IncorrectResultSize) <==> exists i, j :: 0 <= i < j < |s| && p(s[i]) && p(s[j])
    ensures r.Err? ==> r.error == EmptyResult || r.error == IncorrectResultSize
  {
    match Single(s, p)
    case Err(e) => Err(e)
    case Ok(None) => Err(EmptyResult)
    case Ok(Some(x)) => Ok(column(x))
  }

  // ---------------------------------------------------------- PlayerRepository

  function FindPlayerById(players: seq<Player>, id: Id): (r: Option<Player>)
    ensures r.Some? ==> r.value in players && r.value.playerId == id
    ensures r.None? <==> forall p | p in players :: p.playerId != id
  {
    First(players, (p: Player) => p.playerId == id)
  }

  /** `SELECT p.playerId FROM Player p WHERE p.name = :name` */
  function FindPlayerIdByName(players: seq<Player>, name: string): (r: Result<Id>)
    ensures r.Ok? ==> exists p :: p in players && p.name == name && p.playerId == r.value
    ensures r == Err(EmptyResult) <==> forall p | p in players :: p.name != name
    ensures r == Err(IncorrectResultSize) <==>
      exists i, j :: 0 <= i < j < |players| && players[i].name == name && players[j].name == name
    ensures r.Err? ==> r.error == EmptyResult || r.error == IncorrectResultSize
  {
    SingleValue(players, (p: Player) => p.name == name, (p: Player) => p.playerId)
  }

  function FindPlayerByName(players: seq<Player>, name: string): (r: Result<Option<Player>>)
    ensures r == Ok(None) <==> forall p | p in players :: p.name != name
    ensures r.Ok? && r.value.Some? ==> r.value.value in players && r.value.value.name == name
    ensures r.Err? <==>
      exists i, j :: 0 <= i < j < |players| && players[i].name == name && players[j].name == name
    ensures r.Err? ==> r.error == IncorrectResultSize
  {
    Single(players, (p: Player) => p.name == name)
  }

  /** `findAll()` streamed through a name filter and `findFirst()`. */
  function FindFirstPlayerNamed(players: seq<Player>, name: string): (r: Option<Player>)
    ensures r.Some? ==> r.value in players && r.value.name == name
    ensures r.Some? ==>
      exists i :: 0 <= i < |players| && players[i] == r.value &&
        forall j :: 0 <= j < i ==> players[j].name != name
    ensures r.None? <==> forall p | p in players :: p.name != name
  {
    First(players, (p: Player) => p.name == name)
  }

  // ---------------------------------------------------------- SeasonRepository

  function FindSeasonById(seasons: seq<Season>, id: Id): (r: Option<Season>)
    ensures r.Some? ==> r.value in seasons && r.value.seasonId == id
    ensures r.None? <==> forall s | s in seasons :: s.seasonId != id
  {
    First(seasons, (s: Season) => s.seasonId == id)
  }

  /** `SELECT s.seasonId FROM Season s WHERE s.name = :name` */
  function FindSeasonIdByName(seasons: seq<Season>, name: string): (r: Result<Id>)
    ensures r.Ok? ==> exists s :: s in seasons && s.name == name && s.seasonId == r.value
    ensures r == Err(EmptyResult) <==> forall s | s in seasons :: s.name != name
    ensures r == Err(IncorrectResultSize) <==>
      exists i, j :: 0 <= i < j < |seasons| && seasons[i].name == name && seasons[j].name == name
    ensures r.Err? ==> r.error == EmptyResult || r.error == IncorrectResultSize
  {
    SingleValue(seasons, (s: Season) => s.name == name, (s: Season) => s.seasonId)
  }

  // ---------------------------------------------------- SeasonPlayerRepository

  function FindSeasonPlayerById(accounts: seq<SeasonPlayer>, id: Id): (r: Option<SeasonPlayer>)
    ensures r.Some? ==> r.value in accounts && r.value.seasonPlayerId == id
    ensures r.None? <==> forall a | a in accounts :: a.seasonPlayerId != id
  {
    First(accounts, (a: SeasonPlayer) => a.seasonPlayerId == id)
  }

  function FindFirstSeasonPlayerBySeason(accounts: seq<SeasonPlayer>, seasonId: Id): (r: Option<SeasonPlayer>)
    ensures r.Some? ==> r.value in accounts && r.value.season == Some(seasonId)
    ensures r.Some? ==>
      exists i :: 0 <= i < |accounts| && accounts[i] == r.value &&
        forall j :: 0 <= j < i ==> accounts[j].season != Some(seasonId)
    ensures r.None? <==> forall a | a in accounts :: a.season != Some(seasonId)
  {
    First(accounts, (a: SeasonPlayer) => a.season == Some(seasonId))
  }

  function FindFirstSeasonPlayerByPlayer(accounts: seq<SeasonPlayer>, playerId: Id): (r: Option<SeasonPlayer>)
    ensures r.Some? ==> r.value in accounts && r.value.player == Some(playerId)
    ensures r.Some? ==>
      exists i :: 0 <= i < |accounts| && accounts[i] == r.value &&
        forall j :: 0 <= j < i ==> accounts[j].player != Some(playerId)
    ensures r.None? <==> forall a | a in accounts :: a.player != Some(playerId)
  {
    First(accounts, (a: SeasonPlayer) => a.player == Some(playerId))
  }

  function FindSeasonPlayerByPlayerAndSeason(accounts: seq<SeasonPlayer>, playerId: Id, seasonId: Id)
    : (r: Result<Option<SeasonPlayer>>)
    ensures r == Ok(None) <==>
      forall a | a in accounts :: !(a.player == Some(playerId) && a.season == Some(seasonId))
    ensures r.Ok? && r.value.Some? ==>
      r.value.value in accounts && r.value.value.player == Some(playerId) && r.value.value.season == Some(seasonId)
    ensures r.Err? <==>
      exists i, j :: 0 <= i < j < |accounts| &&
        accounts[i].player == Some(playerId) && accounts[i].season == Some(seasonId) &&
        accounts[j].player == Some(playerId) && accounts[j].season == Some(seasonId)
    ensures r.Err? ==> r.error == IncorrectResultSize
  {
    Single(accounts, (a: SeasonPlayer) => a.player == Some(playerId) && a.season == Some(seasonId))
  }

  // ------------------------------------------------------------ GameRepository

  function FindGameById(games: seq<Game>, id: Id): (r: Option<Game>)
    ensures r.Some? ==> r.value in games && r.value.gameId == id
    ensures r.None? <==> forall g | g in games :: g.gameId != id
  {
    First(games, (g: Game) => g.gameId == id)
  }

  function FindFirstGameBySeason(games: seq<Game>, seasonId: Id): (r: Option<Game>)
    ensures r.Some? ==> r.value in games && r.value.season == Some(seasonId)
    ensures r.Some? ==>
      exists i :: 0 <= i < |games| && games[i] == r.value &&
        forall j :: 0 <= j < i ==> games[j].season != Some(seasonId)
    ensures r.None? <==> forall g | g in games :: g.season != Some(seasonId)
  {
    First(games, (g: Game) => g.season == Some(seasonId))
  }

  /** `SELECT g.gameId FROM Game g WHERE g.gameNumber = :gameNumber` */
  function FindGameIdByGameNumber(games: seq<Game>, gameNumber: int): (r: Result<Id>)
    ensures r.Ok? ==> exists g :: g in games && g.gameNumber == gameNumber && g.gameId == r.value
    ensures r == Err(EmptyResult) <==> forall g | g in games :: g.gameNumber != gameNumber
    ensures r == Err(IncorrectResultSize) <==>
      exists i, j :: 0 <= i < j < |games| &&
        games[i].gameNumber == gameNumber && games[j].gameNumber == gameNumber
    ensures r.Err? ==> r.error == EmptyResult || r.error == IncorrectResultSize
  {
    SingleValue(games, (g: Game) => g.gameNumber == gameNumber, (g: Game) => g.gameId)
  }

  function FindGameByGameNumber(games: seq<Game>, gameNumber: int): (r: Result<Option<Game>>)
    ensures r == Ok(None) <==> forall g | g in games :: g.gameNumber != gameNumber
    ensures r.Ok? && r.value.Some? ==> r.value.value in games && r.value.value.gameNumber == gameNumber
    ensures r.Ok? && r.value.Some? ==> forall j :: 0 <= j < |games| && games[j].gameNumber == gameNumber ==>
      games[j] == r.value.value
    ensures r.Err? <==>
      exists i, j :: 0 <= i < j < |games| &&
        games[i].gameNumber == gameNumber && games[j].gameNumber == gameNumber
    ensures r.Err? ==> r.error == IncorrectResultSize
  {
    Single(games, (g: Game) => g.gameNumber == gameNumber)
  }

  // -------------------------------------------------------- GameBuyInRepository

  function FindBuyInById(buyIns: seq<GameBuyIn>, id: Id): (r: Option<GameBuyIn>)
    ensures r.Some? ==> r.value in buyIns && r.value.gameBuyInId == id
    ensures r.None? <==> forall b | b in buyIns :: b.gameBuyInId != id
  {
    First(buyIns, (b: GameBuyIn) => b.gameBuyInId == id)
  }

  function FindFirstBuyInByGame(buyIns: seq<GameBuyIn>, gameId: Id): (r: Option<GameBuyIn>)
    ensures r.Some? ==> r.value in buyIns && r.value.game == Some(gameId)
    ensures r.Some? ==>
      exists i :: 0 <= i < |buyIns| && buyIns[i] == r.value &&
        forall j :: 0 <= j < i ==> buyIns[j].game != Some(gameId)
    ensures r.None? <==> forall b | b in buyIns :: b.game != Some(gameId)
  {
    First(buyIns, (b: GameBuyIn) => b.game == Some(gameId))
  }

  function FindFirstBuyInBySeasonPlayer(buyIns: seq<GameBuyIn>, accountId: Id): (r: Option<GameBuyIn>)
    ensures r.Some? ==> r.value in buyIns && r.value.seasonPlayer == Some(accountId)
    ensures r.Some? ==>
      exists i :: 0 <= i < |buyIns| && buyIns[i] == r.value &&
        forall j :: 0 <= j < i ==> buyIns[j].seasonPlayer != Some(accountId)
    ensures r.None? <==> forall b | b in buyIns :: b.seasonPlayer != Some(accountId)
  {
    First(buyIns, (b: GameBuyIn) => b.seasonPlayer == Some(accountId))
  }

  // ------------------------------------------------------- GameResultRepository

  function FindResultById(results: seq<GameResult>, id: Id): (r: Option<GameResult>)
    ensures r.Some? ==> r.value in results && r.value.gameResultId == id
    ensures r.None? <==> forall g | g in results :: g.gameResultId != id
  {
    First(results, (g: GameResult) => g.gameResultId == id)
  }

  function FindFirstResultByGame(results: seq<GameResult>, gameId: Id): (r: Option<GameResult>)
    ensures r.Some? ==> r.value in results && r.value.game == Some(gameId)
    ensures r.Some? ==>
      exists i :: 0 <= i < |results| && results[i] == r.value &&
        forall j :: 0 <= j < i ==> results[j].game != Some(gameId)
    ensures r.None? <==> forall g | g in results :: g.game != Some(gameId)
  {
    First(results, (g: GameResult) => g.game == Some(gameId))
  }

  function FindFirstResultBySeasonPlayer(results: seq<GameResult>, accountId: Id): (r: Option<GameResult>)
    ensures r.Some? ==> r.value in results && r.value.seasonPlayer == Some(accountId)
    ensures r.Some? ==>
      exists i :: 0 <= i < |results| && results[i] == r.value &&
        forall j :: 0 <= j < i ==> results[j].seasonPlayer != Some(accountId)
    ensures r.None? <==> forall g | g in results :: g.seasonPlayer != Some(accountId)
  {
    First(results, (g: GameResult) => g.seasonPlayer == Some(accountId))
  }

  // ---------------------------------------------- PlayerParticipationRepository

  function FindParticipationById(ps: seq<PlayerParticipation>, id: Id): (r: Option<PlayerParticipation>)
    ensures r.Some? ==> r.value in ps && r.value.participationId == id
    ensures r.None? <==> forall q | q in ps :: q.participationId != id
  {
    First(ps, (q: PlayerParticipation) => q.participationId == id)
  }

  function FindFirstParticipationByGame(ps: seq<PlayerParticipation>, gameId: Id)
    : (r: Option<PlayerParticipation>)
    ensures r.Some? ==> r.value in ps && r.value.game == Some(gameId)
    ensures r.Some? ==>
      exists i :: 0 <= i < |ps| && ps[i] == r.value &&
        forall j :: 0 <= j < i ==> ps[j].game != Some(gameId)
    ensures r.None? <==> forall q | q in ps :: q.game != Some(gameId)
  {
    First(ps, (q: PlayerParticipation) => q.game == Some(gameId))
  }

  function FindFirstParticipationBySeasonPlayer(ps: seq<PlayerParticipation>, accountId: Id)
    : (r: Option<PlayerParticipation>)
    ensures r.Some? ==> r.value in ps && r.value.seasonPlayer == Some(accountId)
    ensures r.Some? ==>
      exists i :: 0 <= i < |ps| && ps[i] == r.value &&
        forall j :: 0 <= j < i ==> ps[j].seasonPlayer != Some(accountId)
    ensures r.None? <==> forall q | q in ps :: q.seasonPlayer != Some(accountId)
  {
    First(ps, (q: PlayerParticipation) => q.seasonPlayer == Some(accountId))
  }

  // ------------------------------------------------------ appending one row

  /** A single-result finder over a table with one new matching row appended
      finds that row, when no older row matched. */
  lemma FindPlayerByNameAppended(players: seq<Player>, x: Player, name: string)
    requires forall p | p in players :: p.name != name
    requires x.name == name
    ensures FindPlayerByName(players + [x], name) == Ok(Some(x))
  {
  }

  lemma FindSeasonPlayerByPlayerAndSeasonAppended(accounts: seq<SeasonPlayer>, x: SeasonPlayer, playerId: Id,
                                                  seasonId: Id)
    requires forall a | a in accounts :: !(a.player == Some(playerId) && a.season == Some(seasonId))
    requires x.player == Some(playerId) && x.season == Some(seasonId)
    ensures FindSeasonPlayerByPlayerAndSeason(accounts + [x], playerId, seasonId) == Ok(Some(x))
  {
  }
}
