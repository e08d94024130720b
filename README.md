# Poker tournament tracker: the ledger store and its services

This project is a Dafny model of the service layer of the poker tournament
tracker. The tracker keeps a ledger of:

- **players**;
- **seasons**;
- **season players**: a player's money account in one season, holding a
  minimum buy-in, an allocated pot and a current pot;
- **games**, numbered and owned by a season;
- per-game **buy-ins**, **results** (winnings) and **participations**.

Every entity takes its id from one shared database sequence that starts at
10000.

## Structure of the model

The store is one relational snapshot, `Store.Db`:

- seven tables, each a `seq` in table order;
- the next value of the sequence;
- `Store.Database` is the live store, a class with the same fields. Its
  methods are the three repository writes: `save` of a new entity, `save` of
  an existing one and `deleteById`.

`Repos` models the Spring Data finders as lookups over those sequences:

- `findById` and `findFirstByX` give the first matching row;
- `Optional` finders give none, the match, or IncorrectResultSize when two
  rows match;
- an `int` `@Query` fails with EmptyResult when nothing matches.

Each service file has two modules:

- **The pure module** (`Players`, `Seasons`, `SeasonPlayers`, `Games`,
  `GameBuyIns`, `GameResults`, `Participations`). Each service method is a
  function from a snapshot to a `Result`: either the new snapshot (and the
  returned value), or the error the service throws. The lemmas about these
  functions are also here.
- **The imperative module** (`PlayerService`, `SeasonService`, ...). Each
  method works against a `Database`. It performs the same steps as the Java
  method: lookups one after another, DTO setters, then a save. Its `ensures`
  ties the new store to the pure function.
  - `Store.Performs` and `Store.Applies` state that on success the store
    becomes the function's snapshot.
  - On failure the store is unchanged and the caller gets the same error.
  - This is the atomicity of `@Transactional`.

The classes under `service/impl` are modelled the same way, in `impl.dfy`.
Their methods fill the DTO step by step and call the service's `create`. Each
method is proved to have the same store effect as the corresponding service
operation, with one exception: `PokerPlayerParticipationImpl` passes lookup
failures on without the service's wrapping, and
`PokerPlayerParticipationImpl.CreateOutcome` states how the two differ.

Errors are values of `Domain.Error`:

- `NotFound(message)`, where the message is "" for the no-argument constructor;
- `EmptyResult` and `IncorrectResultSize`: what Spring Data throws for an
  empty or ambiguous result;
- `NullReference`: a game without a season;
- `IllegalState(message)`;
- `Wrapped(message, cause)`: the `RuntimeException` of
  `PlayerParticipationService`.

`Store.ForeignKeysHold` says that every reference names a stored row. No
service maintains it. It is stated so that these can be proved:

- deleting a row without a referenced-warning keeps it;
- a delete that ignores a warning breaks it: the services never block a delete. The schema's foreign keys might reject such a delete; that is not modelled.

Several properties say what the code does *not* do:

- a buy-in or result does not debit or credit any pot;
- a second identical buy-in, result, account, season or game is accepted;
- after such a duplicate, the lookups by natural key fail with
  IncorrectResultSize.

## Model

| member | source | states |
|---|---|---|
| Domain.IntToStringInjective | src/main/java/io/games/poker_tournament_tracker/service/PlayerParticipationService.java:74-77 | distinct ids give distinct decimal renderings, so the id in a "not found with id" message identifies the row |
| Domain.NatToStringInjective | src/main/java/io/games/poker_tournament_tracker/service/PlayerParticipationService.java:74-77 | decimal rendering of naturals is injective |
| Domain.NatToStringLength | src/main/java/io/games/poker_tournament_tracker/service/PlayerParticipationService.java:74-77 | the decimal rendering is non-empty and holds no minus sign |
| Repos.FirstIndex | src/main/java/io/games/poker_tournament_tracker/repos/GameBuyInRepository.java:10 | index of the first row matching the predicate, every earlier row fails it; none only when no row matches |
| Repos.First | src/main/java/io/games/poker_tournament_tracker/repos/GameBuyInRepository.java:10 | `findFirstByX`: the first matching row in table order, none exactly when no row matches |
| Repos.Filter | src/main/java/io/games/poker_tournament_tracker/repos/GameBuyInRepository.java:10 | keeps exactly the rows that satisfy the predicate, and no more rows than it was given |
| Repos.Single | src/main/java/io/games/poker_tournament_tracker/repos/PlayerRepository.java:14 | an `Optional` finder: none when nothing matches, the one match when exactly one does, IncorrectResultSize exactly when two rows match |
| Repos.SingleValue | src/main/java/io/games/poker_tournament_tracker/repos/PlayerRepository.java:11-12 | an `int` `@Query`: the column of the only match, EmptyResult exactly when none matches, IncorrectResultSize exactly when two match |
| Repos.FindPlayerById | src/main/java/io/games/poker_tournament_tracker/service/PlayerService.java:52-57 | `findById`: a player with that id, none exactly when no player has it |
| Repos.FindPlayerIdByName | src/main/java/io/games/poker_tournament_tracker/repos/PlayerRepository.java:11-12 | id of the player with that name; EmptyResult when none has it, IncorrectResultSize when two do |
| Repos.FindPlayerByName | src/main/java/io/games/poker_tournament_tracker/repos/PlayerRepository.java:14 | the player with that name, none when no player has it, IncorrectResultSize exactly when two have it |
| Repos.FindFirstPlayerNamed | src/main/java/io/games/poker_tournament_tracker/service/PlayerService.java:37-41 | the first player in table order with that name, none exactly when no player has it |
| Repos.FindSeasonById | src/main/java/io/games/poker_tournament_tracker/service/SeasonService.java:69-83 | `findById`: a season with that id, none exactly when no season has it |
| Repos.FindSeasonIdByName | src/main/java/io/games/poker_tournament_tracker/repos/SeasonRepository.java:11-12 | id of the season with that name; EmptyResult when none has it, IncorrectResultSize when two do |
| Repos.FindSeasonPlayerById | src/main/java/io/games/poker_tournament_tracker/service/SeasonPlayerService.java:68-82 | `findById`: an account with that id, none exactly when no account has it |
| Repos.FindFirstSeasonPlayerBySeason | src/main/java/io/games/poker_tournament_tracker/repos/SeasonPlayerRepository.java:11 | the first account of that season in table order, none exactly when the season has no account |
| Repos.FindFirstSeasonPlayerByPlayer | src/main/java/io/games/poker_tournament_tracker/repos/SeasonPlayerRepository.java:13 | the first account of that player in table order, none exactly when the player has no account |
| Repos.FindSeasonPlayerByPlayerAndSeason | src/main/java/io/games/poker_tournament_tracker/repos/SeasonPlayerRepository.java:15 | the account of that player in that season; none when there is none, IncorrectResultSize exactly when there are two |
| Repos.FindGameById | src/main/java/io/games/poker_tournament_tracker/service/GameService.java:76-90 | `findById`: a game with that id, none exactly when no game has it |
| Repos.FindFirstGameBySeason | src/main/java/io/games/poker_tournament_tracker/repos/GameRepository.java:11 | the first game of that season in table order, none exactly when the season has no game |
| Repos.FindGameIdByGameNumber | src/main/java/io/games/poker_tournament_tracker/repos/GameRepository.java:13-14 | id of the game with that number; EmptyResult when none has it, IncorrectResultSize when two do |
| Repos.FindGameByGameNumber | src/main/java/io/games/poker_tournament_tracker/repos/GameRepository.java:16 | the only game with that number; none when none has it, IncorrectResultSize exactly when two have it |
| Repos.FindBuyInById | src/main/java/io/games/poker_tournament_tracker/service/GameBuyInService.java:55-69 | `findById`: a buy-in with that id, none exactly when no buy-in has it |
| Repos.FindFirstBuyInByGame | src/main/java/io/games/poker_tournament_tracker/repos/GameBuyInRepository.java:10 | the first buy-in for that game in table order, none exactly when the game has none |
| Repos.FindFirstBuyInBySeasonPlayer | src/main/java/io/games/poker_tournament_tracker/repos/GameBuyInRepository.java:12 | the first buy-in of that account in table order, none exactly when the account has none |
| Repos.FindResultById | src/main/java/io/games/poker_tournament_tracker/service/GameResultService.java:57-71 | `findById`: a result with that id, none exactly when no result has it |
| Repos.FindFirstResultByGame | src/main/java/io/games/poker_tournament_tracker/repos/GameResultRepository.java:10 | the first result for that game in table order, none exactly when the game has none |
| Repos.FindFirstResultBySeasonPlayer | src/main/java/io/games/poker_tournament_tracker/repos/GameResultRepository.java:12 | the first result of that account in table order, none exactly when the account has none |
| Repos.FindParticipationById | src/main/java/io/games/poker_tournament_tracker/service/PlayerParticipationService.java:68-83 | `findById`: a participation with that id, none exactly when none has it |
| Repos.FindFirstParticipationByGame | src/main/java/io/games/poker_tournament_tracker/repos/PlayerParticipationRepository.java:10 | the first participation for that game in table order, none exactly when the game has none |
| Repos.FindFirstParticipationBySeasonPlayer | src/main/java/io/games/poker_tournament_tracker/repos/PlayerParticipationRepository.java:12 | the first participation of that account in table order, none exactly when the account has none |
| Repos.FindPlayerByNameAppended | src/main/java/io/games/poker_tournament_tracker/repos/PlayerRepository.java:14 | after a player with an unused name is added, the name finder returns exactly that player |
| Repos.FindSeasonPlayerByPlayerAndSeasonAppended | src/main/java/io/games/poker_tournament_tracker/repos/SeasonPlayerRepository.java:15 | after the first account of a (player, season) pair is added, the pair finder returns exactly that account |
| Store.InsertPlayer | src/main/java/io/games/poker_tournament_tracker/domain/Player.java:20-27 | saving a new row under the next sequence value keeps the key invariant: every id issued by the sequence, unique within its table |
| Store.InsertSeason | src/main/java/io/games/poker_tournament_tracker/domain/Season.java:22-29 | saving a new row under the next sequence value keeps the key invariant: every id issued by the sequence, unique within its table |
| Store.InsertSeasonPlayer | src/main/java/io/games/poker_tournament_tracker/domain/SeasonPlayer.java:23-30 | saving a new row under the next sequence value keeps the key invariant: every id issued by the sequence, unique within its table |
| Store.InsertGame | src/main/java/io/games/poker_tournament_tracker/domain/Game.java:23-30 | saving a new row under the next sequence value keeps the key invariant: every id issued by the sequence, unique within its table |
| Store.InsertResult | src/main/java/io/games/poker_tournament_tracker/domain/GameResult.java:21-28 | saving a new row under the next sequence value keeps the key invariant: every id issued by the sequence, unique within its table |
| Store.InsertParticipation | src/main/java/io/games/poker_tournament_tracker/domain/PlayerParticipation.java:21-28 | saving a new row under the next sequence value keeps the key invariant: every id issued by the sequence, unique within its table |
| Store.InsertBuyIn | src/main/java/io/games/poker_tournament_tracker/service/GameBuyInService.java:78-88 | saving a new buy-in under the next sequence value keeps the key invariant |
| Store.Database.constructor | src/main/java/io/games/poker_tournament_tracker/domain/SeasonPlayer.java:25-30 | an empty store whose sequence starts at 10000, satisfying the key invariant |
| Players.MapToEntity | src/main/java/io/games/poker_tournament_tracker/service/PlayerService.java:82-86 | keeps the entity's id and overwrites every other field with the DTO's: mapping back gives the DTO |
| Players.GetPlayerIdByName | src/main/java/io/games/poker_tournament_tracker/service/PlayerService.java:32-34 | a returned id belongs to a player of that name; EmptyResult exactly when no player has it, IncorrectResultSize exactly when two do, and no other error |
| Players.GetPlayerIdByNameUnique | src/main/java/io/games/poker_tournament_tracker/service/PlayerService.java:32-34 | a name held by exactly one player resolves to that player's id |
| Players.GetOrCreateAgreesWithGetPlayerIdByName | src/main/java/io/games/poker_tournament_tracker/service/PlayerService.java:36-41 | when the name query succeeds, get-or-create returns the same id and leaves the store unchanged |
| Players.GetOrCreateThenGetPlayerIdByName | src/main/java/io/games/poker_tournament_tracker/service/PlayerService.java:42-49 | after get-or-create adds an unused name, the name query returns the id it gave |
| Players.Get | src/main/java/io/games/poker_tournament_tracker/service/PlayerService.java:52-57 | succeeds exactly for a stored id, giving that player's DTO; otherwise NotFound |
| Players.Create | src/main/java/io/games/poker_tournament_tracker/service/PlayerService.java:59-63 | appends one player carrying the DTO's fields under the next sequence id, which it returns; nothing else changes; the new row reads back as the DTO |
| Players.Update | src/main/java/io/games/poker_tournament_tracker/service/PlayerService.java:65-69 | NotFound exactly for an unknown id; otherwise only the rows with that id change, to the DTO's name and createdAt |
| Players.Delete | src/main/java/io/games/poker_tournament_tracker/service/PlayerService.java:71-73 | removes exactly the rows with that id, no reference check, no other table touched |
| Players.GetReferencedWarning | src/main/java/io/games/poker_tournament_tracker/service/PlayerService.java:88-98 | NotFound for an unknown player; none exactly when no account references the player; otherwise key `player.seasonPlayer.player.referenced` with the first referencing account's id |
| Players.GetOrCreatePlayerIdByName | src/main/java/io/games/poker_tournament_tracker/service/PlayerService.java:36-50 | an existing name returns the first such player's id and changes nothing; an unused name appends one player with that name and null createdAt and returns its new id |
| Players.GetOrCreateIdempotent | src/main/java/io/games/poker_tournament_tracker/service/PlayerService.java:36-50 | a second call with the same name returns the same id and changes nothing; the player count rises by at most one |
| Players.GetOrCreateNamesPlayer | src/main/java/io/games/poker_tournament_tracker/service/PlayerService.java:36-50 | the returned id is stored and names a player with that name, and the key invariant is kept |
| Players.GetOrCreateThenFindByName | src/main/java/io/games/poker_tournament_tracker/service/PlayerService.java:36-50 | when the name was not ambiguous, afterwards the name finder returns exactly the player whose id was returned |
| Players.GetOrCreateDependsOnPlayers | src/main/java/io/games/poker_tournament_tracker/service/PlayerService.java:37-41 | for an existing name the result depends on the player table alone, and the store is untouched |
| Players.DeleteUnreferencedKeepsForeignKeys | src/main/java/io/games/poker_tournament_tracker/service/PlayerService.java:71-73 | deleting a player with no warning keeps every reference in the store resolvable |
| Players.DeleteIgnoresWarning | src/main/java/io/games/poker_tournament_tracker/service/PlayerService.java:71-73 | deleting a player that has a warning still happens, and leaves the warned account with a dangling reference |
| PlayerService.Create | src/main/java/io/games/poker_tournament_tracker/service/PlayerService.java:59-63 | the store becomes `Players.Create` of the old store and the new id is returned |
| PlayerService.Update | src/main/java/io/games/poker_tournament_tracker/service/PlayerService.java:65-69 | the store performs `Players.Update`: changed on success, unchanged on a NotFound |
| PlayerService.Delete | src/main/java/io/games/poker_tournament_tracker/service/PlayerService.java:71-73 | the store becomes `Players.Delete` of the old store |
| PlayerService.GetOrCreatePlayerIdByName | src/main/java/io/games/poker_tournament_tracker/service/PlayerService.java:36-50 | the stream search, as a loop over the table, followed by an insert when nothing matched, realises `Players.GetOrCreatePlayerIdByName` |
| Seasons.MapToEntity | src/main/java/io/games/poker_tournament_tracker/service/SeasonService.java:165-171 | keeps the id and overwrites name, startDate, endDate and createdAt: mapping back gives the DTO |
| Seasons.GetSeasonIdByName | src/main/java/io/games/poker_tournament_tracker/service/SeasonService.java:53-61 | a returned id belongs to a season of that name; EmptyResult exactly when none has it, IncorrectResultSize exactly when two do, and no other error |
| Seasons.Get | src/main/java/io/games/poker_tournament_tracker/service/SeasonService.java:69-83 | succeeds exactly for a stored id, giving that season's DTO; otherwise NotFound |
| Seasons.Create | src/main/java/io/games/poker_tournament_tracker/service/SeasonService.java:92-102 | appends one season with the DTO's fields under the next sequence id, which it returns; it reads back as the DTO |
| Seasons.Update | src/main/java/io/games/poker_tournament_tracker/service/SeasonService.java:111-124 | NotFound exactly for an unknown id; otherwise the season's four fields are replaced wholesale, other rows and tables kept |
| Seasons.Delete | src/main/java/io/games/poker_tournament_tracker/service/SeasonService.java:132-140 | removes exactly the rows with that id, with no reference check |
| Seasons.CreateSeason | src/main/java/io/games/poker_tournament_tracker/service/SeasonService.java:179-190 | appends exactly one season with that name, startDate today, endDate and createdAt null, under the next id; it does not check the name |
| Seasons.GetReferencedWarning | src/main/java/io/games/poker_tournament_tracker/service/SeasonService.java:198-220 | NotFound for an unknown season; none exactly when no account and no game references it; otherwise the first account (key `season.seasonPlayer.season.referenced`), and only if there is none the first game (key `season.game.season.referenced`), with that row's id |
| Seasons.CreateSeasonThenFind | src/main/java/io/games/poker_tournament_tracker/service/SeasonService.java:179-190 | a season created under an unused name is found by name with the id it was given |
| Seasons.CreateSeasonTwiceAmbiguous | src/main/java/io/games/poker_tournament_tracker/service/SeasonService.java:179-190 | creating the same name twice is accepted, after which the name lookup fails with IncorrectResultSize |
| Seasons.DeleteUnreferencedKeepsForeignKeys | src/main/java/io/games/poker_tournament_tracker/service/SeasonService.java:132-140 | deleting a season with no warning keeps every reference resolvable |
| Seasons.DeleteIgnoresWarning | src/main/java/io/games/poker_tournament_tracker/service/SeasonService.java:132-140 | deleting a warned season still happens; the warned account or game remains and now dangles |
| SeasonService.Create | src/main/java/io/games/poker_tournament_tracker/service/SeasonService.java:92-102 | the store becomes `Seasons.Create` of the old store and the new id is returned |
| SeasonService.Update | src/main/java/io/games/poker_tournament_tracker/service/SeasonService.java:111-124 | the store performs `Seasons.Update`: changed on success, unchanged on NotFound |
| SeasonService.Delete | src/main/java/io/games/poker_tournament_tracker/service/SeasonService.java:132-140 | the store becomes `Seasons.Delete` of the old store |
| SeasonService.CreateSeason | src/main/java/io/games/poker_tournament_tracker/service/SeasonService.java:179-190 | the store becomes `Seasons.CreateSeason` of the old store |
| SeasonPlayers.MapToEntity | src/main/java/io/games/poker_tournament_tracker/service/SeasonPlayerService.java:169-189 | succeeds exactly when both references resolve; an unknown season fails first with "season not found", then an unknown player with "player not found"; on success the id is kept and mapping back gives the DTO's three amounts and both references |
| SeasonPlayers.Get | src/main/java/io/games/poker_tournament_tracker/service/SeasonPlayerService.java:68-82 | succeeds exactly for a stored id, giving that account's DTO; otherwise NotFound |
| SeasonPlayers.Create | src/main/java/io/games/poker_tournament_tracker/service/SeasonPlayerService.java:91-101 | fails as mapToEntity does with nothing saved; otherwise appends one account with the DTO's fields under the next id and returns it |
| SeasonPlayers.Update | src/main/java/io/games/poker_tournament_tracker/service/SeasonPlayerService.java:110-124 | NotFound for an unknown id; then an unresolvable reference fails, store unchanged; otherwise the three amounts and both references are replaced, null clearing a reference |
| SeasonPlayers.Delete | src/main/java/io/games/poker_tournament_tracker/service/SeasonPlayerService.java:132-140 | removes exactly the rows with that id without consulting the warning; no other table changes |
| SeasonPlayers.GetSeasonPlayerIdByPlayerNameAndSeasonId | src/main/java/io/games/poker_tournament_tracker/service/SeasonPlayerService.java:198-225 | fails at the first missing stage, player name, then season id, then (player, season) account, each with its own NotFound message, and a found player in an existing season with no account for the pair gives "Season player not found"; on success the account's player has that name and its season has that id |
| SeasonPlayers.CreateSeasonPlayers | src/main/java/io/games/poker_tournament_tracker/service/SeasonPlayerService.java:236-253 | an unresolved season name fails with the store unchanged; otherwise get-or-create the player, then append one account with the given minBuyIn and allocatedPotSize and currentPotSize equal to allocatedPotSize |
| SeasonPlayers.GetReferencedWarning | src/main/java/io/games/poker_tournament_tracker/service/SeasonPlayerService.java:261-294 | NotFound for an unknown account; none exactly when no buy-in, result or participation references it; otherwise the first buy-in, else the first result, else the first participation, with its key and that record's id |
| SeasonPlayers.ResolveFound | src/main/java/io/games/poker_tournament_tracker/service/SeasonPlayerService.java:198-225 | when the player, the season and exactly one account exist, resolution returns that account's id |
| SeasonPlayers.ResolveAmbiguous | src/main/java/io/games/poker_tournament_tracker/service/SeasonPlayerService.java:198-225 | two accounts for the same (player, season) make resolution fail with IncorrectResultSize |
| SeasonPlayers.CreateSeasonPlayersThenResolve | src/main/java/io/games/poker_tournament_tracker/service/SeasonPlayerService.java:236-253 | after opening the first account of a season, resolving the player in that season returns the new account's id |
| SeasonPlayers.OpensAccount | src/main/java/io/games/poker_tournament_tracker/service/SeasonPlayerService.java:236-253 | seasons unchanged, players as get-or-create left them (a player of that name exists), the account table gains exactly one row linking the player to the resolved season |
| SeasonPlayers.CreateSeasonPlayersTwiceAmbiguous | src/main/java/io/games/poker_tournament_tracker/service/SeasonPlayerService.java:236-253 | a repeated call adds a second account for the pair, after which resolving it fails with IncorrectResultSize |
| SeasonPlayers.DeleteUnreferencedKeepsForeignKeys | src/main/java/io/games/poker_tournament_tracker/service/SeasonPlayerService.java:132-140 | deleting an account with no warning keeps every reference resolvable |
| SeasonPlayers.DeleteIgnoresWarning | src/main/java/io/games/poker_tournament_tracker/service/SeasonPlayerService.java:132-140 | deleting a warned account still removes it and leaves a dangling reference |
| SeasonPlayerService.Create | src/main/java/io/games/poker_tournament_tracker/service/SeasonPlayerService.java:91-101 | the store performs `SeasonPlayers.Create`: new account and id on success, unchanged on failure |
| SeasonPlayerService.Update | src/main/java/io/games/poker_tournament_tracker/service/SeasonPlayerService.java:110-124 | the store performs `SeasonPlayers.Update` |
| SeasonPlayerService.Delete | src/main/java/io/games/poker_tournament_tracker/service/SeasonPlayerService.java:132-140 | the store becomes `SeasonPlayers.Delete` of the old store |
| SeasonPlayerService.CreateSeasonPlayers | src/main/java/io/games/poker_tournament_tracker/service/SeasonPlayerService.java:236-253 | the step-by-step lookups, get-or-create and create realise `SeasonPlayers.CreateSeasonPlayers`, atomically |
| Games.MapToEntity | src/main/java/io/games/poker_tournament_tracker/service/GameService.java:173-186 | succeeds exactly when the season reference resolves, else NotFound("season not found"); keeps the id, replaces number, times, createdAt and season |
| Games.GetGameId | src/main/java/io/games/poker_tournament_tracker/service/GameService.java:60-68 | a returned id belongs to a game with that number; EmptyResult exactly when none has it, IncorrectResultSize exactly when two do, and no other error |
| Games.GetSeasonIdByGameNumber | src/main/java/io/games/poker_tournament_tracker/service/GameService.java:194-206 | the season of the only game with that number; NotFound("Game not found") exactly when none has it, IncorrectResultSize exactly when two do, NullReference when the game has no season |
| Games.ResolveGameAndAccount | src/main/java/io/games/poker_tournament_tracker/service/GameService.java:60-68 | game id, then the game's season, then the account: the first failing stage's error; on success a game with that number and an account of the named player in that game's season |
| Games.Get | src/main/java/io/games/poker_tournament_tracker/service/GameService.java:76-90 | succeeds exactly for a stored id, giving that game's DTO; otherwise NotFound |
| Games.Create | src/main/java/io/games/poker_tournament_tracker/service/GameService.java:99-109 | NotFound("season not found") with nothing saved for an unknown season; otherwise appends one game with the DTO's fields under the next id |
| Games.Update | src/main/java/io/games/poker_tournament_tracker/service/GameService.java:118-131 | NotFound for an unknown game, then for an unknown season, store unchanged; otherwise number, times, createdAt and season replaced, null for omitted values |
| Games.Delete | src/main/java/io/games/poker_tournament_tracker/service/GameService.java:139-147 | removes exactly the rows with that id with no reference check |
| Games.CreateGame | src/main/java/io/games/poker_tournament_tracker/service/GameService.java:215-227 | an unresolved season name fails, store unchanged; otherwise appends one game with that number in that season and null start, end and createdAt, without checking the number |
| Games.GetReferencedWarning | src/main/java/io/games/poker_tournament_tracker/service/GameService.java:235-264 | NotFound for an unknown game; none exactly when nothing references it; otherwise the first buy-in, else result, else participation, with the keys `game.gameBuyIn.game.referenced`, `game.gameResult.game.referenced`, `game.playerParticipation.game.referenced` and that record's id |
| Games.SeasonLookupAgreesWithIdLookup | src/main/java/io/games/poker_tournament_tracker/service/GameService.java:194-206 | when the season lookup succeeds, the id lookup also does, and the game it finds belongs to that season |
| Games.ResolveErrors | src/main/java/io/games/poker_tournament_tracker/service/GameService.java:60-68 | resolution fails only with EmptyResult, IncorrectResultSize, NullReference or one of the three account NotFound messages; "Game not found" cannot surface |
| Games.ResolveDependsOnReferencedTables | src/main/java/io/games/poker_tournament_tracker/service/GameService.java:194-206 | resolution reads only the game, season, player and account tables |
| Games.ResolveWithForeignKeys | src/main/java/io/games/poker_tournament_tracker/service/GameService.java:194-206 | when every reference resolves, a game's season always exists, so "Season not found" does not occur |
| Games.CreateGameThenFind | src/main/java/io/games/poker_tournament_tracker/service/GameService.java:215-227 | a game created under an unused number is found by number with its new id and belongs to the named season |
| Games.CreateGameTwiceAmbiguous | src/main/java/io/games/poker_tournament_tracker/service/GameService.java:215-227 | the same number may be created twice, even across seasons, after which both number lookups fail with IncorrectResultSize |
| Games.DeleteUnreferencedKeepsForeignKeys | src/main/java/io/games/poker_tournament_tracker/service/GameService.java:139-147 | deleting a game with no warning keeps every reference resolvable |
| Games.DeleteIgnoresWarning | src/main/java/io/games/poker_tournament_tracker/service/GameService.java:139-147 | deleting a warned game still removes it and leaves a dangling reference |
| GameService.Create | src/main/java/io/games/poker_tournament_tracker/service/GameService.java:99-109 | the store performs `Games.Create` |
| GameService.Update | src/main/java/io/games/poker_tournament_tracker/service/GameService.java:118-131 | the store performs `Games.Update` |
| GameService.Delete | src/main/java/io/games/poker_tournament_tracker/service/GameService.java:139-147 | the store becomes `Games.Delete` of the old store |
| GameService.CreateGame | src/main/java/io/games/poker_tournament_tracker/service/GameService.java:215-227 | the store performs `Games.CreateGame` |
| GameBuyIns.MapToEntity | src/main/java/io/games/poker_tournament_tracker/service/GameBuyInService.java:154-171 | succeeds exactly when both references resolve; NotFound("game not found") first, then NotFound("seasonPlayer not found"); keeps the id, mapping back gives the DTO's amount, game and account |
| GameBuyIns.Get | src/main/java/io/games/poker_tournament_tracker/service/GameBuyInService.java:55-69 | succeeds exactly for a stored id, giving that buy-in's DTO; otherwise NotFound |
| GameBuyIns.Create | src/main/java/io/games/poker_tournament_tracker/service/GameBuyInService.java:78-88 | fails as mapToEntity does with nothing saved; otherwise appends one buy-in with the DTO's fields under the next id |
| GameBuyIns.Update | src/main/java/io/games/poker_tournament_tracker/service/GameBuyInService.java:97-111 | NotFound for an unknown id, then for unresolvable references, store unchanged; otherwise amount, game and account replaced |
| GameBuyIns.Delete | src/main/java/io/games/poker_tournament_tracker/service/GameBuyInService.java:119-127 | removes exactly the rows with that id; nothing else changes |
| GameBuyIns.CreateGameBuyIn | src/main/java/io/games/poker_tournament_tracker/service/GameBuyInService.java:181-201 | fails exactly when game id, season of the game number or account fails, with that error and the store unchanged; otherwise appends one buy-in with exactly the given amount for that game and account |
| GameBuyIns.CreateGameBuyInKeepsForeignKeys | src/main/java/io/games/poker_tournament_tracker/service/GameBuyInService.java:181-201 | references stay resolvable and the account table, hence every currentPotSize, is unchanged |
| GameBuyIns.CreateGameBuyInTwice | src/main/java/io/games/poker_tournament_tracker/service/GameBuyInService.java:181-201 | a second identical call also succeeds and adds a second buy-in equal to the first up to id: no (game, account) uniqueness |
| GameBuyInService.Create | src/main/java/io/games/poker_tournament_tracker/service/GameBuyInService.java:78-88 | the store performs `GameBuyIns.Create` |
| GameBuyInService.Update | src/main/java/io/games/poker_tournament_tracker/service/GameBuyInService.java:97-111 | the store performs `GameBuyIns.Update` |
| GameBuyInService.Delete | src/main/java/io/games/poker_tournament_tracker/service/GameBuyInService.java:119-127 | the store becomes `GameBuyIns.Delete` of the old store |
| GameBuyInService.CreateGameBuyIn | src/main/java/io/games/poker_tournament_tracker/service/GameBuyInService.java:181-201 | the stepwise lookups and create realise `GameBuyIns.CreateGameBuyIn` atomically |
| GameResults.MapToEntity | src/main/java/io/games/poker_tournament_tracker/service/GameResultService.java:156-173 | succeeds exactly when both references resolve; NotFound("game not found") first, then NotFound("seasonPlayer not found"); keeps the id, mapping back gives the DTO's winnings, game and account |
| GameResults.Get | src/main/java/io/games/poker_tournament_tracker/service/GameResultService.java:57-71 | succeeds exactly for a stored id, giving that result's DTO; otherwise NotFound |
| GameResults.Create | src/main/java/io/games/poker_tournament_tracker/service/GameResultService.java:80-90 | fails as mapToEntity does with nothing saved; otherwise appends one result with the DTO's fields under the next id |
| GameResults.Update | src/main/java/io/games/poker_tournament_tracker/service/GameResultService.java:99-113 | NotFound for an unknown id, then for unresolvable references, store unchanged; otherwise winnings, game and account replaced |
| GameResults.Delete | src/main/java/io/games/poker_tournament_tracker/service/GameResultService.java:121-129 | removes exactly the rows with that id; nothing else changes |
| GameResults.CreateGameResult | src/main/java/io/games/poker_tournament_tracker/service/GameResultService.java:183-203 | fails exactly when game id, season of the game number or account fails, with that error and the store unchanged; otherwise appends one result with exactly the given winnings for that game and account |
| GameResults.CreateGameResultKeepsForeignKeys | src/main/java/io/games/poker_tournament_tracker/service/GameResultService.java:183-203 | references stay resolvable and the account table, hence every currentPotSize, is unchanged |
| GameResults.CreateGameResultTwice | src/main/java/io/games/poker_tournament_tracker/service/GameResultService.java:183-203 | a second identical call also succeeds and adds a second result equal to the first up to id: no (game, account) uniqueness |
| GameResultService.Create | src/main/java/io/games/poker_tournament_tracker/service/GameResultService.java:80-90 | the store performs `GameResults.Create` |
| GameResultService.Update | src/main/java/io/games/poker_tournament_tracker/service/GameResultService.java:99-113 | the store performs `GameResults.Update` |
| GameResultService.Delete | src/main/java/io/games/poker_tournament_tracker/service/GameResultService.java:121-129 | the store becomes `GameResults.Delete` of the old store |
| GameResultService.CreateGameResult | src/main/java/io/games/poker_tournament_tracker/service/GameResultService.java:183-203 | the stepwise lookups and create realise `GameResults.CreateGameResult` atomically |
| Participations.MapToEntity | src/main/java/io/games/poker_tournament_tracker/service/PlayerParticipationService.java:177-204 | succeeds exactly when both references resolve; NotFound("Game not found with id: <id>") first, then NotFound("Season player not found with id: <id>"); keeps the id, mapping back gives the DTO's flag, time, game and account |
| Participations.Get | src/main/java/io/games/poker_tournament_tracker/service/PlayerParticipationService.java:68-83 | succeeds exactly for a stored id; an unknown id gives the NotFound wrapped in "Failed to retrieve ..." |
| Participations.Create | src/main/java/io/games/poker_tournament_tracker/service/PlayerParticipationService.java:92-102 | a mapping failure is wrapped in "Failed to create player participation" with nothing saved; otherwise appends one participation with the DTO's fields |
| Participations.Update | src/main/java/io/games/poker_tournament_tracker/service/PlayerParticipationService.java:111-129 | an unknown id and an unresolvable reference both fail wrapped in the update message, store unchanged; otherwise all four fields are replaced |
| Participations.Delete | src/main/java/io/games/poker_tournament_tracker/service/PlayerParticipationService.java:137-146 | removes exactly the rows with that id; afterwards get fails |
| Participations.ResolveAccountAndGame | src/main/java/io/games/poker_tournament_tracker/service/PlayerParticipationService.java:214-243 | season of the game number, then the account, then the game id: the first failing stage's error; both ids stored |
| Participations.CreatePlayerParticipation | src/main/java/io/games/poker_tournament_tracker/service/PlayerParticipationService.java:214-243 | fails exactly when resolution fails, with the error wrapped in the createPlayerParticipation message and the store unchanged; otherwise appends the resolved participation under the next id |
| Participations.NotFoundMessageInjective | src/main/java/io/games/poker_tournament_tracker/service/PlayerParticipationService.java:74-77 | the NotFound message determines the participation id |
| Participations.LookupOrderIrrelevantOnSuccess | src/main/java/io/games/poker_tournament_tracker/service/PlayerParticipationService.java:221-225 | this resolution order and the buy-in order succeed on the same inputs and give the same (game, account) pair |
| Participations.ResolveErrors | src/main/java/io/games/poker_tournament_tracker/service/PlayerParticipationService.java:214-243 | resolution fails only with "Game not found", IncorrectResultSize, NullReference or an account NotFound; an unknown game number gives "Game not found" |
| Participations.CreatePlayerParticipationRecords | src/main/java/io/games/poker_tournament_tracker/service/PlayerParticipationService.java:221-229 | the new row has participated true exactly when the choice is YES, a null participationTime, the game with that number and the named player's account in that game's season |
| Participations.CreatePlayerParticipationKeepsForeignKeys | src/main/java/io/games/poker_tournament_tracker/service/PlayerParticipationService.java:214-243 | a recorded participation keeps every reference resolvable |
| PlayerParticipationService.Create | src/main/java/io/games/poker_tournament_tracker/service/PlayerParticipationService.java:92-102 | the store performs `Participations.Create` |
| PlayerParticipationService.Update | src/main/java/io/games/poker_tournament_tracker/service/PlayerParticipationService.java:111-129 | the store performs `Participations.Update` |
| PlayerParticipationService.Delete | src/main/java/io/games/poker_tournament_tracker/service/PlayerParticipationService.java:137-146 | the store becomes `Participations.Delete` of the old store |
| PlayerParticipationService.CreatePlayerParticipation | src/main/java/io/games/poker_tournament_tracker/service/PlayerParticipationService.java:214-243 | the stepwise lookups, their failures wrapped, realise `Participations.CreatePlayerParticipation` |
| PokerSeasonImpl.CreateSeason | src/main/java/io/games/poker_tournament_tracker/service/impl/PokerSeasonImpl.java:40-47 | the store becomes `Seasons.CreateSeason` with `today`: one season, startDate today, endDate and createdAt null |
| PokerSeasonPlayerImpl.CreateSeasonPlayers | src/main/java/io/games/poker_tournament_tracker/service/impl/PokerSeasonPlayerImpl.java:20-34 | season resolved before get-or-create, null-id guard, then one new account: the same transition as `SeasonPlayers.CreateSeasonPlayers` |
| PokerGamesImpl.CreateGame | src/main/java/io/games/poker_tournament_tracker/service/impl/PokerGamesImpl.java:16-21 | the same transition as `Games.CreateGame`: unknown season fails with nothing added; otherwise one game, times null, no number check |
| GameBuyInImpl.CreateGameBuyIn | src/main/java/io/games/poker_tournament_tracker/service/impl/GameBuyInImpl.java:19-28 | game id, season, account, then create: the same transition as `GameBuyIns.CreateGameBuyIn`, so no pot is debited |
| GameResultsImpl.CreateGameResult | src/main/java/io/games/poker_tournament_tracker/service/impl/GameResultsImpl.java:19-28 | the same transition as `GameResults.CreateGameResult`, so no currentPotSize changes |
| PokerPlayerParticipationImpl.CreateOutcome | src/main/java/io/games/poker_tournament_tracker/service/impl/PokerPlayerParticipationImpl.java:22-31 | on success the service's transition; on failure the very error the service wraps, never itself wrapped |
| PokerPlayerParticipationImpl.CreatePlayerParticipation | src/main/java/io/games/poker_tournament_tracker/service/impl/PokerPlayerParticipationImpl.java:22-31 | season, account, game id, then the service's create: the store performs `CreateOutcome` |

## Left out

- The REST resource, the Jackson and domain configuration, and `findAll`: these are transport, framework setup and plain listing with no invariant.
- Logging and `System.out.println`.
- `LocalDate.now()` is the `today` parameter of `Seasons.CreateSeason` and `PokerSeasonImpl.CreateSeason`.
- Transactions and concurrency: each operation is one sequential, atomic transition, so the race in get-or-create on the same new name is not modelled. The impl classes are not transactional. Their outcome is still atomic, because the final `create` cannot fail once every lookup has succeeded, and the model proves this.
- `double` and `BigDecimal` amounts are integer cents (`Cents`), with no conversion, rounding or scale.
- Column constraints of the schema are not modelled, although these paths do reach them. The model reports success for a write that the database might reject:
  - storing a null reference in a join column declared `nullable = false`: the account's season and player (domain/SeasonPlayer.java:43,47), the game's season (domain/Game.java:43), and the game and account of a result (domain/GameResult.java:35,39) or a participation (domain/PlayerParticipation.java:37,41). Create and update of these, and of buy-ins, accept a DTO with a null reference;
  - clearing a season's `startDate`, which is `nullable = false`, through `Seasons.Update`;
  - a player name longer than 100 characters through `Players.GetOrCreatePlayerIdByName` or create/update (domain/Player.java:30), and a season name longer than 100 characters (domain/Season.java:32);
  - precision 14 and scale 2 on amounts;
  - deleting a row that is still referenced, which the schema's foreign keys would refuse. Foreign keys appear only as the predicate `Store.ForeignKeysHold`, and the `DeleteIgnoresWarning` lemmas show the services themselves do not block the delete.
- Null names, null amounts and a null `participated` flag are not modelled. String and money fields are plain values; only references and dates/instants are optional.
- Database row order is unspecified. "First" means first in table order, which stands for whichever row the database returns first.
- `domain/GameBuyIn.java` is not part of this model. The buy-in entity has the fields of `GameBuyInDTO`.
- A lookup by a null id (`findById(null)`) and `getSeasonPlayerIdByPlayerNameAndSeasonId` with a null season id are not modelled: ids are plain values.
- `deleteById` on an unknown id removes nothing and raises no error, so `PlayerParticipationService.delete`'s wrapping of a failure never applies.
- `PokerSeasonPlayerImpl.CreateSeasonPlayers`: the IllegalState guard for a null player id is modelled but cannot fire, since get-or-create always returns an id.
- Behaviour that comments describe but the code does not implement is not modelled. Lemmas show that it does not happen:
  - pot debit on a buy-in: `GameBuyIns.CreateGameBuyInKeepsForeignKeys`;
  - (game, account) uniqueness: `GameBuyIns.CreateGameBuyInTwice`;
  - blocked deletes: the `DeleteIgnoresWarning` lemmas;
  - amount-range rejection: no operation constrains an amount.
- `createdAt` is not filled in automatically by any of these paths, because no auditing listener is part of them. A new season, game or player has null `createdAt`.
