/** The entities, transfer objects and failures of the poker tournament ledger.

    Ids are the integers drawn from the database sequence `primary_sequence`.
    Money is counted in integer cents (the columns are `NUMERIC(14, 2)`).
    A timestamp (`OffsetDateTime`) or a date (`LocalDate`) is an opaque integer:
    the core only stores and copies them. A reference to another row is the id
    of that row, or `None` for a Java `null` reference. */
module Domain {

  type Id = int
  type Cents = int
  type Instant = int
  type Day = int

  datatype Option<+T> = None | Some(value: T)

  /** The exceptions the core raises, as values. */
  datatype Error =
    | NotFound(message: string)               // NotFoundException; "" when built without a message
    | EmptyResult                             // a query declared to return a primitive `int` found no row
    | IncorrectResultSize                     // a single-result finder matched more than one row
    | NullReference                           // a `null` reference was dereferenced
    | IllegalState(message: string)           // IllegalStateException
    | Wrapped(message: string, cause: Error)  // new RuntimeException(message, cause)

  datatype Result<+T> = Ok(value: T) | Err(error: Error) {
    predicate IsFailure() { Err? }

    function PropagateFailure<U>(): Result<U>
      requires Err?
    {
      Err(error)
    }

    function Extract(): T
      requires Ok?
    {
      value
    }
  }

  // ---------------------------------------------------------------- entities

  datatype Player = Player(playerId: Id, name: string, createdAt: Option<Instant>)

  datatype Season = Season(
    seasonId: Id,
    name: string,
    startDate: Option<Day>,
    endDate: Option<Day>,
    createdAt: Option<Instant>)

  /** A player's money account in one season. */
  datatype SeasonPlayer = SeasonPlayer(
    seasonPlayerId: Id,
    allocatedPotSize: Cents,
    minBuyIn: Cents,
    currentPotSize: Cents,
    season: Option<Id>,
    player: Option<Id>)

  datatype Game = Game(
    gameId: Id,
    gameNumber: int,
    startTime: Option<Instant>,
    endTime: Option<Instant>,
    createdAt: Option<Instant>,
    season: Option<Id>)

  datatype GameBuyIn = GameBuyIn(
    gameBuyInId: Id,
    buyInAmount: Cents,
    game: Option<Id>,
    seasonPlayer: Option<Id>)

  datatype GameResult = GameResult(
    gameResultId: Id,
    winnings: Cents,
    game: Option<Id>,
    seasonPlayer: Option<Id>)

  datatype PlayerParticipation = PlayerParticipation(
    participationId: Id,
    participated: bool,
    participationTime: Option<Instant>,
    game: Option<Id>,
    seasonPlayer: Option<Id>)

  /** The id a freshly constructed entity carries before `save` assigns the
      next value of the sequence; no row of the store ever keeps it. */
  const Unsaved: Id := 0

  // ---------------------------------------------------------- transfer objects

  datatype PlayerDTO = PlayerDTO(playerId: Option<Id>, name: string, createdAt: Option<Instant>)

  datatype SeasonDTO = SeasonDTO(
    seasonId: Option<Id>,
    name: string,
    startDate: Option<Day>,
    endDate: Option<Day>,
    createdAt: Option<Instant>)

  datatype SeasonPlayerDTO = SeasonPlayerDTO(
    seasonPlayerId: Option<Id>,
    allocatedPotSize: Cents,
    minBuyIn: Cents,
    currentPotSize: Cents,
    season: Option<Id>,
    player: Option<Id>)

  datatype GameDTO = GameDTO(
    gameId: Option<Id>,
    gameNumber: int,
    startTime: Option<Instant>,
    endTime: Option<Instant>,
    createdAt: Option<Instant>,
    season: Option<Id>)

  datatype GameBuyInDTO = GameBuyInDTO(
    gameBuyInId: Option<Id>,
    buyInAmount: Cents,
    game: Option<Id>,
    seasonPlayer: Option<Id>)

  datatype GameResultDTO = GameResultDTO(
    gameResultId: Option<Id>,
    winnings: Cents,
    game: Option<Id>,
    seasonPlayer: Option<Id>)

  datatype PlayerParticipationDTO = PlayerParticipationDTO(
    participationId: Option<Id>,
    participated: bool,
    participationTime: Option<Instant>,
    game: Option<Id>,
    seasonPlayer: Option<Id>)

  /** Why a row may not be deleted: a message key and the id of the first
      dependent row found. */
  datatype ReferencedWarning = ReferencedWarning(key: string, params: seq<int>)

  /** The answer a caller gives when recording a participation
      (the enum `service.impl.PlayerParticipation`). */
  datatype Participation = YES | NO

  // ------------------------------------------------------------------- text

  /** Java's decimal rendering of an int, as used in `"..." + id`. */
  function IntToString(i: int): string
  {
    if i < 0 then "-" + NatToString(-i) else NatToString(i)
  }

  function NatToString(n: nat): string
  {
    if n < 10 then [DigitChar(n)] else NatToString(n / 10) + [DigitChar(n % 10)]
  }

  function DigitChar(d: nat): char
    requires d < 10
  {
    "0123456789"[d]
  }

  /** The decimal rendering loses nothing: different numbers, different text. */
  lemma {:induction false} NatToStringInjective(m: nat, n: nat)
    requires NatToString(m) == NatToString(n)
    ensures m == n
  {
    if m < 10 && n < 10 {
      assert NatToString(m)[0] == DigitChar(m);
    } else if m < 10 || n < 10 {
      var big := if m < 10 then n else m;
      NatToStringLength(big / 10);
    } else {
      var sm, sn := NatToString(m / 10), NatToString(n / 10);
      assert NatToString(m) == sm + [DigitChar(m % 10)];
      assert NatToString(n) == sn + [DigitChar(n % 10)];
      assert |sm| == |sn|;
      assert sm == NatToString(m)[..|sm|] == NatToString(n)[..|sn|] == sn;
      assert DigitChar(m % 10) == NatToString(m)[|sm|] == DigitChar(n % 10);
      NatToStringInjective(m / 10, n / 10);
    }
  }

  lemma {:induction false} NatToStringLength(n: nat)
    ensures |NatToString(n)| >= 1
    ensures forall i :: 0 <= i < |NatToString(n)| ==> NatToString(n)[i] != '-'
  {
    if n >= 10 {
      NatToStringLength(n / 10);
      assert NatToString(n) == NatToString(n / 10) + [DigitChar(n % 10)];
    }
  }

  lemma IntToStringInjective(i: int, j: int)
    requires IntToString(i) == IntToString(j)
    ensures i == j
  {
    var si, sj := IntToString(i), IntToString(j);
    if i < 0 && j < 0 {
      assert si[1..] == NatToString(-i) && sj[1..] == NatToString(-j);
      NatToStringInjective(-i, -j);
    } else if i >= 0 && j >= 0 {
      NatToStringInjective(i, j);
    } else {
      var n := if i >= 0 then i else j;
      NatToStringLength(n);
      assert NatToString(n)[0] != '-';
    }
  }
}
