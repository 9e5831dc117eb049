/** The rows the game domain stores, the errors it answers with, and the tables
    that hold the rows. Times are whole seconds. Ids are the keys of the maps. */
module Model {
  datatype Option<+T> = None | Some(value: T)

  datatype Error =
    | RecordNotFound
    | EditConflict
    | DuplicateRecord
    | RecordInUse
    | RoundNotOpen
    | NoNextMatch
    | InvalidRoundPhase
    | InvalidTransition
    | IdempotencyConflict
    | InvalidInput          // a validator refused: 422
    | ConstraintViolation   // a CHECK constraint refused: 500
    | Internal              // any other database error: 500
    | Aborted               // the transaction was cancelled: no effect

  datatype Result<+T> = Ok(value: T) | Err(error: Error) {
    predicate IsFailure() {
      Err?
    }

    function PropagateFailure<U>(): Result<U>
      requires Err?
    {
      Err(error)
    }

    function Extract(): T
      requires Ok?
    {
      value
    }
  }

  datatype SeasonStatus = SeasonCreated | SeasonOpen | SeasonInProgress | SeasonClosed
  datatype RoundStatus = RoundCreated | RoundOpen | RoundClosed
  datatype MatchStatus = MatchCreated | MatchPostponed | MatchInProgress | MatchClosed
  datatype RideState = Locked | WonPending | Burned | Unlocked | Lost
  datatype RoundPhase = ActionPhase | MatchPhase | DecisionPhase

  const ROUNDS_PER_SEASON: int := 38

  datatype Season = Season(status: SeasonStatus, version: int)

  datatype Round = Round(seasonId: int, number: int, status: RoundStatus, version: int)

  datatype Match = Match(
    startsAt: int,
    endedAt: Option<int>,
    seasonId: int,
    roundId: int,
    homeTeamId: int,
    awayTeamId: int,
    status: MatchStatus,
    homeOdds: real,
    awayOdds: real,
    homeScore: Option<int>,
    awayScore: Option<int>,
    version: int)

  datatype Ride = Ride(
    playerId: int,
    teamId: int,
    matchId: int,
    state: RideState,
    tokensLocked: int,
    baseAtLock: real,
    acc: real,
    streak: int,
    version: int)

  /** The HTTP answer a ride command stores; the body stands for its bytes. */
  datatype Response = Response(status: int, body: string)

  /** The request's dedup identity; the hash is opaque, only compared. */
  datatype Token = Token(key: string, endpoint: string, hash: string)

  datatype KeyRow = KeyRow(endpoint: string, hash: string, response: Response)

  /** The presentation callback: a ride id and its row to the answer to store. */
  type Marshal = (int, Ride) -> Result<Response>

  datatype Tables = Tables(
    teams: set<int>,
    players: set<int>,
    seasons: map<int, Season>,
    rounds: map<int, Round>,
    matches: map<int, Match>,
    rides: map<int, Ride>,
    keys: map<string, KeyRow>)

  /** The ride's match belongs to the round: rides reach rounds through matches only. */
  predicate RideInRound(t: Tables, ride: Ride, roundId: int) {
    ride.matchId in t.matches && t.matches[ride.matchId].roundId == roundId
  }

  /** The foreign keys of matches and rides. */
  predicate References(t: Tables) {
    && (forall m | m in t.matches :: t.matches[m].roundId in t.rounds)
    && (forall id | id in t.rides :: t.rides[id].matchId in t.matches)
  }

  predicate Terminal(state: RideState) {
    state.Burned? || state.Unlocked? || state.Lost?
  }
}
