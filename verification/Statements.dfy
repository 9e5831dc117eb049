/** The SQL statements, as functions of the tables they run on. A statement's
    WHERE clause is split in the part on the target row and the EXISTS part on
    other tables, so that the part that is re-checked after a lock wait can be
    evaluated on a newer row than the rest. */
module Statements {
  import opened Model
  import opened Schedule
  import opened Phases
  import opened Gates

  // ---------- reads ----------

  predicate RoundKnown(t: Tables, matchId: int) {
    matchId in t.matches && t.matches[matchId].roundId in t.rounds
  }

  function RoundStatusOf(t: Tables, matchId: int): RoundStatus
    requires RoundKnown(t, matchId)
  {
    t.rounds[t.matches[matchId].roundId].status
  }

  predicate RoundOpenFor(t: Tables, matchId: int) {
    RoundKnown(t, matchId) && RoundStatusOf(t, matchId) == RoundOpen
  }

  /** RidePhase: the round-status gate, then the phase of the match's own window. */
  function RidePhase(t: Tables, now: int, matchId: int): Result<RoundPhase> {
    if !RoundKnown(t, matchId) then Err(RecordNotFound)
    else if RoundStatusOf(t, matchId) != RoundOpen then Err(RoundNotOpen)
    else Ok(PhaseOf(now, t.matches[matchId]))
  }

  predicate Upcoming(t: Tables, teamId: int, m: int) {
    && RoundKnown(t, m)
    && (t.matches[m].homeTeamId == teamId || t.matches[m].awayTeamId == teamId)
    && t.matches[m].endedAt.None?
    && RoundStatusOf(t, m) != RoundClosed
  }

  predicate IsNext(t: Tables, teamId: int, m: int) {
    Upcoming(t, teamId, m) && forall b | b in t.matches :: Upcoming(t, teamId, b) ==> NotAfter(t.matches, m, b)
  }

  lemma NextIsUnique(t: Tables, teamId: int, a: int, b: int)
    requires IsNext(t, teamId, a) && IsNext(t, teamId, b)
    ensures a == b
  {
  }

  /** NextForTeam; the service answers ErrNoNextMatch for its not-found. */
  function NextForTeam(t: Tables, teamId: int): Result<int> {
    if exists m | m in t.matches :: IsNext(t, teamId, m) then
      var m :| m in t.matches && IsNext(t, teamId, m);
      Ok(m)
    else
      Err(NoNextMatch)
  }

  lemma NextForTeamIs(t: Tables, teamId: int, m: int)
    requires IsNext(t, teamId, m)
    ensures NextForTeam(t, teamId) == Ok(m)
  {
  }

  lemma NextQualifies(t: Tables, teamId: int)
    requires NextForTeam(t, teamId).Ok?
    ensures IsNext(t, teamId, NextForTeam(t, teamId).value)
  {
  }

  /** The query finds a row exactly when some match qualifies. */
  lemma NoNextMeansNoCandidate(t: Tables, teamId: int)
    ensures NextForTeam(t, teamId).Err? <==> forall m | m in t.matches :: !Upcoming(t, teamId, m)
  {
    var candidates := set m | m in t.matches && Upcoming(t, teamId, m);
    assert forall m | m in t.matches :: Upcoming(t, teamId, m) ==> m in candidates;
    if candidates != {} {
      FirstExists(t.matches, candidates);
      var m :| m in candidates && forall b | b in candidates :: NotAfter(t.matches, m, b);
      assert IsNext(t, teamId, m);
    }
  }

  // ---------- idempotency keys ----------

  const PLACEHOLDER: Response := Response(0, "")

  /** The lost claim: the stored answer, or the key's misuse. */
  function StoredAnswer(row: KeyRow, token: Token): Result<Response> {
    if row.hash == token.hash then Ok(row.response) else Err(IdempotencyConflict)
  }

  function ClaimRow(token: Token): KeyRow {
    KeyRow(token.endpoint, token.hash, PLACEHOLDER)
  }

  function PutKey(t: Tables, key: string, row: KeyRow): Tables {
    t.(keys := t.keys[key := row])
  }

  function Save(t: Tables, token: Token, response: Response): Result<Tables> {
    if token.key in t.keys then Ok(PutKey(t, token.key, t.keys[token.key].(response := response)))
    else Err(IdempotencyConflict)
  }

  // ---------- rides ----------

  function PutRide(t: Tables, id: int, ride: Ride): Tables {
    t.(rides := t.rides[id := ride])
  }

  /** Why the guarded insert wrote no row. */
  function InsertRefusal(t: Tables, matchId: int): Error {
    if !RoundKnown(t, matchId) then RecordNotFound
    else if RoundStatusOf(t, matchId) != RoundOpen then RoundNotOpen
    else Internal
  }

  /** Trigger, CHECK and foreign keys of the inserted row. */
  function InsertRowError(t: Tables, ride: Ride): Option<Error> {
    if !RideInsertAllowed(ride) then Some(Internal)
    else if !RideRowOk(ride) then Some(ConstraintViolation)
    else if ride.playerId !in t.players || ride.teamId !in t.teams then Some(RecordNotFound)
    else None
  }

  function InsertGuarded(t: Tables, id: int, ride: Ride): Result<Tables> {
    if !RoundOpenFor(t, ride.matchId) then Err(InsertRefusal(t, ride.matchId))
    else if id in t.rides then Err(Internal)
    else if InsertRowError(t, ride).Some? then Err(InsertRowError(t, ride).value)
    else Ok(PutRide(t, id, ride.(version := 1)))
  }

  /** guardedUpdateSQL's WHERE: the row part on `row`, the EXISTS part on `t`. */
  predicate UpdateGuard(t: Tables, row: Ride, version: int, destination: int) {
    && row.version == version
    && row.state == WonPending
    && RoundOpenFor(t, row.matchId)
    && (destination == 0
        || (&& RoundKnown(t, destination)
            && t.matches[destination].endedAt.None?
            && RoundStatusOf(t, destination) != RoundClosed))
  }

  /** The SET clause: the mutated ride's columns over the stored row. */
  function UpdatedRow(row: Ride, next: Ride): Ride {
    row.(matchId := next.matchId, state := next.state, acc := next.acc, streak := next.streak,
        version := row.version + 1)
  }

  function UpdateRowError(t: Tables, row: Ride, written: Ride): Option<Error> {
    if !RideUpdateAllowed(t, row, written) then Some(InvalidTransition)
    else if !RideRowOk(written) then Some(ConstraintViolation)
    else None
  }

  function UpdateGuarded(t: Tables, id: int, next: Ride, destination: int): Result<Tables> {
    if id !in t.rides || !UpdateGuard(t, t.rides[id], next.version, destination) then Err(RoundNotOpen)
    else
      var written := UpdatedRow(t.rides[id], next);
      if UpdateRowError(t, t.rides[id], written).Some? then Err(UpdateRowError(t, t.rides[id], written).value)
      else Ok(PutRide(t, id, written))
  }

  /** UpdateAllForMatchTx's CASE: a NULL score makes both comparisons unknown. */
  function SettledState(m: Match, teamId: int): RideState {
    if m.homeScore.None? || m.awayScore.None? then Lost
    else if m.homeScore.value > m.awayScore.value && teamId == m.homeTeamId then WonPending
    else if m.homeScore.value < m.awayScore.value && teamId == m.awayTeamId then WonPending
    else Lost
  }

  function SettledRow(m: Match, ride: Ride): Ride {
    ride.(state := SettledState(m, ride.teamId), version := ride.version + 1)
  }

  predicate OnMatch(ride: Ride, matchId: int) {
    ride.matchId == matchId && ride.state == Locked
  }

  /** The set-based settlement: all targets, or none when the gate refuses one.
      No CHECK constraint reads a column the statement changes. */
  function SettleAll(t: Tables, matchId: int): Result<Tables> {
    if matchId !in t.matches then Ok(t)
    else
      var m := t.matches[matchId];
      if forall id | id in t.rides :: OnMatch(t.rides[id], matchId) ==>
          RideUpdateAllowed(t, t.rides[id], SettledRow(m, t.rides[id]))
      then Ok(t.(rides := map id | id in t.rides ::
                   if OnMatch(t.rides[id], matchId) then SettledRow(m, t.rides[id]) else t.rides[id]))
      else Err(InvalidTransition)
  }

  /** Auto-unlock for rounds 1 to 37, auto-burn for the season's last. */
  function AutoRow(number: int, ride: Ride): Ride {
    if number == ROUNDS_PER_SEASON then ride.(state := Burned, version := ride.version + 1)
    else ride.(state := Unlocked, acc := 0.0, version := ride.version + 1)
  }

  predicate Undecided(t: Tables, ride: Ride, roundId: int) {
    RideInRound(t, ride, roundId) && ride.state == WonPending
  }

  function AutoResolveAll(t: Tables, roundId: int, number: int): Result<Tables> {
    if forall id | id in t.rides :: Undecided(t, t.rides[id], roundId) ==>
        RideUpdateAllowed(t, t.rides[id], AutoRow(number, t.rides[id]))
    then Ok(t.(rides := map id | id in t.rides ::
                 if Undecided(t, t.rides[id], roundId) then AutoRow(number, t.rides[id]) else t.rides[id]))
    else Err(InvalidTransition)
  }

  // ---------- matches ----------

  function PutMatch(t: Tables, id: int, m: Match): Tables {
    t.(matches := t.matches[id := m])
  }

  /** ResolveTx's WHERE: the row part on `m`, the EXISTS part on `t`. */
  predicate ResolveGuard(t: Tables, now: int, m: Match, version: int) {
    && m.status == MatchInProgress
    && m.startsAt < now
    && m.endedAt.None?
    && m.version == version
    && m.roundId in t.rounds && t.rounds[m.roundId].status == RoundOpen
  }

  /** The SET clause followed by the trigger, whose clock replaces the caller's end. */
  function ResolvedRow(now: int, m: Match, home: Option<int>, away: Option<int>, endedAt: int): Match {
    StampEnd(now, m, m.(status := MatchClosed, homeScore := home, awayScore := away,
                        endedAt := Some(endedAt), version := m.version + 1))
  }

  function ResolveRefusal(t: Tables, matchId: int): Error {
    if matchId in t.matches then EditConflict else RecordNotFound
  }

  function ResolveMatchRow(t: Tables, now: int, matchId: int, home: Option<int>, away: Option<int>, endedAt: int,
      version: int)
    : (r: Result<Tables>)
    ensures r.Ok? ==> matchId in r.value.matches
  {
    if matchId !in t.matches || !ResolveGuard(t, now, t.matches[matchId], version) then Err(ResolveRefusal(t, matchId))
    else
      var row := ResolvedRow(now, t.matches[matchId], home, away, endedAt);
      if !MatchRowOk(row) then Err(ConstraintViolation) else Ok(PutMatch(t, matchId, row))
  }

  /** MatchStore.Update's SET clause followed by the trigger. */
  function EditedRow(now: int, m: Match, edited: Match): Match {
    StampEnd(now, m, m.(homeTeamId := edited.homeTeamId, awayTeamId := edited.awayTeamId,
                        homeOdds := edited.homeOdds, awayOdds := edited.awayOdds,
                        homeScore := edited.homeScore, awayScore := edited.awayScore,
                        startsAt := edited.startsAt, status := edited.status, version := m.version + 1))
  }

  function EditRowError(now: int, m: Match, written: Match): Option<Error> {
    if !MatchUpdateAllowed(now, m, written) then Some(RecordInUse)
    else if !MatchRowOk(written) then Some(ConstraintViolation)
    else None
  }

  function UpdateMatchRow(t: Tables, now: int, id: int, edited: Match): Result<Tables> {
    if id !in t.matches || t.matches[id].version != edited.version then Err(EditConflict)
    else
      var written := EditedRow(now, t.matches[id], edited);
      if EditRowError(now, t.matches[id], written).Some? then Err(EditRowError(now, t.matches[id], written).value)
      else Ok(PutMatch(t, id, written))
  }

  // ---------- rounds and seasons ----------

  function PutRound(t: Tables, id: int, round: Round): Tables {
    t.(rounds := t.rounds[id := round])
  }

  function RoundRowAfter(row: Round, edited: Round): Round {
    row.(number := edited.number, status := edited.status, version := row.version + 1)
  }

  /** The gates, then the CHECK. */
  function RoundGateError(t: Tables, now: int, id: int, row: Round, written: Round): Option<Error> {
    if !RoundUpdateAllowed(t, now, id, row, written) then Some(RecordInUse)
    else if !RoundRowOk(written) then Some(ConstraintViolation)
    else None
  }

  /** Then the unique index. */
  function RoundRowError(t: Tables, now: int, id: int, row: Round, written: Round): Option<Error> {
    if RoundGateError(t, now, id, row, written).Some? then RoundGateError(t, now, id, row, written)
    else if NumberTaken(t.rounds, id, written.seasonId, written.number) then Some(DuplicateRecord)
    else None
  }

  /** roundUpdateSQL with updateRound's error mapping. */
  function UpdateRoundRow(t: Tables, now: int, id: int, edited: Round): Result<Tables> {
    if id !in t.rounds || t.rounds[id].version != edited.version then Err(EditConflict)
    else
      var written := RoundRowAfter(t.rounds[id], edited);
      if RoundRowError(t, now, id, t.rounds[id], written).Some?
          then Err(RoundRowError(t, now, id, t.rounds[id], written).value)
      else Ok(PutRound(t, id, written))
  }

  function PutSeason(t: Tables, id: int, season: Season): Tables {
    t.(seasons := t.seasons[id := season])
  }

  predicate SeasonAt(t: Tables, id: int, status: SeasonStatus) {
    id in t.seasons && t.seasons[id].status == status
  }

  /** A conditional season flip: no row to flip is not an error. */
  function FlipSeason(t: Tables, id: int, from: SeasonStatus, to: SeasonStatus): Tables {
    if SeasonAt(t, id, from) then PutSeason(t, id, Season(to, t.seasons[id].version + 1)) else t
  }

  function UpdateSeasonRow(t: Tables, now: int, id: int, edited: Season): Result<Tables> {
    if id !in t.seasons || t.seasons[id].version != edited.version then Err(EditConflict)
    else
      var written := Season(edited.status, t.seasons[id].version + 1);
      if !SeasonUpdateAllowed(t, now, id, written) then Err(RecordInUse) else Ok(PutSeason(t, id, written))
  }
}
