/** What the schema enforces: CHECK constraints on one row, and the guard
    triggers over the stored row, the written row and the tables they query. A
    gate that does not allow a write raises, which aborts the transaction. */
module Gates {
  import opened Model

  // ---------- CHECK constraints ----------

  predicate ScoreFits(score: Option<int>) {
    score.Some? ==> 0 <= score.value <= 32767   // smallint
  }

  predicate OddsFit(odds: real) {
    1.0 < odds < 100.0                          // numeric(4, 2)
  }

  predicate MatchRowOk(m: Match) {
    && OddsFit(m.homeOdds) && OddsFit(m.awayOdds)
    && ScoreFits(m.homeScore) && ScoreFits(m.awayScore)
    && (m.homeScore.None? <==> m.awayScore.None?)
    && (m.homeScore.Some? <==> (m.status.MatchInProgress? || m.status.MatchClosed?))
    && m.homeTeamId != m.awayTeamId
    && (m.status.MatchClosed? <==> m.endedAt.Some?)
    && (m.endedAt.Some? ==> m.startsAt < m.endedAt.value)
  }

  const ACC_LIMIT: real := 100000000000000.0    // numeric(18, 4)

  predicate RideRowOk(ride: Ride) {
    && ride.tokensLocked > 0
    && ride.baseAtLock > 0.0
    && 0.0 <= ride.acc < ACC_LIMIT
    && ride.streak >= 0
  }

  predicate RoundRowOk(round: Round) {
    1 <= round.number <= ROUNDS_PER_SEASON
  }

  // ---------- rides_state_insert_gate ----------

  predicate RideInsertAllowed(ride: Ride) {
    ride.state == Locked
  }

  // ---------- rides_state_gate ----------

  predicate FrozenWhenTerminal(before: Ride, after: Ride) {
    Terminal(before.state) ==> after.state == before.state && after.matchId == before.matchId
  }

  predicate MatchMovesOnlyOnContinuation(before: Ride, after: Ride) {
    after.matchId != before.matchId ==> before.state == WonPending && after.state == Locked
  }

  predicate StateEdge(from: RideState, to: RideState) {
    || (from == Locked && to in {WonPending, Lost})
    || (from == WonPending && to in {Locked, Burned, Unlocked})
  }

  predicate NoAccOnForfeit(after: Ride) {
    after.state in {Unlocked, Lost} ==> after.acc == 0.0
  }

  /** Checks 1 to 4: the ones that look at the two row versions only. */
  predicate RideRowChange(before: Ride, after: Ride) {
    && FrozenWhenTerminal(before, after)
    && MatchMovesOnlyOnContinuation(before, after)
    && (after.state != before.state ==> StateEdge(before.state, after.state))
    && NoAccOnForfeit(after)
  }

  /** The gate's own verdict on the ride's team, from the scores and teams. */
  predicate TeamWon(m: Match, teamId: int)
    requires m.homeScore.Some? && m.awayScore.Some?
  {
    || (teamId == m.homeTeamId && m.homeScore.value > m.awayScore.value)
    || (teamId == m.awayTeamId && m.awayScore.value > m.homeScore.value)
  }

  /** Check 5: a settled ride agrees with the scores its match carries. */
  predicate ResultAgrees(t: Tables, before: Ride, after: Ride) {
    before.state == Locked && after.state in {WonPending, Lost} ==>
      && after.matchId in t.matches
      && var m := t.matches[after.matchId];
         m.homeScore.Some? && m.awayScore.Some? && (after.state == WonPending <==> TeamWon(m, after.teamId))
  }

  predicate RideUpdateAllowed(t: Tables, before: Ride, after: Ride) {
    RideRowChange(before, after) && ResultAgrees(t, before, after)
  }

  lemma GateReadsMatches(t: Tables, u: Tables, before: Ride, after: Ride)
    requires u.matches == t.matches
    ensures RideUpdateAllowed(u, before, after) <==> RideUpdateAllowed(t, before, after)
  {
  }

  // ---------- matches: freeze gate and the ended_at trigger ----------

  predicate MatchUpdateAllowed(now: int, before: Match, after: Match) {
    !(after.status in {MatchCreated, MatchPostponed} && before.startsAt <= now)
  }

  /** The trigger stamps the database clock on the transition into closed. */
  function StampEnd(now: int, before: Match, after: Match): Match {
    if after.status.MatchClosed? && !before.status.MatchClosed? then after.(endedAt := Some(now)) else after
  }

  // ---------- rounds ----------

  predicate RoundHasStartedMatch(t: Tables, now: int, roundId: int) {
    exists m | m in t.matches :: t.matches[m].roundId == roundId && t.matches[m].startsAt <= now
  }

  predicate RoundFreezeAllows(t: Tables, now: int, roundId: int, after: Round) {
    !(after.status in {RoundCreated, RoundOpen} && RoundHasStartedMatch(t, now, roundId))
  }

  predicate ClosedIn(rounds: map<int, Round>, seasonId: int, r: int) {
    r in rounds && rounds[r].seasonId == seasonId && rounds[r].status == RoundClosed
  }

  /** COALESCE(max(number) over the season's closed rounds, 0) == n. */
  predicate HighestClosedIs(rounds: map<int, Round>, seasonId: int, n: int) {
    if exists r | r in rounds :: ClosedIn(rounds, seasonId, r) then
      && (forall r | r in rounds :: ClosedIn(rounds, seasonId, r) ==> rounds[r].number <= n)
      && (exists r | r in rounds :: ClosedIn(rounds, seasonId, r) && rounds[r].number == n)
    else
      n == 0
  }

  predicate SeasonLive(t: Tables, seasonId: int) {
    seasonId in t.seasons && t.seasons[seasonId].status in {SeasonOpen, SeasonInProgress}
  }

  /** The writes rounds_progress_gate looks at: forward moves and renumberings. */
  predicate IsProgress(before: Round, after: Round) {
    && after.status in {RoundOpen, RoundClosed}
    && (|| before.status == RoundCreated
        || (before.status == RoundOpen && after.status == RoundClosed)
        || before.number != after.number)
  }

  predicate RoundProgressAllows(t: Tables, before: Round, after: Round) {
    IsProgress(before, after) ==>
      SeasonLive(t, after.seasonId) && HighestClosedIs(t.rounds, after.seasonId, after.number - 1)
  }

  predicate RoundCloseAllows(t: Tables, roundId: int, before: Round, after: Round) {
    after.status == RoundClosed && before.status != RoundClosed ==>
      && (forall m | m in t.matches :: t.matches[m].roundId == roundId ==> t.matches[m].status == MatchClosed)
      && (forall id | id in t.rides :: RideInRound(t, t.rides[id], roundId) ==> t.rides[id].state != WonPending)
  }

  /** All three BEFORE UPDATE gates on rounds; a refusal of any maps to the same error. */
  predicate RoundUpdateAllowed(t: Tables, now: int, roundId: int, before: Round, after: Round) {
    && RoundCloseAllows(t, roundId, before, after)
    && RoundFreezeAllows(t, now, roundId, after)
    && RoundProgressAllows(t, before, after)
  }

  /** rounds_season_id_number_key. */
  predicate NumberTaken(rounds: map<int, Round>, roundId: int, seasonId: int, number: int) {
    exists r | r in rounds :: r != roundId && rounds[r].seasonId == seasonId && rounds[r].number == number
  }

  // ---------- seasons ----------

  predicate SeasonHasStartedMatch(t: Tables, now: int, seasonId: int) {
    exists m | m in t.matches :: t.matches[m].seasonId == seasonId && t.matches[m].startsAt <= now
  }

  predicate SeasonUpdateAllowed(t: Tables, now: int, seasonId: int, after: Season) {
    !(after.status in {SeasonCreated, SeasonOpen} && SeasonHasStartedMatch(t, now, seasonId))
  }
}
