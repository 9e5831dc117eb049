/** The rules of the game in plain terms: over the rows, the clock and literal numbers,
    without a gate, a statement or a validator of the model. Each command is proved to
    answer and to write what they say. */
module Rules {
  import opened Model
  import opened Commands

  // ---------- times ----------

  /** More than an hour before the start. */
  predicate InAction(m: Match, now: int) {
    now < m.startsAt - 3600
  }

  /** An hour after the end at the earliest. */
  predicate InDecision(m: Match, now: int) {
    m.endedAt.Some? && m.startsAt - 3600 <= now && m.endedAt.value + 3600 <= now
  }

  predicate RoundHasStarted(t: Tables, roundId: int, now: int) {
    exists m | m in t.matches :: t.matches[m].roundId == roundId && t.matches[m].startsAt <= now
  }

  predicate SeasonHasStarted(t: Tables, seasonId: int, now: int) {
    exists m | m in t.matches :: t.matches[m].seasonId == seasonId && t.matches[m].startsAt <= now
  }

  // ---------- matches and their rounds ----------

  predicate HasRound(t: Tables, m: int) {
    m in t.matches && t.matches[m].roundId in t.rounds
  }

  predicate InOpenRound(t: Tables, m: int) {
    HasRound(t, m) && t.rounds[t.matches[m].roundId].status == RoundOpen
  }

  /** A match a won ride of the team may continue to. */
  predicate IsCandidate(t: Tables, teamId: int, m: int) {
    && HasRound(t, m)
    && (t.matches[m].homeTeamId == teamId || t.matches[m].awayTeamId == teamId)
    && t.matches[m].endedAt == None
    && (t.rounds[t.matches[m].roundId].status == RoundCreated || t.rounds[t.matches[m].roundId].status == RoundOpen)
  }

  /** The team's next match: no candidate starts earlier, and of those that start with it
      none has a smaller id. */
  predicate IsNextMatch(t: Tables, teamId: int, m: int) {
    && IsCandidate(t, teamId, m)
    && forall b | b in t.matches :: IsCandidate(t, teamId, b) ==>
         || t.matches[m].startsAt < t.matches[b].startsAt
         || (t.matches[m].startsAt == t.matches[b].startsAt && m <= b)
  }

  predicate WonBy(m: Match, home: int, away: int, teamId: int) {
    (teamId == m.homeTeamId && home > away) || (teamId == m.awayTeamId && away > home)
  }

  // ---------- rides ----------

  /** Why a creation under a fresh key is refused; id is the identity it draws. */
  function CreationRefusal(t: Tables, input: Ride, now: int, id: int): Option<Error> {
    if !HasRound(t, input.matchId) then Some(RecordNotFound)
    else if !InOpenRound(t, input.matchId) then Some(RoundNotOpen)
    else if !InAction(t.matches[input.matchId], now) then Some(InvalidRoundPhase)
    else if id in t.rides then Some(Internal)
    else if input.tokensLocked <= 0 || input.baseAtLock <= 0.0 then Some(ConstraintViolation)
    else if input.playerId !in t.players || input.teamId !in t.teams then Some(RecordNotFound)
    else None
  }

  /** Whatever state, bonus, streak and version the caller supplied is discarded. */
  function CreatedRow(input: Ride): Ride {
    input.(state := Locked, acc := 0.0, streak := 0, version := 1)
  }

  /** Why a decision under a fresh key is refused. */
  function DecisionRefusal(t: Tables, decision: Decision, rideId: int, now: int): Option<Error> {
    if rideId !in t.rides then Some(RecordNotFound)
    else
      var ride := t.rides[rideId];
      if !HasRound(t, ride.matchId) then Some(RecordNotFound)
      else if !InOpenRound(t, ride.matchId) then Some(RoundNotOpen)
      else if decision == Continue && forall m | m in t.matches :: !IsCandidate(t, ride.teamId, m)
          then Some(NoNextMatch)
      else if !InDecision(t.matches[ride.matchId], now) then Some(InvalidRoundPhase)
      else if ride.state != WonPending then Some(InvalidTransition)
      else if !FitsColumns(ride, decision) then Some(ConstraintViolation)
      else None
  }

  /** The decided row passes the CHECK constraints: of a row that passes them it always does. */
  predicate FitsColumns(ride: Ride, decision: Decision) {
    && ride.tokensLocked > 0 && ride.baseAtLock > 0.0
    && (decision == Unlock || 0.0 <= ride.acc < 100000000000000.0)
    && (if decision == Continue then ride.streak >= -1 else ride.streak >= 0)
  }

  /** What a decision writes. */
  predicate DecisionWrites(t: Tables, decision: Decision, ride: Ride, row: Ride) {
    match decision
    case Continue =>
      && IsNextMatch(t, ride.teamId, row.matchId)
      && row == ride.(state := Locked, matchId := row.matchId, streak := ride.streak + 1, version := ride.version + 1)
    case Burn => row == ride.(state := Burned, version := ride.version + 1)
    case Unlock => row == ride.(state := Unlocked, acc := 0.0, version := ride.version + 1)
  }

  // ---------- resolution ----------

  predicate LosesABonus(t: Tables, matchId: int, home: int, away: int, id: int)
    requires matchId in t.matches && id in t.rides
  {
    && t.rides[id].matchId == matchId && t.rides[id].state == Locked
    && !WonBy(t.matches[matchId], home, away, t.rides[id].teamId) && t.rides[id].acc != 0.0
  }

  /** Why the score write is refused. */
  function ScoreRefusal(t: Tables, matchId: int, home: Option<int>, away: Option<int>, version: int, now: int)
    : Option<Error>
  {
    if matchId !in t.matches then Some(RecordNotFound)
    else
      var m := t.matches[matchId];
      if m.status != MatchInProgress || m.startsAt >= now || m.endedAt != None || m.version != version
          || !InOpenRound(t, matchId) then Some(EditConflict)
      else if home.None? || away.None? || !(0 <= home.value <= 32767) || !(0 <= away.value <= 32767)
          || !(1.0 < m.homeOdds < 100.0) || !(1.0 < m.awayOdds < 100.0) || m.homeTeamId == m.awayTeamId
          then Some(ConstraintViolation)
      else None
  }

  /** Why a resolution is refused: no score was written, or a ride that loses has a bonus. */
  function ResolutionRefusal(t: Tables, matchId: int, home: Option<int>, away: Option<int>, version: int, now: int)
    : Option<Error>
  {
    var refusal := ScoreRefusal(t, matchId, home, away, version, now);
    if refusal.Some? then refusal
    else if exists id | id in t.rides :: LosesABonus(t, matchId, home.value, away.value, id)
        then Some(InvalidTransition)
    else None
  }

  /** The scores as the request gives them, the end as the database clock does. */
  function ResolvedMatch(m: Match, home: int, away: int, now: int): Match {
    m.(status := MatchClosed, homeScore := Some(home), awayScore := Some(away), endedAt := Some(now),
       version := m.version + 1)
  }

  function SettledRide(t: Tables, matchId: int, home: int, away: int, ride: Ride): Ride
    requires matchId in t.matches
  {
    if ride.matchId == matchId && ride.state == Locked then
      ride.(state := if WonBy(t.matches[matchId], home, away, ride.teamId) then WonPending else Lost,
            version := ride.version + 1)
    else ride
  }

  // ---------- what the ride gate lets pass ----------

  predicate HasResult(t: Tables, m: int) {
    m in t.matches && t.matches[m].homeScore.Some? && t.matches[m].awayScore.Some?
  }

  /** Nothing but a settlement by the result, a continuation to any match, or an exit
      changes the state; nothing but a continuation changes the match; who forfeits
      keeps no bonus. */
  predicate MayBecome(t: Tables, before: Ride, after: Ride) {
    && (after.state == Unlocked || after.state == Lost ==> after.acc == 0.0)
    && (if before.state == WonPending && after.state == Locked then true
        else if after.matchId != before.matchId then false
        else if after.state == before.state then true
        else if before.state == WonPending then after.state == Burned || after.state == Unlocked
        else
          && before.state == Locked && (after.state == WonPending || after.state == Lost)
          && HasResult(t, after.matchId)
          && var m := t.matches[after.matchId];
             after.state == if WonBy(m, m.homeScore.value, m.awayScore.value, after.teamId) then WonPending else Lost)
  }

  // ---------- rounds ----------

  predicate IsLive(t: Tables, seasonId: int) {
    && seasonId in t.seasons
    && (t.seasons[seasonId].status == SeasonOpen || t.seasons[seasonId].status == SeasonInProgress)
  }

  predicate IsClosedOf(t: Tables, seasonId: int, r: int) {
    r in t.rounds && t.rounds[r].seasonId == seasonId && t.rounds[r].status == RoundClosed
  }

  /** One more than the season's greatest closed number, or 1 when none is closed. */
  predicate IsNextNumber(t: Tables, seasonId: int, number: int) {
    if exists r | r in t.rounds :: IsClosedOf(t, seasonId, r) then
      && (exists r | r in t.rounds :: IsClosedOf(t, seasonId, r) && t.rounds[r].number == number - 1)
      && (forall r | r in t.rounds :: IsClosedOf(t, seasonId, r) ==> t.rounds[r].number <= number - 1)
    else number == 1
  }

  predicate IsTaken(t: Tables, id: int, seasonId: int, number: int) {
    exists r | r in t.rounds :: r != id && t.rounds[r].seasonId == seasonId && t.rounds[r].number == number
  }

  predicate AllEnded(t: Tables, roundId: int) {
    forall m | m in t.matches :: t.matches[m].roundId == roundId ==> t.matches[m].status == MatchClosed
  }

  predicate IsUndecided(t: Tables, roundId: int, ride: Ride) {
    ride.state == WonPending && ride.matchId in t.matches && t.matches[ride.matchId].roundId == roundId
  }

  /** A forward move or another number. */
  predicate MovesForward(row: Round, number: int, status: RoundStatus) {
    || (row.status == RoundCreated && status == RoundOpen)
    || (row.status == RoundCreated && status == RoundClosed)
    || (row.status == RoundOpen && status == RoundClosed)
    || (row.number != number && status != RoundCreated)
  }

  function NewNumber(cmd: Command, row: Round): int
    requires cmd.PatchRound?
  {
    if cmd.number.Some? then cmd.number.value else row.number
  }

  function NewRoundStatus(cmd: Command, row: Round): RoundStatus
    requires cmd.PatchRound?
  {
    if cmd.roundStatus.Some? then cmd.roundStatus.value else row.status
  }

  /** Why the gates refuse a round write. A round that is open closes with its rides resolved first. */
  predicate GatesRefuse(t: Tables, id: int, row: Round, number: int, status: RoundStatus, now: int) {
    || (status == RoundClosed && row.status != RoundClosed && !AllEnded(t, id))
    || (status == RoundClosed && row.status == RoundCreated
        && exists k | k in t.rides :: IsUndecided(t, id, t.rides[k]))
    || (status != RoundClosed && RoundHasStarted(t, id, now))
    || (MovesForward(row, number, status) && !(IsLive(t, row.seasonId) && IsNextNumber(t, row.seasonId, number)))
  }

  /** Why a round patch is refused. */
  function RoundPatchRefusal(t: Tables, cmd: Command, now: int): Option<Error>
    requires cmd.PatchRound?
  {
    if cmd.roundId < 1 || cmd.roundId !in t.rounds then Some(RecordNotFound)
    else
      var row := t.rounds[cmd.roundId];
      var number, status := NewNumber(cmd, row), NewRoundStatus(cmd, row);
      if row.seasonId != cmd.inSeason then Some(RecordNotFound)
      else if cmd.expected.Some? && cmd.expected.value != row.version then Some(EditConflict)
      else if row.seasonId <= 0 || number < 1 || number > 38
          || (row.status == RoundOpen && status == RoundCreated) || (row.status == RoundClosed && status != RoundClosed)
          then Some(InvalidInput)
      else if GatesRefuse(t, cmd.roundId, row, number, status, now) then Some(RecordInUse)
      else if IsTaken(t, cmd.roundId, row.seasonId, number) then Some(DuplicateRecord)
      else None
  }

  /** A new round: created, under a known season, with a number of its own. */
  predicate MayAddRound(t: Tables, round: Round, id: int) {
    && round.seasonId > 0 && round.seasonId in t.seasons
    && 1 <= round.number <= 38 && !IsTaken(t, id, round.seasonId, round.number)
    && round.status == RoundCreated && round.version == 1 && id !in t.rounds
  }

  function WithStatus(seasons: map<int, Season>, s: int, from: SeasonStatus, to: SeasonStatus): map<int, Season> {
    if s in seasons && seasons[s].status == from then seasons[s := Season(to, seasons[s].version + 1)] else seasons
  }

  /** An opening starts an open season; closing the open round 38 ends a season in progress. */
  function SeasonsAfter(t: Tables, row: Round, number: int, status: RoundStatus): map<int, Season> {
    if row.status == RoundCreated && status == RoundOpen then
      WithStatus(t.seasons, row.seasonId, SeasonOpen, SeasonInProgress)
    else if row.status == RoundOpen && status == RoundClosed && number == 38 then
      WithStatus(t.seasons, row.seasonId, SeasonInProgress, SeasonClosed)
    else t.seasons
  }

  /** Closing an open round sends its undecided rides off: with nothing, or with their bonus
      when the number is the season's last. */
  function RideAfterClose(t: Tables, id: int, number: int, ride: Ride): Ride {
    if !IsUndecided(t, id, ride) then ride
    else if number == 38 then ride.(state := Burned, version := ride.version + 1)
    else ride.(state := Unlocked, acc := 0.0, version := ride.version + 1)
  }

  function RidesAfter(t: Tables, id: int, row: Round, number: int, status: RoundStatus): map<int, Ride> {
    if row.status == RoundOpen && status == RoundClosed then
      map k | k in t.rides :: RideAfterClose(t, id, number, t.rides[k])
    else t.rides
  }

  // ---------- match edits ----------

  /** The row a match edit asks for: each field the request carries, else the stored one. */
  function AskedMatch(m: Match, e: MatchEdit): Match {
    m.(startsAt := if e.startsAt.Some? then e.startsAt.value else m.startsAt,
       homeTeamId := if e.homeTeamId.Some? then e.homeTeamId.value else m.homeTeamId,
       awayTeamId := if e.awayTeamId.Some? then e.awayTeamId.value else m.awayTeamId,
       status := if e.status.Some? then e.status.value else m.status,
       homeOdds := if e.odds.Some? then e.odds.value.0 else m.homeOdds,
       awayOdds := if e.odds.Some? then e.odds.value.1 else m.awayOdds,
       homeScore := if e.score.Some? then e.score.value.0 else m.homeScore,
       awayScore := if e.score.Some? then e.score.value.1 else m.awayScore)
  }

  /** The shape the validator wants: scores exactly once in play, an end exactly of the right age. */
  predicate WellShaped(m: Match) {
    && m.roundId > 0 && m.seasonId > 0 && m.homeTeamId > 0 && m.awayTeamId > 0 && m.homeTeamId != m.awayTeamId
    && m.startsAt != -62135596800
    && (m.status == MatchClosed ==> m.endedAt.Some?)
    && (m.endedAt.Some? ==> m.endedAt.value > m.startsAt)
    && (if m.status == MatchInProgress || m.status == MatchClosed
        then m.homeScore.Some? && m.awayScore.Some? && m.homeScore.value >= 0 && m.awayScore.value >= 0
        else m.homeScore.None? && m.awayScore.None?)
    && m.homeOdds > 1.0 && m.awayOdds > 1.0
  }

  /** A new match: created, yet to start and unscored, of two known teams, in a known round
      of its season, whatever the round's status. */
  predicate MayAddMatch(t: Tables, m: Match, now: int, id: int) {
    && m.roundId > 0 && m.roundId in t.rounds && m.seasonId > 0 && t.rounds[m.roundId].seasonId == m.seasonId
    && m.homeTeamId > 0 && m.awayTeamId > 0 && m.homeTeamId != m.awayTeamId
    && m.homeTeamId in t.teams && m.awayTeamId in t.teams
    && m.startsAt != -62135596800 && now < m.startsAt
    && m.status == MatchCreated && m.endedAt == None && m.homeScore == None && m.awayScore == None
    && 1.0 < m.homeOdds < 100.0 && 1.0 < m.awayOdds < 100.0
    && m.version == 1 && id !in t.matches
  }

  /** No closed match reopens and no match in play goes back before its start. */
  predicate GoesBack(before: MatchStatus, after: MatchStatus) {
    || (before == MatchClosed && after != MatchClosed)
    || (before == MatchInProgress && (after == MatchCreated || after == MatchPostponed))
  }

  /** The row an accepted edit leaves: the end is the stored one, and the clock's if the
      edit closed the match. */
  function PatchedMatch(m: Match, e: MatchEdit, now: int): Match {
    var asked := AskedMatch(m, e);
    asked.(endedAt := if asked.status == MatchClosed && m.status != MatchClosed then Some(now) else m.endedAt,
           version := m.version + 1)
  }

  /** What is left for the columns to refuse of a well-shaped row. */
  predicate ColumnsRefuse(m: Match) {
    || m.homeOdds >= 100.0 || m.awayOdds >= 100.0
    || (m.homeScore.Some? && m.homeScore.value > 32767) || (m.awayScore.Some? && m.awayScore.value > 32767)
    || (m.endedAt.Some? && m.status != MatchClosed)
    || (m.endedAt.Some? && m.endedAt.value <= m.startsAt)
  }

  /** Why a match patch is refused. */
  function MatchPatchRefusal(t: Tables, cmd: Command, now: int): Option<Error>
    requires cmd.PatchMatch?
  {
    if cmd.editedId < 1 || cmd.editedId !in t.matches then Some(RecordNotFound)
    else
      var m := t.matches[cmd.editedId];
      var asked := AskedMatch(m, cmd.edit);
      if m.seasonId != cmd.inSeason then Some(RecordNotFound)
      else if cmd.expected.Some? && cmd.expected.value != m.version then Some(EditConflict)
      else if !WellShaped(asked) || GoesBack(m.status, asked.status) then Some(InvalidInput)
      else if asked.homeTeamId !in t.teams || asked.awayTeamId !in t.teams then Some(InvalidInput)
      else if (asked.status == MatchCreated || asked.status == MatchPostponed)
          && m.startsAt <= now then Some(RecordInUse)
      else if ColumnsRefuse(PatchedMatch(m, cmd.edit, now)) then Some(ConstraintViolation)
      else None
  }

  // ---------- season edits ----------

  function NewSeasonStatus(cmd: Command, season: Season): SeasonStatus
    requires cmd.PatchSeason?
  {
    if cmd.seasonStatus.Some? then cmd.seasonStatus.value else season.status
  }

  predicate SeasonGoesBack(before: SeasonStatus, after: SeasonStatus) {
    || (before == SeasonOpen && after == SeasonCreated)
    || (before == SeasonInProgress && (after == SeasonCreated || after == SeasonOpen))
    || (before == SeasonClosed && after != SeasonClosed)
  }

  /** Why a season patch is refused. */
  function SeasonPatchRefusal(t: Tables, cmd: Command, now: int): Option<Error>
    requires cmd.PatchSeason?
  {
    if cmd.seasonId < 1 || cmd.seasonId !in t.seasons then Some(RecordNotFound)
    else
      var season := t.seasons[cmd.seasonId];
      var status := NewSeasonStatus(cmd, season);
      if cmd.expected.Some? && cmd.expected.value != season.version then Some(EditConflict)
      else if SeasonGoesBack(season.status, status) then Some(InvalidInput)
      else if (status == SeasonCreated || status == SeasonOpen) && SeasonHasStarted(t, cmd.seasonId, now)
          then Some(RecordInUse)
      else None
  }
}
