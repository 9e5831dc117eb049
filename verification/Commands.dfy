/** Each command run alone: what it answers and the tables it leaves. A command
    that answers an error leaves the tables as they were. */
module Commands {
  import opened Model
  import opened Lifecycle
  import opened Rides
  import opened Statements

  datatype Decision = Continue | Burn | Unlock

  datatype MatchEdit = MatchEdit(
    startsAt: Option<int>,
    homeTeamId: Option<int>,
    awayTeamId: Option<int>,
    status: Option<MatchStatus>,
    odds: Option<(real, real)>,
    score: Option<(Option<int>, Option<int>)>)

  datatype Command =
    | CreateRide(ride: Ride, token: Token, marshal: Marshal)
    | DecideRide(decision: Decision, rideId: int, token: Token, marshal: Marshal)
    | ResolveMatch(matchId: int, home: Option<int>, away: Option<int>, endedAt: int, version: int)
    | PatchRound(roundId: int, inSeason: int, expected: Option<int>, number: Option<int>,
        roundStatus: Option<RoundStatus>)
    | PatchMatch(editedId: int, inSeason: int, expected: Option<int>, edit: MatchEdit)
    | PatchSeason(seasonId: int, expected: Option<int>, seasonStatus: Option<SeasonStatus>)

  /** What a command answers: the stored response of a ride command, else the row written. */
  datatype Reply =
    | RideReply(response: Response)
    | RoundReply(round: Round)
    | MatchReply(m: Match)
    | SeasonReply(season: Season)

  datatype Outcome = Outcome(t: Tables, answer: Result<Reply>)

  predicate IsRideCommand(cmd: Command) {
    cmd.CreateRide? || cmd.DecideRide?
  }

  // ---------- ride commands ----------

  /** Claim first; an execution error rolls the claim back. */
  function Idempotent(t: Tables, token: Token, executed: Result<(Tables, Response)>): Outcome {
    if token.key in t.keys then
      match StoredAnswer(t.keys[token.key], token)
      case Ok(response) => Outcome(t, Ok(RideReply(response)))
      case Err(e) => Outcome(t, Err(e))
    else
      match executed
      case Ok((after, response)) => Outcome(after, Ok(RideReply(response)))
      case Err(e) => Outcome(t, Err(e))
  }

  function StoreAnswer(t: Tables, id: int, token: Token, marshal: Marshal): Result<(Tables, Response)>
    requires id in t.rides
  {
    var response :- marshal(id, t.rides[id]);
    var saved :- Save(t, token, response);
    Ok((saved, response))
  }

  function ExecuteCreate(t: Tables, input: Ride, token: Token, marshal: Marshal, now: int, id: int)
    : Result<(Tables, Response)>
  {
    var claimed := PutKey(t, token.key, ClaimRow(token));
    var phase :- RidePhase(t, now, input.matchId);
    var ride :- CreateOf(input, phase);
    var inserted :- InsertGuarded(claimed, id, ride);
    StoreAnswer(inserted, id, token, marshal)
  }

  function DecisionOf(decision: Decision, ride: Ride, phase: RoundPhase, destination: int): Result<Ride> {
    match decision
    case Continue => LockOf(ride, phase, destination)
    case Burn => BurnOf(ride, phase)
    case Unlock => UnlockOf(ride, phase)
  }

  function DecidedState(decision: Decision): RideState {
    match decision
    case Continue => Locked
    case Burn => Burned
    case Unlock => Unlocked
  }

  /** Only a continuation picks a destination; the others pass 0. */
  function Destination(t: Tables, decision: Decision, teamId: int): Result<int> {
    if decision.Continue? then NextForTeam(t, teamId) else Ok(0)
  }

  function ExecuteDecision(t: Tables, decision: Decision, rideId: int, token: Token, marshal: Marshal, now: int)
    : Result<(Tables, Response)>
  {
    var claimed := PutKey(t, token.key, ClaimRow(token));
    var ride :- if rideId in t.rides then Ok(t.rides[rideId]) else Err(RecordNotFound);
    var phase :- RidePhase(t, now, ride.matchId);
    var destination :- Destination(t, decision, ride.teamId);
    var next :- DecisionOf(decision, ride, phase, destination);
    var updated :- UpdateGuarded(claimed, rideId, next, destination);
    StoreAnswer(updated, rideId, token, marshal)
  }

  // ---------- match resolution ----------

  /** The answer is built from the request and the RETURNING columns: it carries
      the caller's end, not the stored one, and no team ids. */
  function ResolveReply(row: Match, endedAt: int): Match {
    row.(endedAt := Some(endedAt), homeTeamId := 0, awayTeamId := 0)
  }

  function ExecuteResolve(t: Tables, matchId: int, home: Option<int>, away: Option<int>, endedAt: int, version: int,
      now: int)
    : Result<(Tables, Match)>
  {
    var resolved :- ResolveMatchRow(t, now, matchId, home, away, endedAt, version);
    var settled :- SettleAll(resolved, matchId);
    Ok((settled, ResolveReply(resolved.matches[matchId], endedAt)))
  }

  // ---------- rounds ----------

  /** What updateRoundHandler does with the row it read, up to the dispatch. */
  function PrepareRound(cmd: Command, row: Round): Result<Round>
    requires cmd.PatchRound?
  {
    if row.seasonId != cmd.inSeason then Err(RecordNotFound)
    else if cmd.expected.Some? && cmd.expected.value != row.version then Err(EditConflict)
    else
      var edited := row.(number := if cmd.number.Some? then cmd.number.value else row.number,
                         status := if cmd.roundStatus.Some? then cmd.roundStatus.value else row.status);
      if RoundUpdateValid(row, edited) then Ok(edited) else Err(InvalidInput)
  }

  predicate IsOpening(row: Round, edited: Round) {
    row.status == RoundCreated && edited.status == RoundOpen
  }

  predicate IsClosing(row: Round, edited: Round) {
    row.status == RoundOpen && edited.status == RoundClosed
  }

  function OpenRound(t: Tables, id: int, edited: Round, now: int): Result<Tables> {
    UpdateRoundRow(FlipSeason(t, edited.seasonId, SeasonOpen, SeasonInProgress), now, id, edited)
  }

  function CloseRound(t: Tables, id: int, edited: Round, now: int): Result<Tables> {
    var resolved :- AutoResolveAll(t, id, edited.number);
    var closed :- UpdateRoundRow(resolved, now, id, edited);
    Ok(if edited.number == ROUNDS_PER_SEASON then FlipSeason(closed, edited.seasonId, SeasonInProgress, SeasonClosed)
        else closed)
  }

  function WriteRound(t: Tables, id: int, row: Round, edited: Round, now: int): Result<Tables> {
    if IsOpening(row, edited) then OpenRound(t, id, edited, now)
    else if IsClosing(row, edited) then CloseRound(t, id, edited, now)
    else UpdateRoundRow(t, now, id, edited)
  }

  function ExecutePatchRound(t: Tables, cmd: Command, now: int): Result<(Tables, Round)>
    requires cmd.PatchRound?
  {
    if cmd.roundId < 1 || cmd.roundId !in t.rounds then Err(RecordNotFound)
    else
      var row := t.rounds[cmd.roundId];
      var edited :- PrepareRound(cmd, row);
      var written :- WriteRound(t, cmd.roundId, row, edited, now);
      Ok((written, RoundRowAfter(row, edited)))
  }

  // ---------- match and season edits ----------

  /** The row with the request's fields over it. */
  function Overwritten(row: Match, e: MatchEdit): Match {
    row.(
      startsAt := if e.startsAt.Some? then e.startsAt.value else row.startsAt,
      homeTeamId := if e.homeTeamId.Some? then e.homeTeamId.value else row.homeTeamId,
      awayTeamId := if e.awayTeamId.Some? then e.awayTeamId.value else row.awayTeamId,
      status := if e.status.Some? then e.status.value else row.status,
      homeOdds := if e.odds.Some? then e.odds.value.0 else row.homeOdds,
      awayOdds := if e.odds.Some? then e.odds.value.1 else row.awayOdds,
      homeScore := if e.score.Some? then e.score.value.0 else row.homeScore,
      awayScore := if e.score.Some? then e.score.value.1 else row.awayScore)
  }

  function PrepareMatch(cmd: Command, row: Match): Result<Match>
    requires cmd.PatchMatch?
  {
    if row.seasonId != cmd.inSeason then Err(RecordNotFound)
    else if cmd.expected.Some? && cmd.expected.value != row.version then Err(EditConflict)
    else
      var edited := Overwritten(row, cmd.edit);
      if MatchUpdateValid(row, edited) then Ok(edited) else Err(InvalidInput)
  }

  predicate TeamsExist(t: Tables, m: Match) {
    m.homeTeamId in t.teams && m.awayTeamId in t.teams
  }

  function ExecutePatchMatch(t: Tables, cmd: Command, now: int): Result<(Tables, Match)>
    requires cmd.PatchMatch?
  {
    if cmd.editedId < 1 || cmd.editedId !in t.matches then Err(RecordNotFound)
    else
      var row := t.matches[cmd.editedId];
      var edited :- PrepareMatch(cmd, row);
      if !TeamsExist(t, edited) then Err(InvalidInput)
      else
        var written :- UpdateMatchRow(t, now, cmd.editedId, edited);
        Ok((written, written.matches[cmd.editedId]))
  }

  function PrepareSeason(cmd: Command, row: Season): Result<Season>
    requires cmd.PatchSeason?
  {
    if cmd.expected.Some? && cmd.expected.value != row.version then Err(EditConflict)
    else
      var edited := row.(status := if cmd.seasonStatus.Some? then cmd.seasonStatus.value else row.status);
      if SeasonUpdateValid(row, edited) then Ok(edited) else Err(InvalidInput)
  }

  function ExecutePatchSeason(t: Tables, cmd: Command, now: int): Result<(Tables, Season)>
    requires cmd.PatchSeason?
  {
    if cmd.seasonId < 1 || cmd.seasonId !in t.seasons then Err(RecordNotFound)
    else
      var row := t.seasons[cmd.seasonId];
      var edited :- PrepareSeason(cmd, row);
      var written :- UpdateSeasonRow(t, now, cmd.seasonId, edited);
      Ok((written, written.seasons[cmd.seasonId]))
  }

  // ---------- all commands ----------

  /** The command alone, at the clock reading `now`; `id` is the identity a create draws. */
  function Run(t: Tables, cmd: Command, now: int, id: int): Outcome {
    match cmd
    case CreateRide(ride, token, marshal) => Idempotent(t, token, ExecuteCreate(t, ride, token, marshal, now, id))
    case DecideRide(decision, rideId, token, marshal) =>
      Idempotent(t, token, ExecuteDecision(t, decision, rideId, token, marshal, now))
    case ResolveMatch(matchId, home, away, endedAt, version) =>
      (match ExecuteResolve(t, matchId, home, away, endedAt, version, now)
       case Ok((after, m)) => Outcome(after, Ok(MatchReply(m)))
       case Err(e) => Outcome(t, Err(e)))
    case PatchRound(_, _, _, _, _) =>
      (match ExecutePatchRound(t, cmd, now)
       case Ok((after, round)) => Outcome(after, Ok(RoundReply(round)))
       case Err(e) => Outcome(t, Err(e)))
    case PatchMatch(_, _, _, _) =>
      (match ExecutePatchMatch(t, cmd, now)
       case Ok((after, m)) => Outcome(after, Ok(MatchReply(m)))
       case Err(e) => Outcome(t, Err(e)))
    case PatchSeason(_, _, _) =>
      (match ExecutePatchSeason(t, cmd, now)
       case Ok((after, season)) => Outcome(after, Ok(SeasonReply(season)))
       case Err(e) => Outcome(t, Err(e)))
  }
}
