/** What each command does exactly when it runs alone: when it succeeds, what it
    writes, and that its guard and its gate never refuse what its reads allowed. */
module Facts {
  import opened Model
  import opened Phases
  import opened Lifecycle
  import opened Gates
  import opened Statements
  import opened Commands
  import opened Rules

  predicate RowsValid(t: Tables) {
    forall id | id in t.rides :: RideRowOk(t.rides[id])
  }

  // ---------- phases and the next match ----------

  /** The phases of a match, in seconds. */
  lemma PhaseExactly(now: int, m: Match)
    ensures PhaseOf(now, m) == ActionPhase <==> now < m.startsAt - 3600
    ensures PhaseOf(now, m) == DecisionPhase <==>
      m.endedAt.Some? && now >= m.startsAt - 3600 && now >= m.endedAt.value + 3600
    ensures PhaseOf(now, m) == MatchPhase <==>
      now >= m.startsAt - 3600 && (m.endedAt.Some? ==> now < m.endedAt.value + 3600)
  {
  }

  /** The match picked for a continuation is the team's first candidate, and there is one
      exactly when there is a candidate. */
  lemma {:induction false} NextExactly(t: Tables, teamId: int, m: int)
    ensures NextForTeam(t, teamId) == Ok(m) <==> IsNextMatch(t, teamId, m)
    ensures NextForTeam(t, teamId) == Err(NoNextMatch) <==> forall b | b in t.matches :: !IsCandidate(t, teamId, b)
  {
    assert forall b :: Upcoming(t, teamId, b) <==> IsCandidate(t, teamId, b);
    assert IsNext(t, teamId, m) <==> IsNextMatch(t, teamId, m);
    NoNextMeansNoCandidate(t, teamId);
    if NextForTeam(t, teamId).Ok? {
      NextQualifies(t, teamId);
    }
    if IsNext(t, teamId, m) {
      NextForTeamIs(t, teamId, m);
    }
  }

  /** What that says of one candidate: it starts later, or with the pick and has no smaller id. */
  lemma NextComesFirst(t: Tables, teamId: int, m: int, b: int)
    requires NextForTeam(t, teamId) == Ok(m)
    requires b in t.matches && t.matches[b].roundId in t.rounds && t.rounds[t.matches[b].roundId].status != RoundClosed
    requires teamId == t.matches[b].homeTeamId || teamId == t.matches[b].awayTeamId
    requires t.matches[b].endedAt == None
    ensures m in t.matches
    ensures || t.matches[m].startsAt < t.matches[b].startsAt
            || (t.matches[m].startsAt == t.matches[b].startsAt && m <= b)
  {
    NextExactly(t, teamId, m);
    assert IsCandidate(t, teamId, b);
  }

  // ---------- decisions ----------

  function DecidedRow(t: Tables, decision: Decision, ride: Ride): Ride
    requires decision.Continue? ==> NextForTeam(t, ride.teamId).Ok?
  {
    match decision
    case Continue =>
      ride.(state := Locked, matchId := NextForTeam(t, ride.teamId).value, streak := ride.streak + 1,
          version := ride.version + 1)
    case Burn => ride.(state := Burned, version := ride.version + 1)
    case Unlock => ride.(state := Unlocked, acc := 0.0, version := ride.version + 1)
  }

  /** What a ride command leaves once nothing refuses it but its own presentation. */
  function Stored(t: Tables, id: int, row: Ride, token: Token, marshal: Marshal): Outcome {
    match marshal(id, row)
    case Err(e) => Outcome(t, Err(e))
    case Ok(response) =>
      Outcome(t.(rides := t.rides[id := row],
                 keys := t.keys[token.key := KeyRow(token.endpoint, token.hash, response)]), Ok(RideReply(response)))
  }

  /** A decision under a fresh key is refused for the first reason that applies and changes
      nothing, or writes one ride and one key and nothing else. The guarded WHERE and the
      gate add no refusal of their own. */
  lemma DecisionExactly(t: Tables, decision: Decision, rideId: int, token: Token, marshal: Marshal, now: int)
    requires token.key !in t.keys
    ensures var o := Run(t, DecideRide(decision, rideId, token, marshal), now, 0);
      match DecisionRefusal(t, decision, rideId, now)
      case Some(e) => o == Outcome(t, Err(e))
      case None =>
        && (decision.Continue? ==> NextForTeam(t, t.rides[rideId].teamId).Ok?)
        && var row := DecidedRow(t, decision, t.rides[rideId]);
           DecisionWrites(t, decision, t.rides[rideId], row) && o == Stored(t, rideId, row, token, marshal)
  {
    if rideId in t.rides && HasRound(t, t.rides[rideId].matchId) {
      var ride := t.rides[rideId];
      PhaseExactly(now, t.matches[ride.matchId]);
      NextPicked(t, ride.teamId);
      if InOpenRound(t, ride.matchId) && InDecision(t.matches[ride.matchId], now) && ride.state == WonPending
          && (decision.Continue? ==> NextForTeam(t, ride.teamId).Ok?) {
        AllowedDecisionRuns(t, decision, rideId, token, marshal, now);
        hide Run;
      }
    }
  }

  lemma AllowedDecisionRuns(t: Tables, decision: Decision, rideId: int, token: Token, marshal: Marshal, now: int)
    requires token.key !in t.keys
    requires rideId in t.rides && t.rides[rideId].state == WonPending && RoundOpenFor(t, t.rides[rideId].matchId)
    requires PhaseOf(now, t.matches[t.rides[rideId].matchId]) == DecisionPhase
    requires decision.Continue? ==>
      NextForTeam(t, t.rides[rideId].teamId).Ok?
      && Upcoming(t, t.rides[rideId].teamId, NextForTeam(t, t.rides[rideId].teamId).value)
    ensures var row := DecidedRow(t, decision, t.rides[rideId]);
      Run(t, DecideRide(decision, rideId, token, marshal), now, 0)
        == if FitsColumns(t.rides[rideId], decision) then Stored(t, rideId, row, token, marshal)
           else Outcome(t, Err(ConstraintViolation))
  {
    AllowedDecisionWrites(t, decision, rideId, token);
    hide UpdateGuarded, DecisionOf, FitsColumns;
  }

  lemma NextPicked(t: Tables, teamId: int)
    ensures NextForTeam(t, teamId).Err? <==> forall b | b in t.matches :: !IsCandidate(t, teamId, b)
    ensures NextForTeam(t, teamId).Err? ==> NextForTeam(t, teamId) == Err(NoNextMatch)
    ensures NextForTeam(t, teamId).Ok? ==>
      IsNextMatch(t, teamId, NextForTeam(t, teamId).value) && Upcoming(t, teamId, NextForTeam(t, teamId).value)
  {
    if NextForTeam(t, teamId).Ok? {
      NextExactly(t, teamId, NextForTeam(t, teamId).value);
      NextQualifies(t, teamId);
    } else {
      NextExactly(t, teamId, 0);
    }
  }

  /** At one instant the guard and the gate let pass what the reads allowed; only the
      columns may refuse the row. */
  lemma AllowedDecisionWrites(t: Tables, decision: Decision, rideId: int, token: Token)
    requires rideId in t.rides && t.rides[rideId].state == WonPending && RoundOpenFor(t, t.rides[rideId].matchId)
    requires decision.Continue? ==>
      NextForTeam(t, t.rides[rideId].teamId).Ok?
      && Upcoming(t, t.rides[rideId].teamId, NextForTeam(t, t.rides[rideId].teamId).value)
    ensures var ride := t.rides[rideId];
      var claimed := PutKey(t, token.key, ClaimRow(token));
      var destination := Destination(t, decision, ride.teamId).value;
      var next := DecisionOf(decision, ride, DecisionPhase, destination);
      next.Ok? && UpdateGuarded(claimed, rideId, next.value, destination)
          == if FitsColumns(ride, decision) then Ok(PutRide(claimed, rideId, DecidedRow(t, decision, ride)))
             else Err(ConstraintViolation)
  {
    var ride := t.rides[rideId];
    var destination := Destination(t, decision, ride.teamId).value;
    var next := DecisionOf(decision, ride, DecisionPhase, destination).value;
    assert UpdateGuard(PutKey(t, token.key, ClaimRow(token)), ride, next.version, destination);
    assert UpdatedRow(ride, next) == DecidedRow(t, decision, ride);
    assert RideRowOk(UpdatedRow(ride, next)) <==> FitsColumns(ride, decision);
  }

  /** Read and written at one instant, the guard and the gate accept every decision. */
  lemma GuardAndGateAccept(t: Tables, ride: Ride, next: Ride, decision: Decision, destination: int)
    requires RideRowOk(ride) && RoundOpenFor(t, ride.matchId)
    requires DecisionOf(decision, ride, DecisionPhase, destination) == Ok(next)
    requires if decision.Continue? then Upcoming(t, ride.teamId, destination) else destination == 0
    ensures UpdateGuard(t, ride, next.version, destination)
    ensures UpdateRowError(t, ride, UpdatedRow(ride, next)).None?
  {
  }

  // ---------- the ride gate and the guards ----------

  /** The five checks of the gate together say which row may follow which. */
  lemma GateExactly(t: Tables, before: Ride, after: Ride)
    ensures RideUpdateAllowed(t, before, after) <==> MayBecome(t, before, after)
  {
  }

  predicate MayBeDecided(t: Tables, id: int, version: int) {
    && id in t.rides && t.rides[id].version == version && t.rides[id].state == WonPending
    && InOpenRound(t, t.rides[id].matchId)
  }

  predicate MayStillTake(t: Tables, m: int) {
    HasRound(t, m) && t.matches[m].endedAt == None && t.rounds[t.matches[m].roundId].status != RoundClosed
  }

  /** On whatever tables it starts, the guarded UPDATE tells a ride or a round that has
      moved on from a change the gate forbids and from a row the columns refuse. */
  lemma GuardedUpdateExactly(t: Tables, id: int, next: Ride, destination: int)
    ensures UpdateGuarded(t, id, next, destination)
         == if !MayBeDecided(t, id, next.version) || !(destination == 0 || MayStillTake(t, destination))
            then Err(RoundNotOpen)
            else
              var row := UpdatedRow(t.rides[id], next);
              if !MayBecome(t, t.rides[id], row) then Err(InvalidTransition)
              else if !RideRowOk(row) then Err(ConstraintViolation)
              else Ok(t.(rides := t.rides[id := row]))
  {
    if id in t.rides {
      GateExactly(t, t.rides[id], UpdatedRow(t.rides[id], next));
    }
  }

  /** The guarded INSERT, on whatever tables it starts: a match that is not there, a round
      that is not open, and then the row itself. */
  lemma GuardedInsertExactly(t: Tables, id: int, ride: Ride)
    requires ride.state == Locked && ride.acc == 0.0 && ride.streak == 0
    ensures InsertGuarded(t, id, ride)
         == if !HasRound(t, ride.matchId) then Err(RecordNotFound)
            else if !InOpenRound(t, ride.matchId) then Err(RoundNotOpen)
            else if id in t.rides then Err(Internal)
            else if ride.tokensLocked <= 0 || ride.baseAtLock <= 0.0 then Err(ConstraintViolation)
            else if ride.playerId !in t.players || ride.teamId !in t.teams then Err(RecordNotFound)
            else Ok(t.(rides := t.rides[id := ride.(version := 1)]))
  {
  }

  /** A version that has moved on refuses the write, whatever it would write. */
  lemma StaleVersionsConflict(t: Tables, now: int, id: int, round: Round, m: Match, season: Season)
    ensures id !in t.rounds || t.rounds[id].version != round.version ==>
      UpdateRoundRow(t, now, id, round) == Err(EditConflict)
    ensures id !in t.matches || t.matches[id].version != m.version ==>
      UpdateMatchRow(t, now, id, m) == Err(EditConflict)
    ensures id !in t.seasons || t.seasons[id].version != season.version ==>
      UpdateSeasonRow(t, now, id, season) == Err(EditConflict)
  {
  }

  // ---------- creation ----------

  /** A creation under a fresh key is refused for the first reason that applies and changes
      nothing, or writes the new ride and its key. */
  lemma CreationExactly(t: Tables, input: Ride, token: Token, marshal: Marshal, now: int, id: int)
    requires token.key !in t.keys
    ensures var o := Run(t, CreateRide(input, token, marshal), now, id);
      match CreationRefusal(t, input, now, id)
      case Some(e) => o == Outcome(t, Err(e))
      case None => o == Stored(t, id, CreatedRow(input), token, marshal)
  {
    if HasRound(t, input.matchId) {
      PhaseExactly(now, t.matches[input.matchId]);
    }
  }

  // ---------- replay ----------

  /** A committed key answers from its row and never executes again. */
  lemma ReplayChangesNothing(t: Tables, cmd: Command, now: int, id: int)
    requires IsRideCommand(cmd) && cmd.token.key in t.keys
    ensures var row := t.keys[cmd.token.key];
      Run(t, cmd, now, id) == Outcome(t, if row.hash == cmd.token.hash then Ok(RideReply(row.response))
          else Err(IdempotencyConflict))
  {
  }

  /** A retry of an executed ride command, at any later time and with any fresh id,
      answers what the execution answered and changes nothing. */
  lemma RetryReplays(t: Tables, cmd: Command, now: int, id: int, later: int, other: int)
    requires IsRideCommand(cmd) && RowsValid(t)
    requires Run(t, cmd, now, id).answer.Ok?
    ensures var first := Run(t, cmd, now, id);
      Run(first.t, cmd, later, other) == Outcome(first.t, first.answer)
  {
    if cmd.token.key !in t.keys {
      match cmd
      case CreateRide(ride, token, marshal) => CreationExactly(t, ride, token, marshal, now, id);
      case DecideRide(decision, rideId, token, marshal) => DecisionExactly(t, decision, rideId, token, marshal, now);
    }
  }

  // ---------- resolution ----------

  /** Match.Winner of a match with scores. */
  function Winner(m: Match): Option<int>
    requires m.status.MatchClosed? ==> m.homeScore.Some? && m.awayScore.Some?
  {
    if m.status != MatchClosed then None
    else if m.homeScore.value > m.awayScore.value then Some(m.homeTeamId)
    else if m.awayScore.value > m.homeScore.value then Some(m.awayTeamId)
    else None
  }

  /** Go, the SQL CASE and the gate's check 5 agree on every closed match and team. */
  lemma ThreeWinnersAgree(m: Match, teamId: int)
    requires m.status == MatchClosed && MatchRowOk(m)
    ensures SettledState(m, teamId) == (if Winner(m) == Some(teamId) then WonPending else Lost)
    ensures TeamWon(m, teamId) <==> Winner(m) == Some(teamId)
  {
  }

  /** A resolution is refused for the first reason that applies and changes nothing, or
      writes the scores as requested and settles exactly the locked rides of the match by
      who won. The stored end is the database clock, whatever end the caller sent; the
      answer carries the caller's, and no teams. */
  lemma ResolutionExactly(t: Tables, matchId: int, home: Option<int>, away: Option<int>, endedAt: int, version: int,
      now: int)
    ensures var o := Run(t, ResolveMatch(matchId, home, away, endedAt, version), now, 0);
      match ResolutionRefusal(t, matchId, home, away, version, now)
      case Some(e) => o == Outcome(t, Err(e))
      case None =>
        var row := ResolvedMatch(t.matches[matchId], home.value, away.value, now);
        && o.answer == Ok(MatchReply(row.(endedAt := Some(endedAt), homeTeamId := 0, awayTeamId := 0)))
        && o.t == t.(matches := t.matches[matchId := row], rides := map id | id in t.rides ::
             SettledRide(t, matchId, home.value, away.value, t.rides[id]))
  {
    ScoreExactly(t, matchId, home, away, endedAt, version, now);
    if ScoreRefusal(t, matchId, home, away, version, now).None? {
      var resolved := ResolveMatchRow(t, now, matchId, home, away, endedAt, version).value;
      SettlementExactly(t, resolved, matchId, home.value, away.value);
    }
  }

  lemma ScoreExactly(t: Tables, matchId: int, home: Option<int>, away: Option<int>, endedAt: int, version: int,
      now: int)
    ensures ResolveMatchRow(t, now, matchId, home, away, endedAt, version)
         == match ScoreRefusal(t, matchId, home, away, version, now)
            case Some(e) => Err(e)
            case None => Ok(PutMatch(t, matchId, ResolvedMatch(t.matches[matchId], home.value, away.value, now)))
  {
  }

  /** The settlement under a written score: all locked rides of the match, unless a loser has a bonus. */
  lemma SettlementExactly(t: Tables, u: Tables, matchId: int, home: int, away: int)
    requires matchId in t.matches && matchId in u.matches && u.rides == t.rides
    requires u.matches[matchId].homeScore == Some(home) && u.matches[matchId].awayScore == Some(away)
    requires u.matches[matchId].homeTeamId == t.matches[matchId].homeTeamId != t.matches[matchId].awayTeamId
    requires u.matches[matchId].awayTeamId == t.matches[matchId].awayTeamId
    ensures SettleAll(u, matchId)
         == if exists id | id in t.rides :: LosesABonus(t, matchId, home, away, id) then Err(InvalidTransition)
            else Ok(u.(rides := map id | id in t.rides :: SettledRide(t, matchId, home, away, t.rides[id])))
  {
    var m := u.matches[matchId];
    forall id | id in t.rides && OnMatch(t.rides[id], matchId)
      ensures RideUpdateAllowed(u, t.rides[id], SettledRow(m, t.rides[id]))
          <==> !LosesABonus(t, matchId, home, away, id)
      ensures SettledRow(m, t.rides[id]) == SettledRide(t, matchId, home, away, t.rides[id])
    {
    }
    if !exists id | id in t.rides :: LosesABonus(t, matchId, home, away, id) {
      var settled := SettleAll(u, matchId).value.rides;
      var expected := map id | id in t.rides :: SettledRide(t, matchId, home, away, t.rides[id]);
      assert forall id :: id in settled <==> id in expected;
      assert forall id | id in settled :: settled[id] == expected[id];
      assert settled == expected;
    }
  }

  /** A resolved match refuses every further resolution, and the tables stay. */
  lemma ResolvedOnce(t: Tables, matchId: int, home: Option<int>, away: Option<int>, endedAt: int, version: int,
      now: int)
    requires matchId in t.matches && t.matches[matchId].status == MatchClosed
    ensures Run(t, ResolveMatch(matchId, home, away, endedAt, version), now, 0) == Outcome(t, Err(EditConflict))
  {
  }

  // ---------- opening a round ----------

  /** Open succeeds exactly for the next round of a live season while none of its
      matches has started; it starts an open season and changes nothing else. */
  lemma OpenExactly(t: Tables, id: int, edited: Round, now: int)
    requires id in t.rounds && t.rounds[id].status == RoundCreated && edited.status == RoundOpen
    requires edited.seasonId == t.rounds[id].seasonId
    ensures var r := OpenRound(t, id, edited, now);
      var s := edited.seasonId;
      && (r.Ok? <==>
            && t.rounds[id].version == edited.version
            && s in t.seasons && (t.seasons[s].status == SeasonOpen || t.seasons[s].status == SeasonInProgress)
            && IsNextNumber(t, s, edited.number) && 1 <= edited.number <= 38 && !IsTaken(t, id, s, edited.number)
            && (forall m | m in t.matches && t.matches[m].roundId == id :: now < t.matches[m].startsAt))
      && (r.Ok? ==>
            var written := t.rounds[id].(number := edited.number, status := RoundOpen, version := edited.version + 1);
            r.value == t.(rounds := t.rounds[id := written],
                          seasons := if t.seasons[s].status == SeasonOpen
                                     then t.seasons[s := Season(SeasonInProgress, t.seasons[s].version + 1)]
                                         else t.seasons))
  {
    var flipped := FlipSeason(t, edited.seasonId, SeasonOpen, SeasonInProgress);
    assert RoundHasStartedMatch(flipped, now, id) == RoundHasStartedMatch(t, now, id);
    NumbersExactly(t, id, edited.seasonId, edited.number);
  }

  lemma NumbersExactly(t: Tables, id: int, s: int, number: int)
    ensures HighestClosedIs(t.rounds, s, number - 1) <==> IsNextNumber(t, s, number)
    ensures NumberTaken(t.rounds, id, s, number) <==> IsTaken(t, id, s, number)
  {
    assert forall r :: ClosedIn(t.rounds, s, r) <==> IsClosedOf(t, s, r);
  }

  // ---------- closing a round ----------

  /** The gate accepts both forced exits, so the ride half of a close never fails. */
  lemma AutoResolutionIsLegal(t: Tables, id: int, number: int)
    ensures AutoResolveAll(t, id, number).Ok?
  {
  }

  /** Close is all or nothing, with this exact post-state: the round's undecided
      rides leave unlocked with nothing, or burned with their bonus when the number
      is the season's last; every other ride is untouched; and only a last round
      closes its season, if that season is in progress. */
  lemma CloseExactly(t: Tables, id: int, edited: Round, now: int)
    requires id in t.rounds && t.rounds[id].status == RoundOpen && edited.status == RoundClosed
    requires edited.seasonId == t.rounds[id].seasonId
    ensures var r := CloseRound(t, id, edited, now);
      && (r.Ok? <==>
            && t.rounds[id].version == edited.version
            && (forall m | m in t.matches && t.matches[m].roundId == id :: t.matches[m].status == MatchClosed)
            && edited.seasonId in t.seasons
            && (t.seasons[edited.seasonId].status == SeasonOpen
                 || t.seasons[edited.seasonId].status == SeasonInProgress)
            && IsNextNumber(t, edited.seasonId, edited.number)
            && 1 <= edited.number <= 38 && !IsTaken(t, id, edited.seasonId, edited.number))
      && (r.Ok? ==>
            var s := edited.seasonId;
            var last := edited.number == 38;
            && r.value == t.(rides := r.value.rides, seasons := r.value.seasons,
                             rounds := t.rounds[id := t.rounds[id].(
                                 number := edited.number, status := RoundClosed, version := edited.version + 1)])
            && r.value.seasons == (if last && t.seasons[s].status == SeasonInProgress
                                   then t.seasons[s := Season(SeasonClosed, t.seasons[s].version + 1)] else t.seasons)
            && r.value.rides.Keys == t.rides.Keys
            && forall k | k in t.rides ::
                 var before := t.rides[k];
                 r.value.rides[k] ==
                   if before.state == WonPending && before.matchId in t.matches
                       && t.matches[before.matchId].roundId == id then
                     if last then before.(state := Burned, version := before.version + 1)
                     else before.(state := Unlocked, acc := 0.0, version := before.version + 1)
                   else before)
  {
    NumbersExactly(t, id, edited.seasonId, edited.number);
  }

  /** The flip before the resolution always aborts when an undecided ride exists:
      the order of Close's statements is load-bearing. */
  lemma FlipFirstAborts(t: Tables, id: int, edited: Round, now: int, ride: int)
    requires id in t.rounds && t.rounds[id].status != RoundClosed && edited.status == RoundClosed
    requires t.rounds[id].version == edited.version
    requires ride in t.rides && Undecided(t, t.rides[ride], id)
    ensures UpdateRoundRow(t, now, id, edited) == Err(RecordInUse)
  {
  }

  // ---------- editing a match ----------

  /** An accepted edit writes one match: it can neither close nor reopen it, nor move
      its end, its round or its season, nor take a started match back before its start. */
  lemma EditNeverEnds(t: Tables, cmd: Command, now: int)
    requires cmd.PatchMatch? && forall m | m in t.matches :: MatchRowOk(t.matches[m])
    ensures var o := Run(t, cmd, now, 0);
      && (o.answer.Err? ==> o.t == t)
      && (o.answer.Ok? ==>
            && cmd.editedId in t.matches && cmd.editedId in o.t.matches
            && var before, after := t.matches[cmd.editedId], o.t.matches[cmd.editedId];
            && o == Outcome(t.(matches := t.matches[cmd.editedId := after]), Ok(MatchReply(after)))
            && (after.status == MatchClosed <==> before.status == MatchClosed)
            && after.endedAt == before.endedAt && after.roundId == before.roundId && after.seasonId == before.seasonId
            && after.version == before.version + 1 && MatchRowOk(after)
            && MatchRank(before.status) <= MatchRank(after.status)
            && (before.startsAt <= now ==> after.status in {MatchInProgress, MatchClosed}))
  {
  }
}
