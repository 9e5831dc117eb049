/** Runs of whole commands and what every reachable state keeps. */
module Reachable {
  import opened Model
  import opened Lifecycle
  import opened Gates
  import opened Statements
  import opened Commands
  import opened Rules
  import opened Changes
  import opened Facts

  // ---------- runs ----------

  /** A command, or the creation of a round or of a match. */
  datatype Action =
    | Do(cmd: Command, now: int, id: int)
    | AddRound(round: Round, now: int, id: int)
    | AddMatch(m: Match, now: int, id: int)

  /** RoundStore.Insert after ValidateNewRound. */
  predicate NewRoundValid(t: Tables, round: Round, id: int) {
    && round.seasonId in t.seasons && round.seasonId > 0
    && RoundRowOk(round) && round.status == RoundCreated && round.version == 1
    && id !in t.rounds && !NumberTaken(t.rounds, id, round.seasonId, round.number)
  }

  /** MatchStore.Insert after ValidateNewMatch: the round's status is not looked at. */
  predicate NewMatchValid(t: Tables, m: Match, now: int, id: int) {
    && MatchShapeValid(m) && MatchRowOk(m) && m.status == MatchCreated && now < m.startsAt && m.version == 1
    && m.roundId in t.rounds && t.rounds[m.roundId].seasonId == m.seasonId
    && TeamsExist(t, m)
    && id !in t.matches
  }

  function Step(t: Tables, action: Action): Tables {
    match action
    case Do(cmd, now, id) => Run(t, cmd, now, id).t
    case AddRound(round, now, id) => if NewRoundValid(t, round, id) then PutRound(t, id, round) else t
    case AddMatch(m, now, id) => if NewMatchValid(t, m, now, id) then PutMatch(t, id, m) else t
  }

  function Exec(t: Tables, actions: seq<Action>): Tables
    decreases |actions|
  {
    if actions == [] then t else Step(Exec(t, actions[..|actions| - 1]), actions[|actions| - 1])
  }

  /** The clock never runs backwards over the run. */
  predicate InOrder(actions: seq<Action>) {
    forall i, j | 0 <= i < j < |actions| :: actions[i].now <= actions[j].now
  }

  /** The tables of a fresh deployment: seasons, teams and players only. */
  predicate Fresh(t: Tables) {
    t.rounds == map[] && t.matches == map[] && t.rides == map[] && t.keys == map[]
  }

  // ---------- how the tables may change ----------

  /** What one action may do to each row that was there, and to new rows. */
  predicate Evolves(t: Tables, u: Tables) {
    && t.matches.Keys <= u.matches.Keys && t.rounds.Keys <= u.rounds.Keys && t.rides.Keys <= u.rides.Keys
    && (forall m | m in t.matches :: MatchKeeps(t.matches[m], u.matches[m]))
    && (forall r | r in t.rounds :: RoundKeeps(t.rounds[r], u.rounds[r]))
    && (forall id | id in t.rides :: u.rides[id] == t.rides[id] || RideStep(t.rides[id], u.rides[id]))
    && (forall id | id in u.rides :: id in t.rides || Newborn(u.rides[id]))
  }

  // ---------- the invariant ----------

  predicate MatchTimes(t: Tables, now: int) {
    forall m | m in t.matches ::
      MatchRowOk(t.matches[m]) && (t.matches[m].endedAt.Some? ==> t.matches[m].endedAt.value <= now)
  }

  predicate Ended(t: Tables, matchId: int) {
    matchId in t.matches && t.matches[matchId].endedAt.Some?
  }

  /** A locked ride waits on a match that has not ended. */
  predicate LockedAreLive(t: Tables) {
    forall id | id in t.rides :: t.rides[id].state == Locked <==> !Ended(t, t.rides[id].matchId)
  }

  /** A closed round owns no locked and no undecided ride. */
  predicate ClosedOwnsNoLive(t: Tables) {
    forall id | id in t.rides ::
      !Terminal(t.rides[id].state) && RoundKnown(t, t.rides[id].matchId) ==>
          RoundStatusOf(t, t.rides[id].matchId) != RoundClosed
  }

  predicate Steady(t: Tables, now: int) {
    References(t) && MatchTimes(t, now) && RowsValid(t) && LockedAreLive(t) && ClosedOwnsNoLive(t)
  }

  /** The service commands never accrue a bonus: settlement leaves it alone. */
  predicate NothingAccrued(t: Tables) {
    forall id | id in t.rides :: t.rides[id].acc == 0.0
  }

  predicate Inv(t: Tables, now: int) {
    Steady(t, now) && NothingAccrued(t)
  }

  // ---------- each command keeps it ----------

  lemma CreateKeeps(t: Tables, input: Ride, token: Token, marshal: Marshal, now: int, id: int)
    requires Steady(t, now)
    ensures var u := Run(t, CreateRide(input, token, marshal), now, id).t; Steady(u, now) && Evolves(t, u)
  {
    hide Steady, Evolves, CreationRefusal;
    var u := Run(t, CreateRide(input, token, marshal), now, id).t;
    if u == t {
      StayingKeeps(t, now);
    } else {
      CreationExactly(t, input, token, marshal, now, id);
      NewRideKeeps(t, u, input, now, id);
    }
  }

  lemma StayingKeeps(t: Tables, now: int)
    requires Steady(t, now)
    ensures Evolves(t, t)
  {
  }

  lemma NewRideKeeps(t: Tables, u: Tables, input: Ride, now: int, id: int)
    requires Steady(t, now) && CreationRefusal(t, input, now, id).None?
    requires u == t.(rides := t.rides[id := CreatedRow(input)], keys := u.keys)
    ensures Steady(u, now) && Evolves(t, u)
  {
    assert !Ended(t, input.matchId);
  }

  lemma DecideKeeps(t: Tables, decision: Decision, rideId: int, token: Token, marshal: Marshal, now: int)
    requires Steady(t, now)
    ensures var u := Run(t, DecideRide(decision, rideId, token, marshal), now, 0).t; Steady(u, now) && Evolves(t, u)
  {
    var u := Run(t, DecideRide(decision, rideId, token, marshal), now, 0).t;
    if u == t {
      StayingKeeps(t, now);
    } else {
      DecisionExactly(t, decision, rideId, token, marshal, now);
      hide Run, Steady, Evolves, DecisionRefusal, DecidedRow;
      DecidedRideKeeps(t, u, decision, rideId, now);
    }
  }

  lemma DecidedRideKeeps(t: Tables, u: Tables, decision: Decision, rideId: int, now: int)
    requires Steady(t, now) && DecisionRefusal(t, decision, rideId, now).None?
    requires decision.Continue? ==> NextForTeam(t, t.rides[rideId].teamId).Ok?
    requires u == t.(rides := t.rides[rideId := DecidedRow(t, decision, t.rides[rideId])], keys := u.keys)
    ensures Steady(u, now) && Evolves(t, u)
  {
    assert RideStep(t.rides[rideId], u.rides[rideId]);
    if decision.Continue? {
      NextQualifies(t, t.rides[rideId].teamId);
    }
  }

  lemma ResolveKeeps(t: Tables, matchId: int, home: Option<int>, away: Option<int>, endedAt: int, version: int,
      now: int)
    requires Steady(t, now)
    ensures var u := Run(t, ResolveMatch(matchId, home, away, endedAt, version), now, 0).t;
      Steady(u, now) && Evolves(t, u)
  {
    hide Run;
    ResolutionExactly(t, matchId, home, away, endedAt, version, now);
    var o := Run(t, ResolveMatch(matchId, home, away, endedAt, version), now, 0);
    if o.answer.Ok? {
      var u := o.t;
      forall m | m in t.matches ensures m in u.matches && MatchKeeps(t.matches[m], u.matches[m]) {
      }
      forall id | id in t.rides
        ensures u.rides[id] == t.rides[id] || RideStep(t.rides[id], u.rides[id])
      {
      }
      assert LockedAreLive(u);
      assert ClosedOwnsNoLive(u);
    }
  }

  /** A round row written anew: only its own round's live rides could be wronged by it. */
  lemma RoundWriteKeeps(t: Tables, now: int, id: int, edited: Round)
    requires Steady(t, now) && id in t.rounds
    requires UpdateRoundRow(t, now, id, edited).Ok? && RoundRank(t.rounds[id].status) <= RoundRank(edited.status)
    ensures var u := UpdateRoundRow(t, now, id, edited).value; Steady(u, now) && Evolves(t, u)
  {
  }

  lemma CloseKeeps(t: Tables, now: int, id: int, edited: Round)
    requires Steady(t, now) && id in t.rounds
    requires t.rounds[id].status == RoundOpen && edited.status == RoundClosed
        && edited.seasonId == t.rounds[id].seasonId
    requires CloseRound(t, id, edited, now).Ok?
    ensures var u := CloseRound(t, id, edited, now).value; Steady(u, now) && Evolves(t, u)
  {
    CloseExactly(t, id, edited, now);
    var u := CloseRound(t, id, edited, now).value;
    forall k | k in t.rides
      ensures u.rides[k] == t.rides[k] || RideStep(t.rides[k], u.rides[k])
      ensures !Terminal(u.rides[k].state) ==>
        u.rides[k] == t.rides[k] && RoundStatusOf(u, u.rides[k].matchId) != RoundClosed
    {
    }
  }

  lemma PatchRoundKeeps(t: Tables, cmd: Command, now: int)
    requires Steady(t, now) && cmd.PatchRound?
    ensures var u := Run(t, cmd, now, 0).t; Steady(u, now) && Evolves(t, u)
  {
    hide CloseRound, UpdateRoundRow;
    if cmd.roundId >= 1 && cmd.roundId in t.rounds {
      var row := t.rounds[cmd.roundId];
      var edited := PrepareRound(cmd, row);
      if edited.Ok? && WriteRound(t, cmd.roundId, row, edited.value, now).Ok? {
        if IsOpening(row, edited.value) {
          var flipped := FlipSeason(t, edited.value.seasonId, SeasonOpen, SeasonInProgress);
          assert Steady(flipped, now) && Evolves(t, flipped);
          RoundWriteKeeps(flipped, now, cmd.roundId, edited.value);
        } else if IsClosing(row, edited.value) {
          CloseKeeps(t, now, cmd.roundId, edited.value);
        } else {
          RoundWriteKeeps(t, now, cmd.roundId, edited.value);
        }
      }
    }
  }

  lemma PatchMatchKeeps(t: Tables, cmd: Command, now: int)
    requires Steady(t, now) && cmd.PatchMatch?
    ensures var u := Run(t, cmd, now, 0).t; Steady(u, now) && Evolves(t, u)
  {
    EditNeverEnds(t, cmd, now);
  }

  lemma CommandKeeps(t: Tables, cmd: Command, now: int, id: int)
    requires Steady(t, now)
    ensures var u := Run(t, cmd, now, id).t; Steady(u, now) && Evolves(t, u)
  {
    match cmd
    case CreateRide(ride, token, marshal) => CreateKeeps(t, ride, token, marshal, now, id);
    case DecideRide(decision, rideId, token, marshal) => DecideKeeps(t, decision, rideId, token, marshal, now);
    case ResolveMatch(matchId, home, away, endedAt, version) =>
      ResolveKeeps(t, matchId, home, away, endedAt, version, now);
    case PatchRound(_, _, _, _, _) => PatchRoundKeeps(t, cmd, now);
    case PatchMatch(_, _, _, _) => PatchMatchKeeps(t, cmd, now);
    case PatchSeason(_, _, _) => PatchSeasonKeeps(t, cmd, now);
  }

  lemma PatchSeasonKeeps(t: Tables, cmd: Command, now: int)
    requires Steady(t, now) && cmd.PatchSeason?
    ensures var u := Run(t, cmd, now, 0).t; Steady(u, now) && Evolves(t, u)
  {
  }

  lemma AddRoundKeeps(t: Tables, round: Round, now: int, id: int)
    requires Steady(t, now)
    ensures var u := Step(t, AddRound(round, now, id)); Steady(u, now) && Evolves(t, u)
  {
  }

  /** A match may be added to any round, a closed one too: no ride is on it yet. */
  lemma AddMatchKeeps(t: Tables, m: Match, now: int, id: int)
    requires Steady(t, now)
    ensures var u := Step(t, AddMatch(m, now, id)); Steady(u, now) && Evolves(t, u)
  {
  }

  /** One action from a steady state: a steady state, every row moved legally. */
  lemma StepKeeps(t: Tables, action: Action)
    requires Steady(t, action.now)
    ensures Steady(Step(t, action), action.now) && Evolves(t, Step(t, action))
    ensures NothingAccrued(t) ==> NothingAccrued(Step(t, action))
  {
    match action
    case Do(cmd, now, id) => CommandKeeps(t, cmd, now, id);
    case AddRound(round, now, id) => AddRoundKeeps(t, round, now, id);
    case AddMatch(m, now, id) => AddMatchKeeps(t, m, now, id);
  }

  lemma ExecSnoc(t: Tables, actions: seq<Action>, action: Action)
    ensures Exec(t, actions + [action]) == Step(Exec(t, actions), action)
  {
  }
}
