/** Theorems about every run of commands from a fresh deployment. */
module Runs {
  import opened Model
  import opened Phases
  import opened Commands
  import opened Changes
  import opened Reachable

  // ---------- reachable states ----------

  /** In every state a run reaches: a ride is locked exactly while its match has not
      ended, a closed round owns no locked and no undecided ride, and no bonus has
      been accrued. */
  lemma {:induction false} ReachableStatesKeep(t: Tables, actions: seq<Action>, now: int)
    requires Fresh(t) && InOrder(actions)
    requires forall i | 0 <= i < |actions| :: actions[i].now <= now
    ensures Inv(Exec(t, actions), now)
    decreases |actions|
  {
    if actions != [] {
      var last := |actions| - 1;
      var action := actions[last];
      ReachableStatesKeep(t, actions[..last], action.now);
      StepKeeps(Exec(t, actions[..last]), action);
    }
  }

  /** The states service commands reach always let a started, in-progress match be
      resolved: no loser carries a bonus, so nothing else stands in the way. */
  lemma ReachableMatchesResolve(t: Tables, actions: seq<Action>, matchId: int,
      home: Option<int>, away: Option<int>, endedAt: int, version: int, now: int)
    requires Fresh(t) && InOrder(actions)
    requires forall i | 0 <= i < |actions| :: actions[i].now <= now
    ensures var s := Exec(t, actions);
      Run(s, ResolveMatch(matchId, home, away, endedAt, version), now, 0).answer.Ok?
      <==> Rules.ScoreRefusal(s, matchId, home, away, version, now).None?
  {
    ReachableStatesKeep(t, actions, now);
    Facts.ResolutionExactly(Exec(t, actions), matchId, home, away, endedAt, version, now);
  }

  // ---------- phases ----------

  /** Over any two points of a run, a match whose start is the same at both is never
      in an earlier phase at the later point. */
  lemma PhasesOnlyAdvance(t: Tables, actions: seq<Action>, more: seq<Action>, m: int, now: int,
      later: int)
    requires Fresh(t) && InOrder(actions + more)
    requires forall i | 0 <= i < |actions| :: actions[i].now <= now
    requires forall i | 0 <= i < |more| :: now <= more[i].now <= later
    requires now <= later
    requires m in Exec(t, actions).matches
    ensures m in Exec(t, actions + more).matches
    ensures var before, after := Exec(t, actions).matches[m], Exec(t, actions + more).matches[m];
      after.startsAt == before.startsAt ==>
        && (PhaseOf(now, before) == DecisionPhase ==> PhaseOf(later, after) == DecisionPhase)
        && (PhaseOf(later, after) == ActionPhase ==> PhaseOf(now, before) == ActionPhase)
  {
    MatchesKeepOver(t, actions, more, m, later);
    var before, after := Exec(t, actions).matches[m], Exec(t, actions + more).matches[m];
    if after.startsAt == before.startsAt {
      PhaseNeverMovesBack(now, before, later, after);
    }
  }

  lemma {:induction false} MatchesKeepOver(t: Tables, actions: seq<Action>, more: seq<Action>, m: int, later: int)
    requires Fresh(t) && InOrder(actions + more)
    requires forall i | 0 <= i < |actions + more| :: (actions + more)[i].now <= later
    requires m in Exec(t, actions).matches
    ensures m in Exec(t, actions + more).matches
    ensures MatchKeeps(Exec(t, actions).matches[m], Exec(t, actions + more).matches[m])
    decreases |more|
  {
    hide Step, Steady, Inv, Run;
    if more == [] {
      assert actions + more == actions;
    } else {
      var last := |more| - 1;
      var prefix := actions + more[..last];
      assert (actions + more)[..|actions + more| - 1] == prefix;
      MatchesKeepOver(t, actions, more[..last], m, later);
      ReachableStatesKeep(t, prefix, more[last].now) by {
        forall i | 0 <= i < |prefix| ensures prefix[i].now <= more[last].now {
          assert prefix[i] == (actions + more)[i] && more[last] == (actions + more)[|prefix|];
        }
      }
      StepKeeps(Exec(t, prefix), more[last]);
    }
  }

  // ---------- stakes ----------

  /** Tokens over the rides with ids below the bound. */
  function Staked(rides: map<int, Ride>, bound: nat): int {
    if bound == 0 then 0
    else Staked(rides, bound - 1) + (if bound - 1 in rides then rides[bound - 1].tokensLocked else 0)
  }

  /** What the creations of the run put in: each counts where it drew a fresh id and executed. */
  function Created(t: Tables, actions: seq<Action>): int
    decreases |actions|
  {
    if actions == [] then 0
    else
      var last := |actions| - 1;
      var before := Exec(t, actions[..last]);
      var action := actions[last];
      Created(t, actions[..last])
      + (if action.Do? && action.cmd.CreateRide? && action.id in Step(before, action).rides
          && action.id !in before.rides
         then action.cmd.ride.tokensLocked else 0)
  }

  lemma {:induction false} SameStakesSameTotal(before: map<int, Ride>, after: map<int, Ride>, bound: nat)
    requires before.Keys == after.Keys
    requires forall id | id in before :: after[id].tokensLocked == before[id].tokensLocked
    ensures Staked(before, bound) == Staked(after, bound)
  {
    if bound > 0 {
      SameStakesSameTotal(before, after, bound - 1);
    }
  }

  lemma {:induction false} OneMoreStake(rides: map<int, Ride>, id: nat, ride: Ride, bound: nat)
    requires id !in rides
    ensures Staked(rides[id := ride], bound) == Staked(rides, bound) + (if id < bound then ride.tokensLocked else 0)
  {
    if bound > 0 {
      OneMoreStake(rides, id, ride, bound - 1);
    }
  }

  /** No command but a creation adds a ride, and a creation adds one. */
  lemma OnlyCreateAdds(t: Tables, action: Action)
    requires Inv(t, action.now)
    ensures var u := Step(t, action);
      if action.Do? && action.cmd.CreateRide? && action.id in u.rides && action.id !in t.rides
      then u.rides == t.rides[action.id := Rules.CreatedRow(action.cmd.ride)]
      else u.rides.Keys == t.rides.Keys
  {
    StepKeeps(t, action);
    if action.Do? {
      var cmd, now := action.cmd, action.now;
      match cmd {
        case CreateRide(ride, token, marshal) =>
          if token.key !in t.keys {
            Facts.CreationExactly(t, ride, token, marshal, now, action.id);
          }
        case DecideRide(decision, rideId, token, marshal) =>
          if token.key !in t.keys {
            Facts.DecisionExactly(t, decision, rideId, token, marshal, now);
          }
        case ResolveMatch(matchId, home, away, endedAt, version) =>
          Facts.ResolutionExactly(t, matchId, home, away, endedAt, version, now);
        case PatchRound(_, _, _, _, _) =>
          RoundPatchKeepsRides(t, cmd, now);
        case PatchMatch(_, _, _, _) =>
        case PatchSeason(_, _, _) =>
      }
    }
  }

  lemma RoundPatchKeepsRides(t: Tables, cmd: Command, now: int)
    requires cmd.PatchRound?
    ensures Run(t, cmd, now, 0).t.rides.Keys == t.rides.Keys
  {
    if cmd.roundId >= 1 && cmd.roundId in t.rounds {
      var row := t.rounds[cmd.roundId];
      var edited := PrepareRound(cmd, row);
      if edited.Ok? && IsClosing(row, edited.value) {
        Facts.CloseExactly(t, cmd.roundId, edited.value, now);
      }
    }
  }

  /** One action adds to the total what it creates, and nothing else. */
  lemma StepStakes(t: Tables, action: Action, bound: nat)
    requires Inv(t, action.now) && 0 <= action.id < bound
    ensures var u := Step(t, action);
      Staked(u.rides, bound) == Staked(t.rides, bound)
        + (if action.Do? && action.cmd.CreateRide? && action.id in u.rides && action.id !in t.rides
           then action.cmd.ride.tokensLocked else 0)
  {
    var u := Step(t, action);
    StepKeeps(t, action);
    OnlyCreateAdds(t, action);
    if u.rides.Keys == t.rides.Keys {
      SameStakesSameTotal(t.rides, u.rides, bound);
    } else {
      OneMoreStake(t.rides, action.id, Rules.CreatedRow(action.cmd.ride), bound);
    }
  }

  /** Tokens are conserved: over live and terminal rides together, the total is what
      the creations of the run put in, whatever else happened. */
  lemma {:induction false} StakesAreConserved(t: Tables, actions: seq<Action>, now: int, bound: nat)
    requires Fresh(t) && InOrder(actions)
    requires forall i | 0 <= i < |actions| :: actions[i].now <= now && 0 <= actions[i].id < bound
    ensures Staked(Exec(t, actions).rides, bound) == Created(t, actions)
    decreases |actions|
  {
    if actions == [] {
      NoRidesNoStake(bound);
    } else {
      var last := |actions| - 1;
      StakesAreConserved(t, actions[..last], actions[last].now, bound);
      ReachableStatesKeep(t, actions[..last], actions[last].now);
      StepStakes(Exec(t, actions[..last]), actions[last], bound);
    }
  }

  lemma {:induction false} NoRidesNoStake(bound: nat)
    ensures Staked(map[], bound) == 0
  {
    if bound > 0 {
      NoRidesNoStake(bound - 1);
    }
  }

  // ---------- the run of one ride ----------

  /** The versions of one ride over the run, oldest first. */
  function History(t: Tables, actions: seq<Action>, id: int): seq<Ride>
    decreases |actions|
  {
    if actions == [] then []
    else
      var rows := History(t, actions[..|actions| - 1], id);
      var now := Exec(t, actions);
      if id !in now.rides || (rows != [] && rows[|rows| - 1] == now.rides[id]) then rows else rows + [now.rides[id]]
  }

  /** How often the ride was continued. */
  function Continuations(rows: seq<Ride>): int
    decreases |rows|
  {
    if |rows| <= 1 then 0
    else Continuations(rows[..|rows| - 1]) + (if rows[|rows| - 1].state == Locked then 1 else 0)
  }

  /** locked (won_pending locked)*, then at most one exit. */
  predicate SpellsARide(rows: seq<Ride>) {
    && rows != []
    && (forall i | 0 <= i < |rows| - 1 :: rows[i].state == (if i % 2 == 0 then Locked else WonPending))
    && rows[|rows| - 1].state in (if |rows| % 2 == 1 then {Locked, Burned, Unlocked} else {WonPending, Lost})
    && rows[0].state == Locked
  }

  /** Rows at even places are the matches the ride was locked on. */
  predicate VisitsDistinctMatches(rows: seq<Ride>) {
    forall i, j | 0 <= i < j < |rows| && rows[i].state == Locked && rows[j].state == Locked ::
      rows[i].matchId != rows[j].matchId
  }

  predicate HistoryOk(t: Tables, rows: seq<Ride>, id: int) {
    && id in t.rides
    && SpellsARide(rows)
    && rows[|rows| - 1] == t.rides[id]
    && VisitsDistinctMatches(rows)
    && (forall i | 0 <= i < |rows| :: rows[i].version == i + 1 && SameStake(rows[0], rows[i]))
    && (forall i | 0 <= i < |rows| - 1 :: Ended(t, rows[i].matchId))
    && t.rides[id].streak == Continuations(rows)
    && t.rides[id].streak == (if t.rides[id].state in {Burned, Unlocked} then (|rows| - 1) / 2 - 1
         else (|rows| - 1) / 2)
  }

  lemma {:induction false} HistoriesAreOk(t: Tables, actions: seq<Action>, id: int, now: int)
    requires Fresh(t) && InOrder(actions)
    requires forall i | 0 <= i < |actions| :: actions[i].now <= now
    ensures var rows := History(t, actions, id);
      if id in Exec(t, actions).rides then HistoryOk(Exec(t, actions), rows, id) else rows == []
    decreases |actions|
  {
    if actions != [] {
      var last := |actions| - 1;
      var action := actions[last];
      var before := Exec(t, actions[..last]);
      HistoriesAreOk(t, actions[..last], id, action.now);
      ReachableStatesKeep(t, actions[..last], action.now);
      StepKeeps(before, action);
      ExtendHistory(before, Step(before, action), History(t, actions[..last], id), id, action.now);
    }
  }

  /** The next version lengthens the word: an edge of the gate, to a match not seen before. */
  lemma OneVersionMore(t: Tables, rows: seq<Ride>, id: int, next: Ride)
    requires HistoryOk(t, rows, id) && RideStep(t.rides[id], next)
    requires next.state == Locked ==> !Ended(t, next.matchId) && Ended(t, t.rides[id].matchId)
    ensures SpellsARide(rows + [next]) && VisitsDistinctMatches(rows + [next])
    ensures Continuations(rows + [next]) == next.streak
    ensures next.streak == (if next.state in {Burned, Unlocked} then |rows| / 2 - 1 else |rows| / 2)
  {
  }

  /** Every match of the earlier versions has ended by the time of a later one. */
  lemma EarlierMatchesEnded(t: Tables, u: Tables, rows: seq<Ride>, id: int, now: int)
    requires Inv(t, now) && Inv(u, now) && Evolves(t, u) && id in u.rides && HistoryOk(t, rows, id)
    requires RideStep(t.rides[id], u.rides[id])
    ensures forall i | 0 <= i < |rows| :: Ended(u, rows[i].matchId)
  {
  }

  lemma ExtendHistory(t: Tables, u: Tables, rows: seq<Ride>, id: int, now: int)
    requires Inv(t, now) && Inv(u, now) && Evolves(t, u)
    requires if id in t.rides then HistoryOk(t, rows, id) else rows == []
    ensures if id !in u.rides then rows == []
            else HistoryOk(u, if rows != [] && rows[|rows| - 1] == u.rides[id] then rows else rows + [u.rides[id]], id)
  {
    if id in t.rides && u.rides[id] != t.rides[id] {
      OneVersionMore(t, rows, id, u.rides[id]);
      EarlierMatchesEnded(t, u, rows, id, now);
    }
  }

  /** What the versions of a ride tell: the alternating word with at most one exit,
      distinct matches, streak = continuations, version = 1 + writes, and no more
      writes than the schedule has room for. */
  predicate FiniteRun(t: Tables, rows: seq<Ride>, id: int) {
    && SpellsARide(rows)
    && VisitsDistinctMatches(rows)
    && id in t.rides && rows[|rows| - 1] == t.rides[id]
    && t.rides[id].streak == Continuations(rows)
    && t.rides[id].version == |rows|
    && t.rides[id].streak + 1 <= |t.matches|
    && |rows| <= 2 * |t.matches| + 1
  }

  lemma EveryRideRunIsFinite(t: Tables, actions: seq<Action>, id: int, now: int)
    requires Fresh(t) && InOrder(actions)
    requires forall i | 0 <= i < |actions| :: actions[i].now <= now
    requires id in Exec(t, actions).rides
    ensures FiniteRun(Exec(t, actions), History(t, actions, id), id)
  {
    HistoriesAreOk(t, actions, id, now);
    ReachableStatesKeep(t, actions, now);
    HistoryIsFinite(Exec(t, actions), History(t, actions, id), id);
  }

  lemma HistoryIsFinite(t: Tables, rows: seq<Ride>, id: int)
    requires HistoryOk(t, rows, id) && References(t)
    ensures FiniteRun(t, rows, id)
  {
    VisitedFit(t, rows, id);
    assert rows[|rows| - 1].version == |rows|;
  }

  /** The matches a ride was locked on are that many different rows of the schedule. */
  lemma VisitedFit(t: Tables, rows: seq<Ride>, id: int)
    requires HistoryOk(t, rows, id) && References(t)
    ensures 0 <= t.rides[id].streak && t.rides[id].streak + 1 <= |t.matches|
  {
    var n := t.rides[id].streak;
    var visited := seq(n + 1, k requires 0 <= k <= n => rows[2 * k].matchId);
    forall i, j | 0 <= i < j < |visited| ensures visited[i] != visited[j] {
      assert rows[2 * i].state == Locked && rows[2 * j].state == Locked;
    }
    forall i | 0 <= i < |visited| ensures visited[i] in t.matches.Keys {
      assert 2 * i <= |rows| - 1;
    }
    DistinctFit(visited, t.matches.Keys);
    assert |t.matches.Keys| == |t.matches|;
  }

  /** Pairwise distinct values of a finite set are no more than the set. */
  lemma {:induction false} DistinctFit(values: seq<int>, range: set<int>)
    requires forall i, j | 0 <= i < j < |values| :: values[i] != values[j]
    requires forall i | 0 <= i < |values| :: values[i] in range
    ensures |values| <= |range|
    decreases |values|
  {
    if values != [] {
      var last := |values| - 1;
      DistinctFit(values[..last], range - {values[last]});
    }
  }
}
