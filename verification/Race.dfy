/** The schedule that strands a ride: the command has read its match, the resolution
    runs from its start to its commit, the command writes, saves and commits. */
module Race {
  import opened Model
  import opened Phases
  import opened Gates
  import opened Rides
  import opened Statements
  import opened Commands
  import Rules
  import opened Reachable
  import opened Interleaving
  import opened Steps
  import opened Courses
  import opened LockedRides
  import opened Stranding
  import opened Stability
  import Layers

  // ---------- schedules, step by step ----------

  ghost function DuelRule(c: Command, r: Command): Rule {
    (s: System, event: Event) => DuelEvent(event, c, r)
  }

  // ---------- the whole schedule ----------

  lemma DuelPermits(c: Command, r: Command)
    ensures Permits(DuelRule(c, r), RIDER, c) && Permits(DuelRule(c, r), RESOLVER, r) && PermitsTicks(DuelRule(c, r))
  {
  }

  /** When the continuation can strand its ride: in its decision phase, the other match started. */
  function ContinuationTime(t: Tables, now: int, c: Command, m: int): int
    requires c.DecideRide? && c.rideId in t.rides && m in t.matches && Ended(t, t.rides[c.rideId].matchId)
  {
    var ready, begun := t.matches[t.rides[c.rideId].matchId].endedAt.value + DECISION_PHASE_LAG,
        t.matches[m].startsAt + 1;
    if now < ready && begun <= ready then ready else if now < begun then begun else now
  }

  /** A continuation: it waits for its decision phase and the other match's start. */
  lemma ContinuationStrands(s: System, c: Command, r: Command) returns (w: System)
    requires c.DecideRide? && r.ResolveMatch? && Initial(s) && Steady(s.db, s.clock) && MayStrand(s.db, s.clock, c, r)
    ensures Reaches(s, w, DuelRule(c, r)) && Stranded(w.db)
    ensures Ended(s.db, s.db.rides[c.rideId].matchId) && w.clock == ContinuationTime(s.db, s.clock, c, r.matchId)
  {
    hide Reaches, Permits, PermitsSteps, Bound;
    var t, m, ride, rule := s.db, r.matchId, s.db.rides[c.rideId], DuelRule(c, r);
    assert Ended(t, ride.matchId);
    Layers.SteadyIsOk(s.db, s.clock);
    ReachesItself(s, rule);
    DuelPermits(c, r);
    var a := Waits(s, s, rule, ContinuationTime(t, s.clock, c, m));
    ContinuationReads(s, a, rule, RIDER, c, m);
    var b := With(a, RIDER, Claiming(c, a.clock, Snapshotted(t, a.clock, c, m)));
    var v := ResolutionRuns(s, b, rule, RESOLVER, r);
    assert !OnMatch(ride, m);
    ContinuationIsBound(t, v.db, a.clock, c, m);
    w := RiderLandsLast(s, v, c, r, m);
  }

  /** The re-check looks at the refreshed ride only; the destination is the snapshot's. */
  lemma ContinuationIsBound(t: Tables, u: Tables, now: int, c: Command, m: int)
    requires MayContinueAt(t, now, c, m) && RideRowOk(t.rides[c.rideId])
    requires c.marshal(c.rideId, Continued(t.rides[c.rideId], m)).Ok?
    requires c.rideId in u.rides && u.rides[c.rideId] == t.rides[c.rideId]
    ensures Bound(u, Claiming(c, now, Snapshotted(t, now, c, m)), m)
  {
    DecidesAt(t, now, c, m);
    var ride := t.rides[c.rideId];
    assert UpdatedRow(ride, Locking(ride, m)) == Continued(ride, m);
  }

  /** The insert re-checks the round only: the match may have ended since the phase was read. */
  lemma CreationIsBound(u: Tables, now: int, c: Command, id: int)
    requires c.CreateRide? && c.ride.tokensLocked > 0 && c.ride.baseAtLock > 0.0
    requires c.ride.playerId in u.players && c.ride.teamId in u.teams && RoundOpenFor(u, c.ride.matchId)
    requires id !in u.rides && c.marshal(id, Rules.CreatedRow(c.ride)).Ok?
    ensures Bound(u, Claiming(c, now, Creating(CreateOf(c.ride, ActionPhase).value, now)), c.ride.matchId)
  {
    assert CreateOf(c.ride, ActionPhase).value.(version := 1) == Rules.CreatedRow(c.ride);
  }

  /** The command goes on after the resolution's commit, to its own. */
  lemma RiderLandsLast(s: System, v: System, c: Command, r: Command, m: int) returns (w: System)
    requires SystemOk(s) && Reaches(s, v, DuelRule(c, r)) && Alone(v, RIDER) && RIDER in v.txs
    requires v.txs[RIDER].cmd == c && Bound(v.db, v.txs[RIDER], m) && Ended(v.db, m)
    ensures Reaches(s, w, DuelRule(c, r)) && Stranded(w.db) && w.clock == v.clock
  {
    hide Reaches, Bound;
    ReachedIsOk(s, v, DuelRule(c, r));
    DuelPermits(c, r);
    var id, e;
    w, id, e := BoundLands(s, v, DuelRule(c, r), RIDER, m);
    assert Strands(w.db, id);
  }

  /** A creation: it reads its phase at once, and the clock passes the start before it inserts. */
  lemma CreationStrands(s: System, c: Command, r: Command) returns (w: System)
    requires c.CreateRide? && r.ResolveMatch? && Initial(s) && Steady(s.db, s.clock) && MayStrand(s.db, s.clock, c, r)
    ensures Reaches(s, w, DuelRule(c, r)) && Stranded(w.db) && w.clock == s.db.matches[r.matchId].startsAt + 1
  {
    hide Reaches, Permits, PermitsSteps, Bound;
    var t, m, rule := s.db, r.matchId, DuelRule(c, r);
    var id :| id !in t.rides && c.marshal(id, Rules.CreatedRow(c.ride)).Ok?;
    Layers.SteadyIsOk(s.db, s.clock);
    ReachesItself(s, rule);
    DuelPermits(c, r);
    CreationReads(s, s, rule, RIDER, c);
    var a := With(s, RIDER, Claiming(c, s.clock, Creating(CreateOf(c.ride, ActionPhase).value, s.clock)));
    var b := Waits(s, a, rule, t.matches[m].startsAt + 1);
    var v := ResolutionRuns(s, b, rule, RESOLVER, r);
    CreationIsBound(v.db, s.clock, c, id);
    w := RiderLandsLast(s, v, c, r, m);
  }

  lemma DuelReaches(s: System, w: System, c: Command, r: Command)
    requires Reaches(s, w, DuelRule(c, r))
    ensures exists events :: Duel(events, c, r) && Play(s, events) == w
  {
    var events :| Follows(s, events, DuelRule(c, r)) && Play(s, events) == w;
    assert Duel(events, c, r);
  }

  /** Beside one resolution one ride command can leave a ride locked on an ended match
      exactly when, before the two, the resolution can be carried out and the command can
      lock a ride on its match. Both directions hold of all schedules of the two, with
      any ticks and cancellations, and of any rides already waiting on the match. */
  lemma StrandsExactly(s: System, c: Command, r: Command)
    requires IsRideCommand(c) && r.ResolveMatch? && Initial(s) && Steady(s.db, s.clock)
    ensures (exists events :: Duel(events, c, r) && Stranded(Play(s, events).db)) <==> MayStrand(s.db, s.clock, c, r)
  {
    if MayStrand(s.db, s.clock, c, r) {
      if c.CreateRide? {
        var w := CreationStrands(s, c, r);
        DuelReaches(s, w, c, r);
      } else {
        var w := ContinuationStrands(s, c, r);
        DuelReaches(s, w, c, r);
      }
    }
    forall events | Duel(events, c, r) && Stranded(Play(s, events).db) ensures MayStrand(s.db, s.clock, c, r) {
      StrandingNeeds(s, events, c, r);
    }
  }

  // ---------- in bounded time ----------

  /** For a creation the two must stay open long enough: within so many seconds a schedule
      strands its ride exactly when, besides, the match starts before they are over. */
  lemma CreationStrandsWithin(s: System, c: Command, r: Command, seconds: nat)
    requires c.CreateRide? && r.ResolveMatch? && Initial(s) && Steady(s.db, s.clock)
    ensures (exists events :: Duel(events, c, r) && Play(s, events).clock <= s.clock + seconds
               && Stranded(Play(s, events).db))
        <==> MayStrand(s.db, s.clock, c, r) && s.db.matches[r.matchId].startsAt < s.clock + seconds
  {
    if MayStrand(s.db, s.clock, c, r) && s.db.matches[r.matchId].startsAt < s.clock + seconds {
      var w := CreationStrands(s, c, r);
      DuelReaches(s, w, c, r);
    }
    forall events | Duel(events, c, r) && Stranded(Play(s, events).db)
      ensures MayStrand(s.db, s.clock, c, r) && s.db.matches[r.matchId].startsAt < Play(s, events).clock
    {
      CreationTakesTime(s, events, c, r);
    }
  }

  /** So a creation that is answered within the hour before the start, as every request
      is that keeps its three seconds, strands nothing. */
  lemma TimelyCreationStrandsNothing(s: System, events: seq<Event>, c: Command, r: Command)
    requires c.CreateRide? && r.ResolveMatch? && Initial(s) && Steady(s.db, s.clock) && Duel(events, c, r)
    requires Play(s, events).clock <= s.clock + ACTION_PHASE_LEAD
    ensures !Stranded(Play(s, events).db)
  {
    if Stranded(Play(s, events).db) {
      CreationTakesTime(s, events, c, r);
    }
  }

  /** A continuation needs no time at all, once it is in its decision phase and the other
      match has started. */
  lemma ContinuationStrandsAtOnce(s: System, c: Command, r: Command)
    requires c.DecideRide? && r.ResolveMatch? && Initial(s) && Steady(s.db, s.clock) && MayStrand(s.db, s.clock, c, r)
    requires s.db.matches[r.matchId].startsAt < s.clock
    requires PhaseOf(s.clock, s.db.matches[s.db.rides[c.rideId].matchId]) == DecisionPhase
    ensures exists events :: Duel(events, c, r) && Play(s, events).clock == s.clock && Stranded(Play(s, events).db)
  {
    var w := ContinuationStrands(s, c, r);
    DuelReaches(s, w, c, r);
  }

  // ---------- no order of commands produces such tables ----------

  lemma SteadyIsNotStranded(t: Tables, now: int)
    requires Steady(t, now)
    ensures !Stranded(t)
  {
  }

  /** No run of whole commands, however long, strands a ride: what the schedule above
      reaches is no outcome of the two commands in any order. */
  lemma {:induction false} RunsNeverStrand(t: Tables, since: int, actions: seq<Action>, now: int)
    requires Steady(t, since) && since <= now && InOrder(actions)
    requires forall i | 0 <= i < |actions| :: since <= actions[i].now <= now
    ensures Steady(Exec(t, actions), now) && !Stranded(Exec(t, actions))
    decreases |actions|
  {
    if actions != [] {
      var last := |actions| - 1;
      RunsNeverStrand(t, since, actions[..last], actions[last].now);
      StepKeeps(Exec(t, actions[..last]), actions[last]);
    }
    SteadyIsNotStranded(Exec(t, actions), now);
  }

  // ---------- such tables exist ----------

  const WON: Match := Match(0, Some(100), 7, 1, 10, 11, MatchClosed, 2.0, 2.0, Some(1), Some(0), 2)
  const RUNNING: Match := Match(200, None, 7, 1, 10, 12, MatchInProgress, 2.0, 2.0, Some(0), Some(0), 1)
  const AHEAD: Match := Match(100000, None, 7, 1, 10, 12, MatchInProgress, 2.0, 2.0, Some(0), Some(0), 1)
  const UNDECIDED: Ride := Ride(3, 10, 1, WonPending, 100, 1.0, 0.0, 0, 2)
  const WAITING: Ride := Ride(3, 12, 2, Locked, 100, 1.0, 0.0, 0, 1)

  /** A team with two matches in the open round, the first won; a ride waits on the second. */
  function TwoMatches(second: Match): Tables {
    Tables({10, 11, 12}, {3}, map[7 := Season(SeasonInProgress, 1)], map[1 := Round(7, 1, RoundOpen, 1)],
           map[1 := WON, 2 := second], map[5 := UNDECIDED, 6 := WAITING], map[])
  }

  lemma ContinuationExists(now: int, c: Command)
    requires now >= 100
    requires c.DecideRide? && c.decision.Continue? && c.rideId == 5 && forall id, ride :: c.marshal(id, ride).Ok?
    ensures Inv(TwoMatches(RUNNING), now)
    ensures MayStrand(TwoMatches(RUNNING), now, c, ResolveMatch(2, Some(1), Some(0), now, 1))
  {
    assert 2 in TwoMatches(RUNNING).matches && Upcoming(TwoMatches(RUNNING), 10, 2);
  }

  /** A match put in play before its start can be resolved after a creation has read it. */
  lemma CreationExists(c: Command)
    requires c.CreateRide? && c.ride == WAITING && forall id, ride :: c.marshal(id, ride).Ok?
    ensures Inv(TwoMatches(AHEAD), 100) && MayStrand(TwoMatches(AHEAD), 100, c, ResolveMatch(2, Some(1), Some(0), 0, 1))
  {
    assert 7 !in TwoMatches(AHEAD).rides;
  }
}
