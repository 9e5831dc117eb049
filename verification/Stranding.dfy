/** When one ride command beside one resolution can leave a ride locked on an ended
    match: exactly when a condition on the tables before the two holds. */
module Stranding {
  import opened Model
  import opened Phases
  import opened Gates
  import opened Rides
  import opened Statements
  import opened Commands
  import Rules
  import opened Reachable
  import opened Interleaving
  import opened Safety
  import opened Stability
  import Histories
  import Layers

  predicate Strands(t: Tables, id: int) {
    id in t.rides && t.rides[id].state == Locked && Ended(t, t.rides[id].matchId)
  }

  /** A ride is locked on a match that has ended, where no settlement will find it. */
  predicate Stranded(t: Tables) {
    exists id | id in t.rides :: Strands(t, id)
  }

  // ---------- the condition ----------

  /** The match as the resolution will score it. */
  function ScoredAs(m: Match, r: Command): Match
    requires r.ResolveMatch?
  {
    m.(homeScore := r.home, awayScore := r.away)
  }

  /** The resolution can be carried out now or later: the guard of its write, a score the
      columns take, and no locked ride that loses with a bonus. */
  predicate MayYetResolve(t: Tables, r: Command)
    requires r.ResolveMatch?
  {
    && RoundOpenFor(t, r.matchId)
    && var m := t.matches[r.matchId];
       && m.status == MatchInProgress && m.version == r.version
       && r.home.Some? && r.away.Some? && ScoreFits(r.home) && ScoreFits(r.away)
       && forall id | id in t.rides && OnMatch(t.rides[id], r.matchId) ::
            SettledState(ScoredAs(m, r), t.rides[id].teamId) == Lost ==> t.rides[id].acc == 0.0
  }

  /** A creation on the match, while its action phase lasts. */
  predicate MayCreateOn(t: Tables, now: int, input: Ride, m: int) {
    && input.matchId == m && RoundOpenFor(t, m) && now < t.matches[m].startsAt - ACTION_PHASE_LEAD
    && input.tokensLocked > 0 && input.baseAtLock > 0.0
    && input.playerId in t.players && input.teamId in t.teams
  }

  /** A continuation whose pick is the match. */
  predicate MayContinueTo(t: Tables, rideId: int, m: int) {
    && rideId in t.rides && t.rides[rideId].state == WonPending
    && RoundOpenFor(t, t.rides[rideId].matchId)
    && IsNext(t, t.rides[rideId].teamId, m)
  }

  function Continued(ride: Ride, m: int): Ride {
    ride.(state := Locked, matchId := m, streak := ride.streak + 1, version := ride.version + 1)
  }

  /** The row the command locks on the match. */
  predicate Locks(t: Tables, now: int, c: Command, m: int, id: int, row: Ride)
    requires IsRideCommand(c)
  {
    match c
    case CreateRide(input, _, _) => MayCreateOn(t, now, input, m) && id !in t.rides && row == Rules.CreatedRow(input)
    case DecideRide(decision, rideId, _, _) =>
      decision.Continue? && MayContinueTo(t, rideId, m) && id == rideId && row == Continued(t.rides[rideId], m)
  }

  /** Under a fresh key the command can lock a ride on the match, now or later, and its
      answer can be stored. */
  ghost predicate MayLock(t: Tables, now: int, c: Command, m: int)
    requires IsRideCommand(c)
  {
    && c.token.key !in t.keys
    && match c
       case CreateRide(input, _, marshal) =>
         MayCreateOn(t, now, input, m) && exists id :: id !in t.rides && marshal(id, Rules.CreatedRow(input)).Ok?
       case DecideRide(decision, rideId, _, marshal) =>
         decision.Continue? && MayContinueTo(t, rideId, m) && marshal(rideId, Continued(t.rides[rideId], m)).Ok?
  }

  ghost predicate MayStrand(t: Tables, now: int, c: Command, r: Command)
    requires IsRideCommand(c) && r.ResolveMatch?
  {
    MayYetResolve(t, r) && MayLock(t, now, c, r.matchId)
  }

  // ---------- schedules of the two ----------

  const RIDER: int := 1
  const RESOLVER: int := 2

  ghost predicate DuelEvent(event: Event, c: Command, r: Command) {
    event.Begin? ==> (event.tid == RIDER && event.cmd == c) || (event.tid == RESOLVER && event.cmd == r)
  }

  /** Any schedule of the two transactions, with ticks and cancellations. */
  ghost predicate Duel(events: seq<Event>, c: Command, r: Command) {
    forall i | 0 <= i < |events| :: DuelEvent(events[i], c, r)
  }

  // ---------- only if: what every such schedule keeps ----------

  predicate ReadBefore(t0: Tables, t: Tables, id: int, ride: Ride) {
    t.matches == t0.matches ==> id in t0.rides && ride == t0.rides[id]
  }

  /** The pick: a match that had not ended before the two, and if it is the one being
      resolved, read before the resolution committed. */
  predicate Aimed(t0: Tables, c: Command, m: int, ride: Ride, destination: int)
    requires c.DecideRide?
  {
    c.decision.Continue? ==>
      && destination in t0.matches && !Ended(t0, destination)
      && (destination == m ==> MayContinueTo(t0, c.rideId, m) && ride == t0.rides[c.rideId])
  }

  predicate RowWritten(t0: Tables, now: int, c: Command, m: int, id: int, row: Ride)
    requires IsRideCommand(c)
  {
    row.state == Locked ==>
      row.matchId in t0.matches && !Ended(t0, row.matchId) && (row.matchId == m ==> Locks(t0, now, c, m, id, row))
  }

  ghost predicate RiderSees(t0: Tables, now: int, t: Tables, c: Command, m: int, tx: Tx)
    requires IsRideCommand(c)
  {
    tx.cmd == c
    && match tx.pc
       case RideRead(ride) => c.DecideRide? && ReadBefore(t0, t, c.rideId, ride)
       case PhaseRead(ride, _, _) => c.DecideRide? && ReadBefore(t0, t, c.rideId, ride)
           && RoundOpenFor(t0, ride.matchId)
       case Decided(ride, _, destination, _) => c.DecideRide? && Aimed(t0, c, m, ride, destination)
       case Updating(ride, _, destination, _, _) => c.DecideRide? && Aimed(t0, c, m, ride, destination)
       case Creating(ride, _) => OnTime(t0, now, ride.matchId)
       case Inserting(ride, _, _) => OnTime(t0, now, ride.matchId) && RoundOpenFor(t0, ride.matchId)
       case Written(id, _) => id in tx.w.rides && RowWritten(t0, now, c, m, id, tx.w.rides[id])
       case Saved(id, _, _) => id in tx.w.rides && RowWritten(t0, now, c, m, id, tx.w.rides[id])
           && c.marshal(id, tx.w.rides[id]).Ok?
       case _ => true
  }

  predicate OnTime(t0: Tables, now: int, m: int) {
    m in t0.matches && !Ended(t0, m) && now < t0.matches[m].startsAt - ACTION_PHASE_LEAD
  }

  predicate Resolvable(t0: Tables, r: Command)
    requires r.ResolveMatch?
  {
    && RoundOpenFor(t0, r.matchId)
    && t0.matches[r.matchId].status == MatchInProgress && t0.matches[r.matchId].version == r.version
    && r.home.Some? && r.away.Some? && ScoreFits(r.home) && ScoreFits(r.away)
  }

  predicate ScoreHeld(t0: Tables, r: Command, tx: Tx)
    requires r.ResolveMatch?
  {
    && Resolvable(t0, r) && r.matchId in tx.w.matches
    && tx.w.matches[r.matchId] == ResolvedRow(tx.now, t0.matches[r.matchId], r.home, r.away, r.endedAt)
  }

  ghost predicate ResolverSees(t0: Tables, r: Command, tx: Tx)
    requires r.ResolveMatch?
  {
    tx.cmd == r
    && match tx.pc
       case Resolving(snapshot) => snapshot.rounds == t0.rounds
       case Scored => ScoreHeld(t0, r, tx)
       case Settling(seen, _) =>
         ScoreHeld(t0, r, tx) && forall id | id in t0.rides && OnMatch(t0.rides[id], r.matchId) :: id in seen
       case _ => true
  }

  /** The committed tables: the rounds as before, at most the one match ended, and every
      ride locked on it there before or put there by the command. */
  ghost predicate TablesReached(t0: Tables, now: int, t: Tables, c: Command, r: Command)
    requires IsRideCommand(c) && r.ResolveMatch?
  {
    && t.rounds == t0.rounds && t.players == t0.players && t.teams == t0.teams
    && (forall k | k in t0.keys :: k in t.keys)
    && (forall id | id in t0.rides :: id in t.rides)
    && (t.matches == t0.matches || MatchResolved(t0, t, r))
    && (forall id | id in t.rides && t.rides[id].state == Locked :: t.rides[id].matchId in t0.matches
         && !Ended(t0, t.rides[id].matchId))
    && (forall id | id in t.rides && OnMatch(t.rides[id], r.matchId) ::
          MayLock(t0, now, c, r.matchId) || (t.matches == t0.matches && id in t0.rides && t.rides[id] == t0.rides[id]))
    && (t.matches == t0.matches ==>
          forall id | id in t0.rides && OnMatch(t0.rides[id], r.matchId) :: t.rides[id] == t0.rides[id])
  }

  predicate MatchResolved(t0: Tables, t: Tables, r: Command)
    requires r.ResolveMatch?
  {
    && MayYetResolve(t0, r) && r.matchId in t.matches
    && t.matches == t0.matches[r.matchId := t.matches[r.matchId]]
    && t.matches[r.matchId].status == MatchClosed && t.matches[r.matchId].endedAt.Some?
    && t.matches[r.matchId].roundId == t0.matches[r.matchId].roundId
    && t.matches[r.matchId].startsAt == t0.matches[r.matchId].startsAt
  }

  ghost predicate DuelOk(s0: System, s: System, c: Command, r: Command)
    requires IsRideCommand(c) && r.ResolveMatch?
  {
    && SystemOk(s) && s0.clock <= s.clock && MatchTimes(s.db, s.clock)
    && (RESOLVER in s.txs ==> s.txs[RESOLVER].now <= s.clock)
    && TablesReached(s0.db, s0.clock, s.db, c, r)
    && (forall a | a in s.txs :: a == RIDER || a == RESOLVER)
    && (RIDER in s.txs ==> RiderSees(s0.db, s0.clock, s.db, c, r.matchId, s.txs[RIDER]))
    && (RESOLVER in s.txs ==> ResolverSees(s0.db, r, s.txs[RESOLVER]))
    && (s.db.matches == s0.db.matches && !(RIDER in s.txs && s.txs[RIDER].pc.Done?) ==> s.db.rides == s0.db.rides)
  }

  lemma IsNextSame(t0: Tables, t: Tables, teamId: int, m: int)
    requires t.rounds == t0.rounds && t.matches == t0.matches
    ensures IsNext(t, teamId, m) <==> IsNext(t0, teamId, m)
  {
    assert forall b :: Upcoming(t, teamId, b) <==> Upcoming(t0, teamId, b);
  }

  lemma RiderReads(t0: Tables, now: int, t: Tables, clock: int, c: Command, r: Command, tx: Tx, pick: int)
    requires IsRideCommand(c) && r.ResolveMatch? && TablesReached(t0, now, t, c, r) && now <= clock
    requires MatchTimes(t0, now) && RiderSees(t0, now, t, c, r.matchId, tx)
    requires tx.pc.Claimed? || tx.pc.RideRead? || tx.pc.Creating?
    requires t.matches == t0.matches ==> t.rides == t0.rides
    ensures PlanRide(t, clock, tx, pick).Go? ==> RiderSees(t0, now, t, c, r.matchId, PlanRide(t, clock, tx, pick).tx)
  {
    if tx.pc.Claimed? && c.CreateRide? && c.ride.matchId in t0.matches && t0.matches[c.ride.matchId].endedAt.Some? {
      EndedMatchIsPastAction(clock, t0.matches[c.ride.matchId]);
    }
  }

  /** A match that is picked has not ended; the one being resolved is picked only before. */
  lemma RiderPicks(t0: Tables, now: int, t: Tables, c: Command, r: Command, tx: Tx)
    requires IsRideCommand(c) && r.ResolveMatch? && TablesReached(t0, now, t, c, r)
    requires RiderSees(t0, now, t, c, r.matchId, tx) && tx.pc.PhaseRead? && tx.cmd.DecideRide?
    ensures PlanDecide(t, tx).Go? ==> RiderSees(t0, now, t, c, r.matchId, PlanDecide(t, tx).tx)
  {
    var ride := tx.pc.ride;
    if Destination(t, c.decision, ride.teamId).Ok? && c.decision.Continue? {
      NextQualifies(t, ride.teamId);
      var destination := Destination(t, c.decision, ride.teamId).value;
      if t.matches == t0.matches {
        IsNextSame(t0, t, ride.teamId, destination);
      }
    }
  }

  lemma RiderUpdates(t0: Tables, now: int, t: Tables, c: Command, r: Command, tx: Tx)
    requires IsRideCommand(c) && r.ResolveMatch? && RiderSees(t0, now, t, c, r.matchId, tx)
    requires tx.pc.Updating? && tx.cmd.DecideRide? && DecisionMade(t, tx, tx.pc.ride, tx.pc.next, tx.pc.destination)
    ensures PlanUpdateRow(t, tx).Go? ==> RiderSees(t0, now, t, c, r.matchId, PlanUpdateRow(t, tx).tx)
  {
  }

  lemma RiderInserts(t0: Tables, now: int, t: Tables, c: Command, r: Command, tx: Tx, pick: int)
    requires IsRideCommand(c) && r.ResolveMatch? && TablesReached(t0, now, t, c, r)
    requires RiderSees(t0, now, t, c, r.matchId, tx)
    requires tx.pc.Inserting? && tx.cmd.CreateRide? && CreateOf(tx.cmd.ride, ActionPhase) == Ok(tx.pc.ride)
    ensures PlanInsertRow(t, tx, pick).Go? ==> RiderSees(t0, now, t, c, r.matchId, PlanInsertRow(t, tx, pick).tx)
  {
  }

  lemma RiderMoves(t0: Tables, now: int, t: Tables, clock: int, c: Command, r: Command, tx: Tx, pick: int)
    requires IsRideCommand(c) && r.ResolveMatch? && TablesReached(t0, now, t, c, r) && now <= clock
    requires MatchTimes(t0, now) && TxOk(t, tx) && RiderSees(t0, now, t, c, r.matchId, tx)
    requires t.matches == t0.matches ==> t.rides == t0.rides
    ensures Plan(t, clock, tx, pick).Go? ==> RiderSees(t0, now, t, c, r.matchId, Plan(t, clock, tx, pick).tx)
  {
    hide TablesReached, DbOk, Sound, MatchTimes, AdminPc, Aimed, RowWritten, OnTime;
    assert RidePc(t, tx);
    match tx.pc
    case Claimed => RiderReads(t0, now, t, clock, c, r, tx, pick);
    case RideRead(_) => RiderReads(t0, now, t, clock, c, r, tx, pick);
    case Creating(_, _) => RiderReads(t0, now, t, clock, c, r, tx, pick);
    case PhaseRead(_, _, _) => RiderPicks(t0, now, t, c, r, tx);
    case Updating(_, _, _, _, _) => RiderUpdates(t0, now, t, c, r, tx);
    case Inserting(_, _, _) => RiderInserts(t0, now, t, c, r, tx, pick);
    case _ =>
  }

  lemma ResolverScores(t0: Tables, now: int, t: Tables, c: Command, r: Command, tx: Tx)
    requires IsRideCommand(c) && r.ResolveMatch? && TablesReached(t0, now, t, c, r)
    requires ResolverSees(t0, r, tx) && tx.pc.Resolving? && Idle(tx)
    ensures PlanResolveRow(t, tx).Go? ==> ResolverSees(t0, r, PlanResolveRow(t, tx).tx)
  {
  }

  /** The settlement sees every ride that was locked on the match before the two. */
  lemma ResolverSettles(t0: Tables, now: int, t: Tables, c: Command, r: Command, tx: Tx)
    requires IsRideCommand(c) && r.ResolveMatch? && TablesReached(t0, now, t, c, r)
    requires ResolverSees(t0, r, tx) && tx.pc.Scored? && ScoreWritten(t, tx)
    ensures ResolverSees(t0, r, PlanSettle(t, tx).tx)
  {
  }

  lemma ResolverMoves(t0: Tables, now: int, t: Tables, clock: int, c: Command, r: Command, tx: Tx, pick: int)
    requires IsRideCommand(c) && r.ResolveMatch? && TablesReached(t0, now, t, c, r)
    requires TxOk(t, tx) && ResolverSees(t0, r, tx)
    ensures Plan(t, clock, tx, pick).Go? ==> ResolverSees(t0, r, Plan(t, clock, tx, pick).tx)
  {
    hide DbOk, Sound, MayYetResolve, MayLock;
    assert AdminPc(t, tx);
    match tx.pc
    case Resolving(_) => ResolverScores(t0, now, t, c, r, tx);
    case Scored => ResolverSettles(t0, now, t, c, r, tx);
    case _ =>
  }

  // ---------- only if: commits ----------

  /** The written row is a decided ride, or a new one: no ride that was locked is touched. */
  lemma RiderWrote(t: Tables, tx: Tx)
    requires TxOk(t, tx) && IsRideCommand(tx.cmd) && tx.pc.Saved?
    ensures var u, id := Overlay(t, tx.w), tx.pc.id;
      && id in tx.w.rides && tx.cmd.token.key !in t.keys
      && u == t.(rides := t.rides[id := tx.w.rides[id]], keys := u.keys)
      && (forall k | k in t.keys :: k in u.keys)
      && (id in t.rides ==> t.rides[id].state == WonPending)
  {
    assert RidePc(t, tx);
    RiderWroteOne(t, tx);
    RiderOverlay(t, tx);
  }

  lemma RiderWroteOne(t: Tables, tx: Tx)
    requires IsRideCommand(tx.cmd) && tx.pc.Saved? && RideWritten(tx, tx.pc.id, tx.pc.response)
    requires Legal(t, tx.w) && SettledUnderScore(t, tx.w)
    ensures tx.pc.id in tx.w.rides && tx.cmd.token.key !in t.keys
    ensures tx.pc.id in t.rides ==> t.rides[tx.pc.id].state == WonPending
  {
    assert tx.cmd.token.key in tx.w.keys;
  }

  lemma RiderOverlay(t: Tables, tx: Tx)
    requires IsRideCommand(tx.cmd) && tx.pc.Saved? && RideWritten(tx, tx.pc.id, tx.pc.response)
    ensures var u, id := Overlay(t, tx.w), tx.pc.id;
      && u == t.(rides := t.rides[id := tx.w.rides[id]], keys := u.keys)
      && (forall k | k in t.keys :: k in u.keys)
  {
    var u := Overlay(t, tx.w);
    assert u.rides == t.rides[tx.pc.id := tx.w.rides[tx.pc.id]];
    assert u.matches == t.matches && u.rounds == t.rounds && u.seasons == t.seasons;
  }

  lemma RiderLands(t0: Tables, now: int, t: Tables, u: Tables, c: Command, r: Command, id: int, row: Ride)
    requires IsRideCommand(c) && r.ResolveMatch? && TablesReached(t0, now, t, c, r) && c.token.key !in t.keys
    requires u == t.(rides := t.rides[id := row], keys := u.keys) && forall k | k in t.keys :: k in u.keys
    requires RowWritten(t0, now, c, r.matchId, id, row) && c.marshal(id, row).Ok?
    requires id in t.rides ==> t.rides[id].state == WonPending
    ensures TablesReached(t0, now, u, c, r)
  {
    if OnMatch(row, r.matchId) {
      assert MayLock(t0, now, c, r.matchId);
    }
  }

  lemma RiderCommits(t0: Tables, now: int, t: Tables, c: Command, r: Command, tx: Tx)
    requires IsRideCommand(c) && r.ResolveMatch? && TablesReached(t0, now, t, c, r)
    requires TxOk(t, tx) && tx.cmd == c && RiderSees(t0, now, t, c, r.matchId, tx) && tx.pc.Saved?
    ensures TablesReached(t0, now, Overlay(t, tx.w), c, r) && Overlay(t, tx.w).matches == t.matches
  {
    hide TxOk, DbOk, TablesReached;
    RiderWrote(t, tx);
    RiderLands(t0, now, t, Overlay(t, tx.w), c, r, tx.pc.id, tx.w.rides[tx.pc.id]);
  }

  /** The settlement wrote every ride that was locked on the match before the two. */
  lemma SettlementSawAll(t0: Tables, t: Tables, r: Command, tx: Tx)
    requires r.ResolveMatch? && TxOk(t, tx) && tx.cmd == r && ResolverSees(t0, r, tx) && tx.pc.Settling?
        && tx.pc.todo == {}
    ensures ScoreWritten(t, tx) && ScoreHeld(t0, r, tx)
    ensures forall id | id in t0.rides && OnMatch(t0.rides[id], r.matchId) :: id in tx.w.rides
    ensures forall id | id in tx.w.rides :: id in t.rides && NoAccOnForfeit(tx.w.rides[id])
  {
    assert SeenAreHeld(t, tx, tx.pc.seen, tx.pc.todo);
  }

  /** The gate refused no loser: none had a bonus. */
  lemma ScoreWasAllowed(t0: Tables, now: int, t: Tables, c: Command, r: Command, tx: Tx)
    requires IsRideCommand(c) && r.ResolveMatch? && TablesReached(t0, now, t, c, r) && t.matches == t0.matches
    requires tx.cmd == r && ScoreWritten(t, tx) && ScoreHeld(t0, r, tx)
    requires forall id | id in t0.rides && OnMatch(t0.rides[id], r.matchId) ::
      id in tx.w.rides && NoAccOnForfeit(tx.w.rides[id])
    ensures MayYetResolve(t0, r)
  {
    var m := r.matchId;
    forall id | id in t0.rides && OnMatch(t0.rides[id], m)
      ensures SettledState(ScoredAs(t0.matches[m], r), t0.rides[id].teamId) == Lost ==> t0.rides[id].acc == 0.0
    {
      assert tx.w.rides[id] == SettledRow(tx.w.matches[m], t0.rides[id]);
    }
  }

  lemma ResolverLands(t0: Tables, now: int, t: Tables, u: Tables, c: Command, r: Command, written: map<int, Ride>)
    requires IsRideCommand(c) && r.ResolveMatch? && TablesReached(t0, now, t, c, r) && t.matches == t0.matches
    requires MatchResolved(t0, u, r) && u == t.(matches := u.matches, rides := t.rides + written)
    requires forall id | id in t0.rides && OnMatch(t0.rides[id], r.matchId) :: id in written
    requires forall id | id in written :: id in t.rides && written[id].state != Locked
    ensures TablesReached(t0, now, u, c, r)
  {
    hide MayYetResolve, MayLock;
  }

  lemma SettlementOverlay(t0: Tables, t: Tables, r: Command, tx: Tx)
    requires r.ResolveMatch? && tx.cmd == r && ScoreWritten(t, tx) && ScoreHeld(t0, r, tx) && t.matches == t0.matches
    ensures var u := Overlay(t, tx.w);
      u == t.(matches := t0.matches[r.matchId := tx.w.matches[r.matchId]], rides := t.rides + tx.w.rides)
    ensures forall id | id in tx.w.rides :: tx.w.rides[id].state != Locked
  {
    var u := Overlay(t, tx.w);
    assert u.matches == t0.matches[r.matchId := tx.w.matches[r.matchId]];
    assert u.rounds == t.rounds && u.seasons == t.seasons && u.keys == t.keys;
  }

  /** A settlement that commits has found no loser with a bonus, and leaves locked on the
      match only rides that were not there before. */
  lemma ResolverCommits(t0: Tables, now: int, t: Tables, c: Command, r: Command, tx: Tx)
    requires IsRideCommand(c) && r.ResolveMatch? && TablesReached(t0, now, t, c, r)
    requires TxOk(t, tx) && tx.cmd == r && ResolverSees(t0, r, tx) && tx.pc.Settling? && tx.pc.todo == {}
    ensures TablesReached(t0, now, Overlay(t, tx.w), c, r) && Overlay(t, tx.w).matches != t0.matches
  {
    hide TxOk, MayYetResolve, MayLock, Overlay;
    SettlementSawAll(t0, t, r, tx);
    assert t.matches == t0.matches;
    ScoreWasAllowed(t0, now, t, c, r, tx);
    SettlementOverlay(t0, t, r, tx);
    ResolverLands(t0, now, t, Overlay(t, tx.w), c, r, tx.w.rides);
  }

  // ---------- only if: schedules ----------

  lemma RiderKeepsSeeing(t0: Tables, now: int, t: Tables, u: Tables, c: Command, m: int, tx: Tx)
    requires IsRideCommand(c) && RiderSees(t0, now, t, c, m, tx) && u.matches != t0.matches
    ensures RiderSees(t0, now, u, c, m, tx)
  {
  }

  lemma SameMatchesSameTimes(t: Tables, u: Tables, now: int)
    requires MatchTimes(t, now) && u.matches == t.matches
    ensures MatchTimes(u, now)
  {
  }

  lemma RiderAdvances(s0: System, s: System, c: Command, r: Command, pick: int)
    requires IsRideCommand(c) && r.ResolveMatch? && DuelOk(s0, s, c, r) && MatchTimes(s0.db, s0.clock) && RIDER in s.txs
    ensures DuelOk(s0, AdvanceTx(s, RIDER, pick), c, r)
  {
    hide Plan, DbOk, Sound, PcOk, TablesReached;
    var tx := s.txs[RIDER];
    NextIsOk(s, Advance(RIDER, pick));
    if tx.pc.Done? {
      Histories.NothingAfterDone(s.db, s.clock, tx, pick);
    }
    match Plan(s.db, s.clock, tx, pick)
    case Stuck =>
    case Go(_, _) =>
      if !tx.pc.Done? {
        RiderMoves(s0.db, s0.clock, s.db, s.clock, c, r, tx, pick);
      }
    case Commit(answer) =>
      RideCommitsItsAnswer(s.db, s.clock, tx, pick);
      RiderCommits(s0.db, s0.clock, s.db, c, r, tx);
      SameMatchesSameTimes(s.db, Overlay(s.db, tx.w), s.clock);
  }

  lemma ResolverCommitPoint(t: Tables, clock: int, tx: Tx, pick: int)
    requires tx.cmd.ResolveMatch? && TxOk(t, tx) && Plan(t, clock, tx, pick).Commit?
    ensures tx.pc.Settling? && tx.pc.todo == {}
  {
  }

  /** The end a resolution records is its own clock. */
  lemma ScoreIsTimely(t0: Tables, t: Tables, now: int, r: Command, tx: Tx)
    requires r.ResolveMatch? && tx.cmd == r && ScoreWritten(t, tx) && ScoreHeld(t0, r, tx) && tx.now <= now
    requires MatchTimes(t, now) && WritesOk(t, tx.w)
    ensures MatchTimes(Overlay(t, tx.w), now)
  {
  }

  lemma ResolverHolds(t: Tables, r: Command, tx: Tx)
    requires r.ResolveMatch? && tx.cmd == r && TxOk(t, tx) && tx.pc.Settling?
    ensures ScoreWritten(t, tx) && WritesOk(t, tx.w)
  {
  }

  lemma ResolverEnds(s0: System, s: System, c: Command, r: Command, pick: int)
    requires IsRideCommand(c) && r.ResolveMatch? && DuelOk(s0, s, c, r) && RESOLVER in s.txs
    requires Plan(s.db, s.clock, s.txs[RESOLVER], pick).Commit? && SystemOk(AdvanceTx(s, RESOLVER, pick))
    ensures DuelOk(s0, AdvanceTx(s, RESOLVER, pick), c, r)
  {
    hide Plan, TxOk, DbOk, TablesReached, ScoreHeld, Aimed, RowWritten, OnTime;
    var tx := s.txs[RESOLVER];
    ResolverCommitPoint(s.db, s.clock, tx, pick);
    ResolverHolds(s.db, r, tx);
    ScoreIsTimely(s0.db, s.db, s.clock, r, tx);
    ResolverCommits(s0.db, s0.clock, s.db, c, r, tx);
    if RIDER in s.txs {
      RiderKeepsSeeing(s0.db, s0.clock, s.db, Overlay(s.db, tx.w), c, r.matchId, s.txs[RIDER]);
    }
  }

  lemma ResolverKeepsTime(t: Tables, clock: int, tx: Tx, pick: int)
    requires tx.cmd.ResolveMatch? && TxOk(t, tx) && tx.now <= clock
    ensures Plan(t, clock, tx, pick).Go? ==> Plan(t, clock, tx, pick).tx.now <= clock
  {
  }

  lemma ResolverAdvances(s0: System, s: System, c: Command, r: Command, pick: int)
    requires IsRideCommand(c) && r.ResolveMatch? && DuelOk(s0, s, c, r) && RESOLVER in s.txs
    ensures DuelOk(s0, AdvanceTx(s, RESOLVER, pick), c, r)
  {
    hide Plan, DbOk, Sound, PcOk, TablesReached, Aimed, RowWritten, OnTime, ScoreHeld, Covered;
    var tx := s.txs[RESOLVER];
    NextIsOk(s, Advance(RESOLVER, pick));
    match Plan(s.db, s.clock, tx, pick)
    case Stuck =>
    case Go(_, _) =>
      ResolverMoves(s0.db, s0.clock, s.db, s.clock, c, r, tx, pick);
      ResolverKeepsTime(s.db, s.clock, tx, pick);
    case Commit(answer) => ResolverEnds(s0, s, c, r, pick);
  }

  lemma NextIsDuelOk(s0: System, s: System, event: Event, c: Command, r: Command)
    requires IsRideCommand(c) && r.ResolveMatch? && DuelOk(s0, s, c, r) && MatchTimes(s0.db, s0.clock)
    requires DuelEvent(event, c, r)
    ensures DuelOk(s0, Next(s, event), c, r)
  {
    hide Plan, AdvanceTx, DbOk, TxOk, TablesReached;
    NextIsOk(s, event);
    match event
    case Tick(_) =>
    case Begin(_, _) =>
    case Cancel(_) =>
    case Advance(tid, pick) =>
      if tid in s.txs {
        if tid == RIDER {
          RiderAdvances(s0, s, c, r, pick);
        } else {
          ResolverAdvances(s0, s, c, r, pick);
        }
      }
  }

  lemma {:induction false} DuelIsOk(s: System, events: seq<Event>, c: Command, r: Command)
    requires IsRideCommand(c) && r.ResolveMatch? && Initial(s) && Steady(s.db, s.clock) && Duel(events, c, r)
    ensures DuelOk(s, Play(s, events), c, r)
    decreases |events|
  {
    Layers.SteadyIsOk(s.db, s.clock);
    ScheduleIsOk(s, events);
    if events != [] {
      var last := |events| - 1;
      DuelIsOk(s, events[..last], c, r);
      NextIsDuelOk(s, Play(s, events[..last]), events[last], c, r);
    }
  }

  /** No schedule of the two strands a ride unless the condition held before them. */
  lemma StrandingNeeds(s: System, events: seq<Event>, c: Command, r: Command)
    requires IsRideCommand(c) && r.ResolveMatch? && Initial(s) && Steady(s.db, s.clock) && Duel(events, c, r)
    requires Stranded(Play(s, events).db)
    ensures MayStrand(s.db, s.clock, c, r)
  {
    DuelIsOk(s, events, c, r);
    ReachedStranded(s.db, s.clock, Play(s, events).db, c, r);
  }

  lemma ReachedStranded(t0: Tables, now: int, t: Tables, c: Command, r: Command)
    requires IsRideCommand(c) && r.ResolveMatch? && TablesReached(t0, now, t, c, r) && Stranded(t)
    ensures MayStrand(t0, now, c, r)
  {
    var id :| id in t.rides && Strands(t, id);
    assert t.rides[id].matchId == r.matchId;
  }

  /** A creation locks its ride no sooner than the clock has passed the start, which was
      more than an hour ahead when it read its phase. */
  lemma CreationTakesTime(s: System, events: seq<Event>, c: Command, r: Command)
    requires c.CreateRide? && r.ResolveMatch? && Initial(s) && Steady(s.db, s.clock) && Duel(events, c, r)
    requires Stranded(Play(s, events).db)
    ensures MayStrand(s.db, s.clock, c, r) && s.db.matches[r.matchId].startsAt < Play(s, events).clock
    ensures s.clock + ACTION_PHASE_LEAD < Play(s, events).clock
  {
    DuelIsOk(s, events, c, r);
    var v := Play(s, events);
    ReachedStranded(s.db, s.clock, v.db, c, r);
    StrandedIsResolved(s.db, s.clock, v.db, c, r);
    assert MatchRowOk(v.db.matches[r.matchId]);
  }

  lemma StrandedIsResolved(t0: Tables, now: int, t: Tables, c: Command, r: Command)
    requires IsRideCommand(c) && r.ResolveMatch? && TablesReached(t0, now, t, c, r) && Stranded(t)
    ensures MatchResolved(t0, t, r)
  {
  }
}
