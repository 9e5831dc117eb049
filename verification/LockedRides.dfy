/** A ride is locked exactly while its match has not ended, in every interleaving in
    which no resolution leaves a ride behind: one its settlement did not see, or one a
    command in flight is about to lock. */
module LockedRides {
  import opened Model
  import opened Phases
  import opened Gates
  import opened Rides
  import opened Statements
  import opened Commands
  import opened Reachable
  import opened Interleaving
  import opened Safety
  import opened Stability
  import opened Steps
  import opened RoundOrder
  import Layers

  // ---------- commands about to lock a ride ----------

  /** The guarded update would write the ride now, and its answer can be stored. */
  predicate WouldUpdate(t: Tables, tx: Tx, next: Ride, destination: int, snapshot: Tables)
    requires tx.cmd.DecideRide?
  {
    var id := tx.cmd.rideId;
    && id in t.rides && UpdateGuard(snapshot, t.rides[id], next.version, destination)
    && UpdateRowError(Overlay(t, tx.w), t.rides[id], UpdatedRow(t.rides[id], next)).None?
    && tx.cmd.marshal(id, UpdatedRow(t.rides[id], next)).Ok?
  }

  /** The insert would write the ride under some identity, and its answer can be stored. */
  ghost predicate WouldInsert(t: Tables, cmd: Command, ride: Ride, roundId: int)
    requires IsRideCommand(cmd)
  {
    && roundId in t.rounds && t.rounds[roundId].status == RoundOpen && InsertRowError(t, ride).None?
    && exists id :: id !in t.rides && cmd.marshal(id, ride.(version := 1)).Ok?
  }

  /** Nothing but another transaction can keep the command from committing a ride locked
      on the match: what it still asks of the tables does not include the match's end. */
  ghost predicate Bound(t: Tables, tx: Tx, m: int) {
    && IsRideCommand(tx.cmd)
    && match tx.pc
       case Decided(_, next, destination, _) =>       // 0 is the guard's word for no destination
         tx.cmd.DecideRide? && tx.cmd.decision.Continue? && destination == 0 == m && WouldUpdate(t, tx, next, 0, t)
       case Updating(_, next, destination, _, snapshot) =>
         tx.cmd.DecideRide? && tx.cmd.decision.Continue? && destination == m
             && WouldUpdate(t, tx, next, destination, snapshot)
       case Creating(ride, _) =>
         ride.matchId == m && RoundOpenFor(t, m) && WouldInsert(t, tx.cmd, ride, t.matches[m].roundId)
       case Inserting(ride, _, roundId) => ride.matchId == m && WouldInsert(t, tx.cmd, ride, roundId)
       case Written(id, _) => id in tx.w.rides && OnMatch(tx.w.rides[id], m) && tx.cmd.marshal(id, tx.w.rides[id]).Ok?
       case Saved(id, _, _) => id in tx.w.rides && OnMatch(tx.w.rides[id], m)
       case _ => false
  }

  predicate Unseen(t: Tables, tx: Tx, id: int)
    requires tx.cmd.ResolveMatch?
  {
    id in t.rides && OnMatch(t.rides[id], tx.cmd.matchId) && id !in tx.w.rides
  }

  /** The step commits a resolution, and a ride waits on the match that the settlement did
      not see, or a command in flight is bound to lock one on it. */
  ghost predicate LeavesBehind(s: System, event: Event) {
    && IsCommit(s, event) && s.txs[event.tid].cmd.ResolveMatch?
    && (|| (exists id :: Unseen(s.db, s.txs[event.tid], id))
        || (exists a :: a in s.txs && Bound(s.db, s.txs[a], s.txs[event.tid].cmd.matchId)))
  }

  ghost function LeavesNone(): Rule {
    (s: System, event: Event) => !LeavesBehind(s, event)
  }

  // ---------- what every step keeps ----------

  /** A ride row is locked exactly while its match has not ended, whoever writes it. */
  predicate RowLive(t: Tables, row: Ride) {
    RideRowOk(row) && (row.state == Locked <==> !Ended(t, row.matchId))
  }

  predicate RowsLive(t: Tables, now: int) {
    MatchTimes(t, now) && forall id | id in t.rides :: RowLive(t, t.rides[id])
  }

  /** A ride row written and not committed: if it is not locked its match has ended, or
      the same transaction ends it. */
  predicate WrittenLive(t: Tables, w: Writes, row: Ride) {
    RideRowOk(row) && (row.state != Locked ==> Ended(t, row.matchId) || Ended(Overlay(t, w), row.matchId))
  }

  /** What it wrote is in order, no end it wrote is ahead of the clock, and only a
      resolution wrote one. */
  ghost predicate WritesLive(t: Tables, now: int, tx: Tx) {
    && tx.now <= now
    && (forall id | id in tx.w.rides :: WrittenLive(t, tx.w, tx.w.rides[id]))
    && (forall id | id in tx.w.rides :: tx.w.rides[id].state == Locked ==> IsRideCommand(tx.cmd))
    && (forall m | m in tx.w.matches :: m in t.matches && MatchRowOk(tx.w.matches[m])
         && (if tx.cmd.ResolveMatch? then m == tx.cmd.matchId && tx.w.matches[m].endedAt == Some(tx.now)
             else tx.w.matches[m].endedAt == t.matches[m].endedAt))
  }

  ghost predicate BoundLive(t: Tables, tx: Tx) {
    forall m :: Bound(t, tx, m) ==> !Ended(t, m)
  }

  ghost predicate TxLive(t: Tables, now: int, tx: Tx) {
    WritesLive(t, now, tx) && BoundLive(t, tx) && WasOpen(t, tx)
  }

  /** The round a command looked at was open when it looked. */
  predicate WasOpen(t: Tables, tx: Tx) {
    match tx.pc
    case PhaseRead(ride, _, _) => NotCreated(t, ride.matchId)
    case Decided(ride, _, _, _) => NotCreated(t, ride.matchId)
    case Creating(ride, _) => NotCreated(t, ride.matchId)
    case Inserting(_, _, roundId) => roundId in t.rounds && t.rounds[roundId].status != RoundCreated
    case _ => true
  }

  predicate NotCreated(t: Tables, m: int) {
    RoundKnown(t, m) && RoundStatusOf(t, m) != RoundCreated
  }

  ghost predicate SystemLive(s: System) {
    RowsLive(s.db, s.clock) && forall a | a in s.txs :: TxLive(s.db, s.clock, s.txs[a])
  }

  // ---------- a transaction's own step ----------

  ghost predicate LiveMove(t: Tables, now: int, move: Move) {
    move.Go? ==> TxLive(t, now, move.tx)
  }

  lemma StillLive(t: Tables, now: int, tx: Tx, next: Tx)
    requires WritesLive(t, now, tx) && BoundLive(t, next) && WasOpen(t, next)
    requires next.cmd == tx.cmd && next.now == tx.now
    requires next.w.rides == tx.w.rides && next.w.matches == tx.w.matches
    ensures TxLive(t, now, next)
  {
    assert forall m :: Ended(Overlay(t, next.w), m) <==> Ended(Overlay(t, tx.w), m);
  }

  lemma RefusedIsLive(t: Tables, now: int, tx: Tx, e: Error)
    requires tx.now <= now
    ensures TxLive(t, now, Refuse(tx, e))
  {
  }

  lemma FirstReadIsLive(t: Tables, now: int, tx: Tx)
    requires RowsLive(t, now) && TxLive(t, now, tx) && IsRideCommand(tx.cmd) && tx.pc.Claimed?
    ensures LiveMove(t, now, PlanClaimed(t, now, tx))
  {
    hide WritesLive;
    var move := PlanClaimed(t, now, tx);
    if move.Go? {
      if move.tx.pc.Done? {
        WritesAreTimely(t, now, tx);
        RefusedIsLive(t, now, tx, move.tx.pc.answer.error);
      } else {
        if tx.cmd.CreateRide? && t.matches[tx.cmd.ride.matchId].endedAt.Some? {
          EndedMatchIsPastAction(now, t.matches[tx.cmd.ride.matchId]);
        }
        StillLive(t, now, tx, move.tx);
      }
    }
  }

  lemma WritesAreTimely(t: Tables, now: int, tx: Tx)
    requires WritesLive(t, now, tx)
    ensures tx.now <= now
  {
  }

  lemma PhaseIsLive(t: Tables, now: int, tx: Tx)
    requires TxLive(t, now, tx) && IsRideCommand(tx.cmd) && tx.pc.RideRead?
    ensures LiveMove(t, now, PlanPhase(t, now, tx))
  {
    hide WritesLive;
    WritesAreTimely(t, now, tx);
    var move := PlanPhase(t, now, tx);
    if move.tx.pc.Done? {
      RefusedIsLive(t, now, tx, move.tx.pc.answer.error);
    } else {
      StillLive(t, now, tx, move.tx);
    }
  }

  /** The pick has not ended. */
  lemma DecideIsLive(t: Tables, now: int, tx: Tx)
    requires TxLive(t, now, tx) && tx.cmd.DecideRide? && tx.pc.PhaseRead?
    ensures LiveMove(t, now, PlanDecide(t, tx))
  {
    hide WritesLive;
    WritesAreTimely(t, now, tx);
    var move := PlanDecide(t, tx);
    if move.tx.pc.Done? {
      RefusedIsLive(t, now, tx, move.tx.pc.answer.error);
    } else {
      if tx.cmd.decision.Continue? {
        NextQualifies(t, tx.pc.ride.teamId);
      }
      StillLive(t, now, tx, move.tx);
    }
  }

  /** The statement's guard looks at the destination's end, unless it is 0. */
  lemma UpdateIsLive(t: Tables, now: int, tx: Tx)
    requires TxLive(t, now, tx) && tx.cmd.DecideRide? && tx.pc.Decided? && ClaimOnly(tx)
    requires DecisionMade(t, tx, tx.pc.ride, tx.pc.next, tx.pc.destination)
    ensures LiveMove(t, now, PlanUpdate(t, tx))
  {
    hide WritesLive;
    WritesAreTimely(t, now, tx);
    var move := PlanUpdate(t, tx);
    if move.tx.pc.Done? {
      RefusedIsLive(t, now, tx, move.tx.pc.answer.error);
    } else {
      forall m | Bound(t, move.tx, m) ensures !Ended(t, m) {
        if m == 0 {
          assert Bound(t, tx, 0);
        }
      }
      StillLive(t, now, tx, move.tx);
    }
  }

  lemma UpdateRowIsLive(t: Tables, now: int, tx: Tx)
    requires RowsLive(t, now) && TxLive(t, now, tx) && tx.cmd.DecideRide? && tx.pc.Updating? && ClaimOnly(tx)
    requires DecisionMade(t, tx, tx.pc.ride, tx.pc.next, tx.pc.destination)
    ensures LiveMove(t, now, PlanUpdateRow(t, tx))
  {
    var move := PlanUpdateRow(t, tx);
    if !move.tx.pc.Done? {
      var id := tx.cmd.rideId;
      var row := UpdatedRow(t.rides[id], tx.pc.next);
      assert move.tx.w.rides == map[id := row];
      forall m | Bound(t, move.tx, m) ensures !Ended(t, m) {
        assert Bound(t, tx, m);
      }
    }
  }

  lemma InsertIsLive(t: Tables, now: int, tx: Tx)
    requires TxLive(t, now, tx) && tx.cmd.CreateRide? && tx.pc.Creating?
    ensures LiveMove(t, now, PlanInsert(t, tx))
  {
    hide WritesLive;
    WritesAreTimely(t, now, tx);
    var move := PlanInsert(t, tx);
    if move.tx.pc.Done? {
      RefusedIsLive(t, now, tx, move.tx.pc.answer.error);
    } else {
      forall m | Bound(t, move.tx, m) ensures !Ended(t, m) {
        assert Bound(t, tx, m);
      }
      StillLive(t, now, tx, move.tx);
    }
  }

  lemma InsertRowIsLive(t: Tables, now: int, tx: Tx, pick: int)
    requires TxLive(t, now, tx) && tx.cmd.CreateRide? && tx.pc.Inserting? && ClaimOnly(tx)
    requires CreateOf(tx.cmd.ride, ActionPhase) == Ok(tx.pc.ride)
    ensures LiveMove(t, now, PlanInsertRow(t, tx, pick))
  {
    var move := PlanInsertRow(t, tx, pick);
    if move.Go? && !move.tx.pc.Done? {
      assert move.tx.w.rides == map[pick := tx.pc.ride.(version := 1)];
      forall m | Bound(t, move.tx, m) ensures !Ended(t, m) {
        assert Bound(t, tx, m);
      }
    }
  }

  lemma SaveIsLive(t: Tables, now: int, tx: Tx)
    requires TxLive(t, now, tx) && IsRideCommand(tx.cmd) && tx.pc.Written?
    ensures LiveMove(t, now, PlanSave(tx))
  {
    var move := PlanSave(tx);
    if !move.tx.pc.Done? {
      forall m | Bound(t, move.tx, m) ensures !Ended(t, m) {
        assert Bound(t, tx, m);
      }
      StillLive(t, now, tx, move.tx);
    }
  }

  lemma RideMoveIsLive(t: Tables, now: int, tx: Tx, pick: int)
    requires RowsLive(t, now) && TxOk(t, tx) && TxLive(t, now, tx) && IsRideCommand(tx.cmd) && !tx.pc.Start?
    ensures LiveMove(t, now, PlanRide(t, now, tx, pick))
  {
    hide RowsLive, TxLive, Sound, DecisionMade, RideWritten;
    assert RidePc(t, tx);
    match tx.pc
    case ClaimLost => ReplayIsLive(t, now, tx);
    case Claimed => FirstReadIsLive(t, now, tx);
    case RideRead(_) => PhaseIsLive(t, now, tx);
    case PhaseRead(_, _, _) => DecideIsLive(t, now, tx);
    case Decided(_, _, _, _) => UpdateIsLive(t, now, tx);
    case Updating(_, _, _, _, _) => UpdateRowIsLive(t, now, tx);
    case Creating(_, _) => InsertIsLive(t, now, tx);
    case Inserting(_, _, _) => InsertRowIsLive(t, now, tx, pick);
    case Written(_, _) => SaveIsLive(t, now, tx);
    case _ =>
  }

  lemma ReplayIsLive(t: Tables, now: int, tx: Tx)
    requires TxLive(t, now, tx) && IsRideCommand(tx.cmd)
    ensures LiveMove(t, now, PlanReplay(t, tx))
  {
  }

  lemma ResolveRowIsLive(t: Tables, now: int, tx: Tx)
    requires TxLive(t, now, tx) && tx.cmd.ResolveMatch? && tx.pc.Resolving? && Idle(tx)
    ensures LiveMove(t, now, PlanResolveRow(t, tx))
  {
  }

  lemma SettleRowIsLive(t: Tables, now: int, tx: Tx, pick: int)
    requires RowsLive(t, now) && TxLive(t, now, tx) && tx.cmd.ResolveMatch? && tx.pc.Settling? && ScoreWritten(t, tx)
    ensures LiveMove(t, now, PlanSettleRow(t, tx, pick))
  {
    var move := PlanSettleRow(t, tx, pick);
    if move.Go? && !move.tx.pc.Done? {
      assert forall m :: Ended(Overlay(t, move.tx.w), m) <==> Ended(Overlay(t, tx.w), m);
      assert Ended(Overlay(t, tx.w), tx.cmd.matchId);
    }
  }

  /** The forced exits of a closing round leave rides whose match has ended. */
  lemma AutoRowIsLive(t: Tables, now: int, tx: Tx, pick: int)
    requires RowsLive(t, now) && TxLive(t, now, tx) && tx.cmd.PatchRound? && tx.pc.AutoResolving?
    ensures LiveMove(t, now, PlanAutoRow(t, tx, pick))
  {
    hide RideUpdateAllowed, MatchTimes, WritesLive, AutoRow;
    var move := PlanAutoRow(t, tx, pick);
    WritesAreTimely(t, now, tx);
    if move.Go? {
      if move.tx.pc.Done? {
        RefusedIsLive(t, now, tx, move.tx.pc.answer.error);
      } else if move.tx.w.rides == tx.w.rides {
        StillLive(t, now, tx, move.tx);
      } else {
        ForcedExitIsLive(t, now, tx, move.tx, pick, tx.pc.edited.number);
      }
    }
  }

  lemma ForcedExitIsLive(t: Tables, now: int, tx: Tx, next: Tx, id: int, number: int)
    requires RowsLive(t, now) && WritesLive(t, now, tx) && tx.cmd.PatchRound? && next.pc.AutoResolving?
    requires id in t.rides && t.rides[id].state == WonPending
    requires next.cmd == tx.cmd && next.now == tx.now && next.w.matches == tx.w.matches
    requires next.w.rides == tx.w.rides[id := AutoRow(number, t.rides[id])]
    ensures TxLive(t, now, next)
  {
    hide MatchTimes, MatchRowOk;
    assert forall m :: Ended(Overlay(t, next.w), m) <==> Ended(Overlay(t, tx.w), m);
  }

  /** A match edit that passed its validator records no end. */
  lemma EditRowIsLive(t: Tables, now: int, tx: Tx)
    requires RowsLive(t, now) && TxLive(t, now, tx) && tx.cmd.PatchMatch? && tx.pc.MatchBegun?
    requires Idle(tx) && MatchPrepared(t, tx, tx.pc.m, tx.pc.editedMatch)
    ensures LiveMove(t, now, PlanMatchRow(t, tx))
  {
  }

  /** All other admin steps write rounds and seasons at most. */
  ghost predicate WritesNoRide(now: int, tx: Tx, next: Tx) {
    && next.cmd == tx.cmd && (next.now == tx.now || next.now == now)
    && (next.w == NOTHING || (next.w.rides == tx.w.rides && next.w.matches == tx.w.matches))
    && !IsRideCommand(tx.cmd)
    && (next.now == tx.now || next.w == NOTHING || !tx.cmd.ResolveMatch?)
    && !next.pc.PhaseRead? && !next.pc.Decided? && !next.pc.Creating? && !next.pc.Inserting?
  }

  lemma OtherAdminMovesWriteNoRide(t: Tables, now: int, tx: Tx, pick: int)
    requires !IsRideCommand(tx.cmd) && PlanAdmin(t, now, tx, pick).Go?
    requires !tx.pc.AutoResolving? && !tx.pc.MatchBegun? && !tx.pc.Resolving? && !tx.pc.Settling?
    requires HasRead(tx) ==> !tx.cmd.ResolveMatch?
    ensures WritesNoRide(now, tx, PlanAdmin(t, now, tx, pick).tx)
  {
    hide PlanAutoRow, PlanMatchRow, PlanResolveRow, PlanSettleRow;
    match tx.pc
    case RoundBegun(_, _) => DispatchWritesNoRide(t, now, tx);
    case RoundReady(_, _) => RoundRowWritesNoRide(t, now, tx);
    case RoundGated(_, _) => RoundIndexWritesNoRide(t, now, tx);
    case _ =>
  }

  lemma DispatchWritesNoRide(t: Tables, now: int, tx: Tx)
    requires tx.pc.RoundBegun? && tx.cmd.PatchRound? && PlanDispatch(t, tx).Go?
    ensures WritesNoRide(now, tx, PlanDispatch(t, tx).tx)
  {
  }

  lemma RoundRowWritesNoRide(t: Tables, now: int, tx: Tx)
    requires tx.pc.RoundReady? && tx.cmd.PatchRound? && PlanRoundRow(t, tx).Go?
    ensures WritesNoRide(now, tx, PlanRoundRow(t, tx).tx)
  {
  }

  lemma RoundIndexWritesNoRide(t: Tables, now: int, tx: Tx)
    requires tx.pc.RoundGated? && tx.cmd.PatchRound? && PlanRoundIndex(t, tx).Go?
    ensures WritesNoRide(now, tx, PlanRoundIndex(t, tx).tx)
  {
  }

  lemma WritingNoRideIsLive(t: Tables, now: int, tx: Tx, next: Tx)
    requires TxLive(t, now, tx) && WritesNoRide(now, tx, next)
    ensures TxLive(t, now, next)
  {
    assert forall m :: Ended(Overlay(t, next.w), m) <==> Ended(t.(matches := t.matches + next.w.matches), m);
  }

  lemma AdminMoveIsLive(t: Tables, now: int, tx: Tx, pick: int)
    requires RowsLive(t, now) && TxOk(t, tx) && TxLive(t, now, tx) && !IsRideCommand(tx.cmd) && !tx.pc.Start?
    ensures LiveMove(t, now, PlanAdmin(t, now, tx, pick))
  {
    hide RowsLive, TxLive, Sound, WritesNoRide;
    assert AdminPc(t, tx);
    if tx.pc.AutoResolving? {
      AutoRowIsLive(t, now, tx, pick);
    } else if tx.pc.MatchBegun? {
      EditRowIsLive(t, now, tx);
    } else if tx.pc.Resolving? {
      ResolveRowIsLive(t, now, tx);
    } else if tx.pc.Settling? {
      SettleRowIsLive(t, now, tx, pick);
    } else if PlanAdmin(t, now, tx, pick).Go? {
      OtherAdminMovesWriteNoRide(t, now, tx, pick);
      WritingNoRideIsLive(t, now, tx, PlanAdmin(t, now, tx, pick).tx);
    }
  }

  lemma StartIsLive(t: Tables, now: int, tx: Tx)
    requires TxLive(t, now, tx) && tx.pc.Start? && Idle(tx)
    ensures LiveMove(t, now, PlanStart(t, tx))
  {
    hide WritesLive;
    var move := PlanStart(t, tx);
    WritesAreTimely(t, now, tx);
    if move.Go? {
      if move.tx.pc.Done? {
        RefusedIsLive(t, now, tx, move.tx.pc.answer.error);
      } else {
        StillLive(t, now, tx, move.tx);
      }
    }
  }

  lemma MoveIsLive(t: Tables, now: int, tx: Tx, pick: int)
    requires RowsLive(t, now) && TxOk(t, tx) && TxLive(t, now, tx)
    ensures LiveMove(t, now, Plan(t, now, tx, pick))
  {
    hide RowsLive, TxLive, Sound;
    if tx.pc.Start? {
      StartIsLive(t, now, tx);
    } else if IsRideCommand(tx.cmd) {
      RideMoveIsLive(t, now, tx, pick);
    } else {
      AdminMoveIsLive(t, now, tx, pick);
    }
  }

  // ---------- a commit ----------

  /** A command that is bound after a commit was bound before: what it asks of the tables
      does not become true again. */
  lemma BoundShrinks(t: Tables, w: Writes, u: Tx, m: int)
    requires DbOk(t) && WritesOk(t, w) && TxOk(t, u) && WasOpen(t, u) && Bound(Overlay(t, w), u, m)
    ensures Bound(t, u, m)
  {
    hide DbOk, RideUpdateAllowed, InsertRowError, SettledUnderScore, FlipCovered, Sound;
    assert RidePc(t, u);
    match u.pc
    case Decided(ride, next, _, _) => DecisionShrinks(t, w, u, ride, next, 0);
    case Updating(ride, next, destination, _, snapshot) => UpdateShrinks(t, w, u, next, destination, snapshot);
    case Creating(ride, _) => CreatingShrinks(t, w, u, ride, m);
    case Inserting(ride, _, roundId) => InsertShrinks(t, w, u, ride, roundId);
    case _ =>
  }

  lemma CreatingShrinks(t: Tables, w: Writes, u: Tx, ride: Ride, m: int)
    requires Legal(t, w) && IsRideCommand(u.cmd) && NotCreated(t, m) && RoundOpenFor(Overlay(t, w), m)
    requires WouldInsert(Overlay(t, w), u.cmd, ride, Overlay(t, w).matches[m].roundId)
    ensures RoundOpenFor(t, m) && WouldInsert(t, u.cmd, ride, t.matches[m].roundId)
  {
    MatchRoundIsFixed(t, w, m);
    InsertShrinks(t, w, u, ride, t.matches[m].roundId);
  }

  lemma UpdateShrinks(t: Tables, w: Writes, u: Tx, next: Ride, destination: int, snapshot: Tables)
    requires Legal(t, w) && u.cmd.DecideRide? && WouldUpdate(Overlay(t, w), u, next, destination, snapshot)
    requires u.cmd.rideId in t.rides && next.version <= t.rides[u.cmd.rideId].version
    ensures WouldUpdate(t, u, next, destination, snapshot)
    ensures Overlay(t, w).rides[u.cmd.rideId] == t.rides[u.cmd.rideId]
  {
  }

  lemma DecisionShrinks(t: Tables, w: Writes, u: Tx, ride: Ride, next: Ride, destination: int)
    requires Legal(t, w) && u.cmd.DecideRide? && WouldUpdate(Overlay(t, w), u, next, 0, Overlay(t, w))
    requires u.cmd.rideId in t.rides && next.version <= t.rides[u.cmd.rideId].version
    requires next.version == t.rides[u.cmd.rideId].version ==> t.rides[u.cmd.rideId] == ride
    requires NotCreated(t, ride.matchId)
    ensures WouldUpdate(t, u, next, 0, t)
  {
    UpdateShrinks(t, w, u, next, 0, Overlay(t, w));
  }

  lemma InsertShrinks(t: Tables, w: Writes, u: Tx, ride: Ride, roundId: int)
    requires Legal(t, w) && IsRideCommand(u.cmd) && WouldInsert(Overlay(t, w), u.cmd, ride, roundId)
    requires roundId in t.rounds && t.rounds[roundId].status != RoundCreated
    ensures WouldInsert(t, u.cmd, ride, roundId)
  {
    var id :| id !in Overlay(t, w).rides && u.cmd.marshal(id, ride.(version := 1)).Ok?;
    assert id !in t.rides;
  }

  /** The matches a commit ends: the one it resolves. */
  lemma CommitEnds(t: Tables, now: int, tx: Tx)
    requires WritesLive(t, now, tx)
    ensures forall m | Ended(Overlay(t, tx.w), m) :: Ended(t, m) || (tx.cmd.ResolveMatch? && m == tx.cmd.matchId)
    ensures forall m | Ended(t, m) :: Ended(Overlay(t, tx.w), m)
  {
  }

  lemma LiveIsStable(t: Tables, now: int, tx: Tx, u: Tx)
    requires DbOk(t) && TxOk(t, tx) && TxOk(t, u) && Compatible(tx.locks, u.locks)
    requires TxLive(t, now, tx) && TxLive(t, now, u)
    requires tx.cmd.ResolveMatch? ==> !Bound(t, u, tx.cmd.matchId)
    ensures TxLive(Overlay(t, tx.w), now, u)
  {
    hide TxOk, DbOk, WritesOk, Bound, Overlay;
    CommitEnds(t, now, tx);
    LocksApart(t, tx, u);
    forall m | Bound(Overlay(t, tx.w), u, m) ensures !Ended(Overlay(t, tx.w), m) {
      BoundShrinks(t, tx.w, u, m);
    }
    WritesStayLive(t, now, tx.w, u);
    OpenedStays(t, tx.w, u);
  }

  lemma LocksApart(t: Tables, tx: Tx, u: Tx)
    requires TxOk(t, tx) && TxOk(t, u) && Compatible(tx.locks, u.locks)
    ensures Apart(tx.w, u.w) && WritesOk(t, tx.w) && Legal(t, tx.w)
  {
    LocksKeepApart(tx, u);
  }

  lemma WritesStayLive(t: Tables, now: int, w: Writes, u: Tx)
    requires WritesLive(t, now, u) && Apart(w, u.w)
    requires forall m | Ended(t, m) :: Ended(Overlay(t, w), m)
    ensures WritesLive(Overlay(t, w), now, u)
  {
    var t' := Overlay(t, w);
    forall m | Ended(Overlay(t, u.w), m) ensures Ended(Overlay(t', u.w), m) {
      if m !in u.w.matches {
        assert Ended(t, m);
      }
    }
  }

  lemma OpenedStays(t: Tables, w: Writes, u: Tx)
    requires Legal(t, w) && WasOpen(t, u)
    ensures WasOpen(Overlay(t, w), u)
  {
  }

  /** A committed row that is locked was bound to its match, which has not ended. */
  lemma RideCommitIsLive(t: Tables, now: int, tx: Tx)
    requires IsRideCommand(tx.cmd) && tx.pc.Saved? && TxOk(t, tx) && TxLive(t, now, tx)
    ensures forall id | id in tx.w.rides :: RowLive(Overlay(t, tx.w), tx.w.rides[id])
    ensures forall m :: Ended(Overlay(t, tx.w), m) <==> Ended(t, m)
  {
    assert RideWritten(tx, tx.pc.id, tx.pc.response);
    assert Overlay(t, tx.w).matches == t.matches;
    var row := tx.w.rides[tx.pc.id];
    if row.state == Locked {
      assert Bound(t, tx, row.matchId);
    }
  }

  lemma AdminCommitIsLive(t: Tables, now: int, tx: Tx)
    requires !IsRideCommand(tx.cmd) && WritesLive(t, now, tx)
    ensures forall id | id in tx.w.rides :: RowLive(Overlay(t, tx.w), tx.w.rides[id])
  {
    CommitEnds(t, now, tx);
  }

  lemma CommitIsLive(t: Tables, now: int, tx: Tx)
    requires RowsLive(t, now) && TxOk(t, tx) && TxLive(t, now, tx) && (IsRideCommand(tx.cmd) ==> tx.pc.Saved?)
    requires tx.cmd.ResolveMatch? ==> forall id :: !Unseen(t, tx, id)
    ensures RowsLive(Overlay(t, tx.w), now)
  {
    hide TxOk, RowLive, Bound;
    if IsRideCommand(tx.cmd) {
      RideCommitIsLive(t, now, tx);
    } else {
      AdminCommitIsLive(t, now, tx);
    }
    CommitEnds(t, now, tx);
    CommitTimes(t, now, tx);
    var u := Overlay(t, tx.w);
    forall id | id in u.rides ensures RowLive(u, u.rides[id]) {
      if id !in tx.w.rides {
        assert tx.cmd.ResolveMatch? ==> !Unseen(t, tx, id);
        OtherRowsStayLive(t, now, tx, id);
      }
    }
  }

  lemma OtherRowsStayLive(t: Tables, now: int, tx: Tx, id: int)
    requires WritesLive(t, now, tx) && id in t.rides && id !in tx.w.rides && RowLive(t, t.rides[id])
    requires tx.cmd.ResolveMatch? ==> !Unseen(t, tx, id)
    ensures RowLive(Overlay(t, tx.w), t.rides[id])
  {
    CommitEnds(t, now, tx);
  }

  lemma CommitTimes(t: Tables, now: int, tx: Tx)
    requires MatchTimes(t, now) && WritesLive(t, now, tx)
    ensures MatchTimes(Overlay(t, tx.w), now)
  {
  }

  lemma FinishedIsLive(t: Tables, now: int, tx: Tx, answer: Result<Reply>)
    requires tx.now <= now
    ensures TxLive(t, now, Finished(tx, answer))
  {
  }

  lemma AdvanceIsLive(s: System, tid: int, pick: int)
    requires SystemOk(s) && SystemLive(s) && tid in s.txs && !LeavesBehind(s, Advance(tid, pick))
    ensures SystemLive(AdvanceTx(s, tid, pick))
  {
    hide Plan, DbOk, TxOk, RowsLive, WritesLive, BoundLive, Bound, Unseen;
    var tx := s.txs[tid];
    match Plan(s.db, s.clock, tx, pick)
    case Stuck =>
    case Go(_, _) => MoveIsLive(s.db, s.clock, tx, pick);
    case Commit(answer) =>
      if IsRideCommand(tx.cmd) {
        RideCommitsItsAnswer(s.db, s.clock, tx, pick);
      }
      CommitIsLive(s.db, s.clock, tx);
      WritesAreTimely(s.db, s.clock, tx);
      FinishedIsLive(Overlay(s.db, tx.w), s.clock, tx, answer);
      forall u | u in s.txs && u != tid ensures TxLive(Overlay(s.db, tx.w), s.clock, s.txs[u]) {
        LiveIsStable(s.db, s.clock, tx, s.txs[u]);
      }
  }

  lemma LaterIsLive(t: Tables, now: int, later: int)
    requires now <= later
    ensures RowsLive(t, now) ==> RowsLive(t, later)
    ensures forall tx :: TxLive(t, now, tx) ==> TxLive(t, later, tx)
  {
  }

  lemma NextIsLive(s: System, event: Event)
    requires SystemOk(s) && SystemLive(s) && !LeavesBehind(s, event)
    ensures SystemLive(Next(s, event))
  {
    hide Plan, AdvanceTx, SystemOk, RowsLive, LeavesBehind;
    match event
    case Tick(seconds) => LaterIsLive(s.db, s.clock, s.clock + seconds);
    case Begin(_, _) =>
    case Cancel(_) =>
    case Advance(tid, pick) =>
      if tid in s.txs {
        AdvanceIsLive(s, tid, pick);
      }
  }

  /** From any live system, a schedule that leaves no ride behind stays live. */
  lemma {:induction false} LiveIsKept(s: System, events: seq<Event>)
    requires SystemOk(s) && SystemLive(s) && Follows(s, events, LeavesNone())
    ensures SystemOk(Play(s, events)) && SystemLive(Play(s, events))
    decreases |events|
  {
    hide Next, SystemOk, SystemLive, LeavesBehind;
    ScheduleIsOk(s, events);
    if events != [] {
      var last := |events| - 1;
      FollowsBefore(s, events, LeavesNone());
      LiveIsKept(s, events[..last]);
      NextIsLive(Play(s, events[..last]), events[last]);
    }
  }

  lemma StartIsSystemLive(s: System)
    requires Initial(s) && Steady(s.db, s.clock)
    ensures SystemOk(s) && SystemLive(s)
  {
    Layers.SteadyIsOk(s.db, s.clock);
  }

  /** A live ride of a closed round would be on a match that is closed with it. */
  lemma LiveIsSteady(t: Tables, now: int)
    requires DbOk(t) && RowsLive(t, now)
    ensures Steady(t, now)
  {
  }

  /** From every state that commands keep, every interleaving of all commands in which no
      resolution leaves a ride behind keeps it too: a ride is locked exactly while its
      match has not ended. */
  lemma {:induction false} InterleavedRidesStayLive(s: System, events: seq<Event>)
    requires Initial(s) && Steady(s.db, s.clock) && Follows(s, events, LeavesNone())
    ensures Steady(Play(s, events).db, Play(s, events).clock)
    ensures NothingAccrued(s.db) ==> NothingAccrued(Play(s, events).db)
  {
    StartIsSystemLive(s);
    LiveIsKept(s, events);
    LiveIsSteady(Play(s, events).db, Play(s, events).clock);
    if NothingAccrued(s.db) {
      SchedulesAccrueNothing(s, events);
    }
  }

  // ---------- without resolutions ----------

  predicate WithoutResolutions(events: seq<Event>) {
    forall i | 0 <= i < |events| :: events[i].Begin? ==> !events[i].cmd.ResolveMatch?
  }

  lemma {:induction false} NoResolutionBegins(s: System, events: seq<Event>)
    requires Initial(s) && DbOk(s.db) && WithoutResolutions(events)
    ensures forall a | a in Play(s, events).txs :: !Play(s, events).txs[a].cmd.ResolveMatch?
    decreases |events|
  {
    if events != [] {
      var last := |events| - 1;
      NoResolutionBegins(s, events[..last]);
      ScheduleIsOk(s, events[..last]);
      NextKeepsCommands(Play(s, events[..last]), events[last]);
    }
  }

  lemma NextKeepsCommands(s: System, event: Event)
    requires SystemOk(s)
    ensures forall a | a in Next(s, event).txs ::
      if a in s.txs then Next(s, event).txs[a].cmd == s.txs[a].cmd
      else event.Begin? && Next(s, event).txs[a].cmd == event.cmd
  {
    hide PcOk, Sound;
    if event.Advance? && event.tid in s.txs {
      MoveIsGood(s.db, s.clock, s.txs[event.tid], event.pick);
    }
  }

  /** Where no match is resolved no ride is left behind, edits of all kinds included. */
  lemma UnresolvedLeavesNone(s: System, events: seq<Event>)
    requires Initial(s) && DbOk(s.db) && WithoutResolutions(events)
    ensures Follows(s, events, LeavesNone())
  {
    forall k | 0 <= k < |events| ensures LeavesNone()(Play(s, events[..k]), events[k]) {
      NoResolutionBegins(s, events[..k]);
    }
  }

  lemma NextAccruesNothing(s: System, event: Event)
    requires SystemOk(s) && NothingAccrued(s.db)
    ensures NothingAccrued(Next(s, event).db)
  {
    NextCommitsOneTx(s, event);
    if Next(s, event).db != s.db {
      assert Legal(s.db, s.txs[event.tid].w);
    }
  }

  lemma {:induction false} SchedulesAccrueNothing(s: System, events: seq<Event>)
    requires SystemOk(s) && NothingAccrued(s.db)
    ensures NothingAccrued(Play(s, events).db)
    decreases |events|
  {
    if events != [] {
      SchedulesAccrueNothing(s, events[..|events| - 1]);
      ScheduleIsOk(s, events[..|events| - 1]);
      NextAccruesNothing(Play(s, events[..|events| - 1]), events[|events| - 1]);
    }
  }
}
