/** When rides and matches fall apart in interleavings of all commands: exactly when a
    resolution commits and leaves a ride behind. */
module LeftBehind {
  import opened Model
  import opened Statements
  import opened Commands
  import opened Reachable
  import opened Interleaving
  import opened Safety
  import opened Stability
  import opened Steps
  import opened Gates
  import opened RoundOrder
  import opened Stranding
  import opened LockedRides
  import opened Courses

  /** Some continuation that leaves nothing more behind ends with a ride locked on an ended match. */
  ghost predicate MayStillStrand(s: System) {
    exists u :: Reaches(s, u, LeavesNone()) && Stranded(u.db)
  }

  lemma RidersMayStep(a: int, cmd: Command)
    requires IsRideCommand(cmd)
    ensures PermitsSteps(LeavesNone(), a, cmd)
  {
  }

  lemma LeavesNoneAllowsCancels()
    ensures AllowsCancels(LeavesNone())
  {
  }

  /** The match the committing resolution ends. */
  lemma ResolutionEnds(s: System, event: Event)
    requires SystemOk(s) && SystemLive(s) && IsCommit(s, event) && s.txs[event.tid].cmd.ResolveMatch?
    ensures Ended(Next(s, event).db, s.txs[event.tid].cmd.matchId)
  {
    var tx := s.txs[event.tid];
    assert TxOk(s.db, tx) && TxLive(s.db, s.clock, tx);
    assert tx.pc.Settling?;
  }

  /** A ride the settlement did not see is stranded by the commit itself. */
  lemma UnseenIsStranded(s: System, event: Event, id: int)
    requires SystemOk(s) && SystemLive(s) && IsCommit(s, event) && s.txs[event.tid].cmd.ResolveMatch?
    requires Unseen(s.db, s.txs[event.tid], id)
    ensures Stranded(Next(s, event).db)
  {
    hide Plan, SystemOk, SystemLive;
    ResolutionEnds(s, event);
    assert Strands(Next(s, event).db, id);
  }

  lemma BoundIsRide(s: System, a: int, m: int)
    requires a in s.txs && Bound(s.db, s.txs[a], m)
    ensures IsRideCommand(s.txs[a].cmd)
  {
  }

  /** What the commit does not touch keeps the other command bound. */
  lemma BoundStays(t: Tables, w: Writes, u: Tx, m: int)
    requires Bound(t, u, m) && TxOk(t, u) && Legal(t, w) && w.rounds == map[]
    requires forall id | id in w.rides :: id in t.rides && t.rides[id].state == Locked
    ensures Bound(Overlay(t, w), u, m)
  {
    hide TxOk, Legal, RideUpdateAllowed, InsertRowError;
    OpenRoundsStay(t, w);
    match u.pc
    case Decided(_, next, _, _) =>
      UpdateStays(t, w, u, next, 0, t);
      assert WouldUpdate(Overlay(t, w), u, next, 0, Overlay(t, w));
    case Updating(_, next, destination, _, snapshot) => UpdateStays(t, w, u, next, destination, snapshot);
    case Creating(ride, _) => InsertStays(t, w, u, ride, t.matches[m].roundId);
    case Inserting(ride, _, roundId) => InsertStays(t, w, u, ride, roundId);
    case _ =>
  }

  lemma OpenRoundsStay(t: Tables, w: Writes)
    requires Legal(t, w) && w.rounds == map[]
    ensures Overlay(t, w).rounds == t.rounds
    ensures forall m | m in t.matches ::
      m in Overlay(t, w).matches && Overlay(t, w).matches[m].roundId == t.matches[m].roundId
  {
  }

  lemma UpdateStays(t: Tables, w: Writes, u: Tx, next: Ride, destination: int, snapshot: Tables)
    requires u.cmd.DecideRide? && WouldUpdate(t, u, next, destination, snapshot)
    requires forall id | id in w.rides :: id in t.rides && t.rides[id].state == Locked
    ensures WouldUpdate(Overlay(t, w), u, next, destination, snapshot)
  {
  }

  lemma InsertStays(t: Tables, w: Writes, u: Tx, ride: Ride, roundId: int)
    requires IsRideCommand(u.cmd) && WouldInsert(t, u.cmd, ride, roundId) && w.rounds == map[]
    requires forall id | id in w.rides :: id in t.rides
    ensures WouldInsert(Overlay(t, w), u.cmd, ride, roundId)
  {
    var id :| id !in t.rides && u.cmd.marshal(id, ride.(version := 1)).Ok?;
    assert id !in Overlay(t, w).rides;
  }

  lemma ResolutionLeavesBound(s: System, event: Event, a: int)
    requires SystemOk(s) && IsCommit(s, event) && s.txs[event.tid].cmd.ResolveMatch?
    requires a in s.txs && Bound(s.db, s.txs[a], s.txs[event.tid].cmd.matchId)
    ensures a != event.tid && a in Next(s, event).txs && Next(s, event).txs[a] == s.txs[a]
    ensures Bound(Next(s, event).db, s.txs[a], s.txs[event.tid].cmd.matchId)
  {
    hide Bound, DbOk, WritesOk, Plan;
    var tx := s.txs[event.tid];
    BoundIsRide(s, a, tx.cmd.matchId);
    CommitIsPlain(s, event);
    assert TxOk(s.db, tx) && TxOk(s.db, s.txs[a]);
    ResolvedRidesWereLocked(s, event);
    TxWritesLegal(s.db, tx);
    BoundStays(s.db, tx.w, s.txs[a], tx.cmd.matchId);
  }

  lemma TxWritesLegal(t: Tables, tx: Tx)
    requires TxOk(t, tx)
    ensures Legal(t, tx.w)
  {
  }

  lemma ResolvedRidesWereLocked(s: System, event: Event)
    requires SystemOk(s) && IsCommit(s, event) && s.txs[event.tid].cmd.ResolveMatch?
    ensures var tx := s.txs[event.tid];
      tx.w.rounds == map[] && forall id | id in tx.w.rides :: id in s.db.rides && s.db.rides[id].state == Locked
  {
    var tx := s.txs[event.tid];
    assert TxOk(s.db, tx);
    assert tx.pc.Settling?;
  }

  /** A bound command goes on to its commit when everyone else is gone. */
  lemma BoundIsStranded(s: System, event: Event, a: int) returns (w: System)
    requires SystemOk(s) && SystemLive(s) && IsCommit(s, event) && s.txs[event.tid].cmd.ResolveMatch?
    requires a in s.txs && Bound(s.db, s.txs[a], s.txs[event.tid].cmd.matchId)
    ensures Reaches(Next(s, event), w, LeavesNone()) && Stranded(w.db)
  {
    hide Bound, Next, SystemOk, SystemLive, Reaches, LandedOn, Plan, LeavesBehind, PermitsSteps;
    var v, m := Next(s, event), s.txs[event.tid].cmd.matchId;
    NextIsOk(s, event);
    ResolutionEnds(s, event);
    ResolutionLeavesBound(s, event, a);
    BoundIsRide(s, a, m);
    RidersMayStep(a, s.txs[a].cmd);
    LeavesNoneAllowsCancels();
    DoneHoldsNothing(v);
    ReachesItself(v, LeavesNone());
    var u := OthersGiveUp(v, v, LeavesNone(), a, v.txs.Keys - {a});
    ReachedIsOk(v, u, LeavesNone());
    var id, e;
    w, id, e := BoundLands(v, u, LeavesNone(), a, m);
    LandedIsStranded(u, w, a, m, id, e);
  }

  lemma LandedIsStranded(u: System, w: System, a: int, m: int, id: int, e: Entry)
    requires a in u.txs && LandedOn(u, w, a, m, id, e) && Ended(u.db, m)
    ensures Stranded(w.db)
  {
    assert Strands(w.db, id);
  }

  lemma LiveIsNotStranded(s: System)
    requires SystemOk(s) && SystemLive(s)
    ensures !MayStillStrand(s)
  {
    forall u | Reaches(s, u, LeavesNone()) ensures !Stranded(u.db) {
      var events :| Follows(s, events, LeavesNone()) && Play(s, events) == u;
      LiveIsKept(s, events);
    }
  }

  lemma LeftMayStrand(s: System, event: Event)
    requires SystemOk(s) && SystemLive(s) && LeavesBehind(s, event)
    ensures MayStillStrand(Next(s, event))
  {
    hide Next, SystemOk, SystemLive, Bound, Unseen, Reaches;
    var m := s.txs[event.tid].cmd.matchId;
    if a :| a in s.txs && Bound(s.db, s.txs[a], m) {
      var w := BoundIsStranded(s, event, a);
    } else {
      var id :| Unseen(s.db, s.txs[event.tid], id);
      UnseenIsStranded(s, event, id);
      ReachesItself(Next(s, event), LeavesNone());
    }
  }

  /** After a schedule of any number of commands of every kind that left no ride behind, a
      step leaves one behind if and only if some continuation that leaves none more ends
      with a ride locked on an ended match. */
  lemma LeftExactly(s: System, events: seq<Event>, event: Event)
    requires Initial(s) && Steady(s.db, s.clock) && Follows(s, events, LeavesNone())
    ensures LeavesBehind(Play(s, events), event) <==> MayStillStrand(Next(Play(s, events), event))
  {
    hide Next, SystemOk, SystemLive, LeavesBehind, MayStillStrand;
    StartIsSystemLive(s);
    LiveIsKept(s, events);
    var v := Play(s, events);
    if LeavesBehind(v, event) {
      LeftMayStrand(v, event);
    } else {
      NextIsOk(v, event);
      NextIsLive(v, event);
      LiveIsNotStranded(Next(v, event));
    }
  }
}
