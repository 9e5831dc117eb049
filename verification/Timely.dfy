/** A creation that keeps its time is left behind by no resolution, whatever else runs,
    as long as no match is given another start. */
module Timely {
  import opened Model
  import opened Phases
  import opened Gates
  import opened Statements
  import opened Commands
  import opened Interleaving
  import opened Safety
  import opened Stability
  import opened Steps
  import opened RoundOrder
  import opened Reachable
  import opened LockedRides

  /** No match edit carries a start. */
  predicate KeepsStart(cmd: Command) {
    cmd.PatchMatch? ==> cmd.edit.startsAt.None?
  }

  predicate StartsKept(events: seq<Event>) {
    forall i | 0 <= i < |events| :: events[i].Begin? ==> KeepsStart(events[i].cmd)
  }

  predicate ReadEarly(t: Tables, m: int, at: int) {
    m in t.matches && at < t.matches[m].startsAt - ACTION_PHASE_LEAD
  }

  /** A creation read its phase more than an hour before the start its match still has. */
  predicate PcEarly(t: Tables, tx: Tx) {
    tx.cmd.CreateRide? ==>
      match tx.pc
      case Creating(_, at) => ReadEarly(t, tx.cmd.ride.matchId, at)
      case Inserting(_, at, _) => ReadEarly(t, tx.cmd.ride.matchId, at)
      case Written(id, at) =>
        ReadEarly(t, tx.cmd.ride.matchId, at) && id in tx.w.rides && tx.w.rides[id].matchId == tx.cmd.ride.matchId
      case Saved(id, at, _) =>
        ReadEarly(t, tx.cmd.ride.matchId, at) && id in tx.w.rides && tx.w.rides[id].matchId == tx.cmd.ride.matchId
      case _ => true
  }

  predicate TxEarly(t: Tables, tx: Tx) {
    && KeepsStart(tx.cmd) && PcEarly(t, tx)
    && forall m | m in tx.w.matches :: m in t.matches && tx.w.matches[m].startsAt == t.matches[m].startsAt
  }

  ghost predicate SystemEarly(s: System) {
    forall a | a in s.txs :: TxEarly(s.db, s.txs[a])
  }

  lemma CreationMoveIsEarly(t: Tables, clock: int, tx: Tx, pick: int)
    requires TxOk(t, tx) && TxEarly(t, tx) && tx.cmd.CreateRide? && PlanRide(t, clock, tx, pick).Go?
    ensures TxEarly(t, PlanRide(t, clock, tx, pick).tx)
  {
    hide Sound, InsertRowError, PlanUpdateRow, PlanDecide, PlanUpdate;
    assert RidePc(t, tx);
  }

  lemma DecisionMoveIsEarly(t: Tables, clock: int, tx: Tx, pick: int)
    requires TxEarly(t, tx) && tx.cmd.DecideRide? && PlanRide(t, clock, tx, pick).Go?
    ensures TxEarly(t, PlanRide(t, clock, tx, pick).tx)
  {
    hide UpdateRowError, InsertRowError, UpdateGuard;
  }

  lemma EditRowIsEarly(t: Tables, tx: Tx)
    requires TxEarly(t, tx) && tx.cmd.PatchMatch? && tx.pc.MatchBegun? && PlanMatchRow(t, tx).Go?
    requires MatchPrepared(t, tx, tx.pc.m, tx.pc.editedMatch)
    ensures TxEarly(t, PlanMatchRow(t, tx).tx)
  {
  }

  lemma ResolveRowIsEarly(t: Tables, tx: Tx)
    requires TxEarly(t, tx) && tx.cmd.ResolveMatch? && tx.pc.Resolving?
    ensures TxEarly(t, PlanResolveRow(t, tx).tx)
  {
  }

  /** All other admin steps write no match. */
  lemma AdminMoveIsEarly(t: Tables, clock: int, tx: Tx, pick: int)
    requires TxOk(t, tx) && TxEarly(t, tx) && !IsRideCommand(tx.cmd) && PlanAdmin(t, clock, tx, pick).Go?
    ensures TxEarly(t, PlanAdmin(t, clock, tx, pick).tx)
  {
    hide PlanMatchRow, PlanResolveRow, Sound, RideUpdateAllowed, RoundGateError;
    assert AdminPc(t, tx);
    if tx.pc.MatchBegun? {
      EditRowIsEarly(t, tx);
    } else if tx.pc.Resolving? {
      ResolveRowIsEarly(t, tx);
    }
  }

  lemma MoveIsEarly(t: Tables, clock: int, tx: Tx, pick: int)
    requires TxOk(t, tx) && TxEarly(t, tx) && Plan(t, clock, tx, pick).Go?
    ensures TxEarly(t, Plan(t, clock, tx, pick).tx)
  {
    hide TxOk;
    if tx.pc.Start? {
    } else if tx.cmd.CreateRide? {
      CreationMoveIsEarly(t, clock, tx, pick);
    } else if tx.cmd.DecideRide? {
      DecisionMoveIsEarly(t, clock, tx, pick);
    } else {
      AdminMoveIsEarly(t, clock, tx, pick);
    }
  }

  lemma EarlyIsStable(t: Tables, w: Writes, u: Tx)
    requires TxEarly(t, u) && Apart(w, u.w)
    requires forall m | m in w.matches :: m in t.matches && w.matches[m].startsAt == t.matches[m].startsAt
    ensures TxEarly(Overlay(t, w), u)
  {
  }

  lemma AdvanceIsEarly(s: System, tid: int, pick: int)
    requires SystemOk(s) && SystemEarly(s) && tid in s.txs
    ensures SystemEarly(AdvanceTx(s, tid, pick))
  {
    hide Plan, DbOk, TxOk, PcEarly;
    var tx := s.txs[tid];
    match Plan(s.db, s.clock, tx, pick)
    case Stuck =>
    case Go(_, _) => MoveIsEarly(s.db, s.clock, tx, pick);
    case Commit(answer) =>
      FinishedIsEarly(Overlay(s.db, tx.w), tx, answer);
      forall u | u in s.txs && u != tid ensures TxEarly(Overlay(s.db, tx.w), s.txs[u]) {
        LocksApart(s.db, tx, s.txs[u]);
        EarlyIsStable(s.db, tx.w, s.txs[u]);
      }
  }

  lemma FinishedIsEarly(t: Tables, tx: Tx, answer: Result<Reply>)
    requires KeepsStart(tx.cmd)
    ensures TxEarly(t, Finished(tx, answer))
  {
  }

  lemma NextIsEarly(s: System, event: Event)
    requires SystemOk(s) && SystemEarly(s) && (event.Begin? ==> KeepsStart(event.cmd))
    ensures SystemEarly(Next(s, event))
  {
    hide Plan, AdvanceTx;
    if event.Advance? && event.tid in s.txs {
      AdvanceIsEarly(s, event.tid, event.pick);
    }
  }

  lemma {:induction false} ScheduleIsEarly(s: System, events: seq<Event>)
    requires SystemOk(s) && SystemEarly(s) && StartsKept(events)
    ensures SystemEarly(Play(s, events))
    decreases |events|
  {
    hide Next, SystemOk, SystemEarly;
    if events != [] {
      var last := |events| - 1;
      ScheduleIsEarly(s, events[..last]);
      ScheduleIsOk(s, events[..last]);
      NextIsEarly(Play(s, events[..last]), events[last]);
    }
  }

  /** A resolution is written after its match has started. */
  lemma ResolvedHasStarted(s: System, event: Event)
    requires SystemOk(s) && SystemLive(s) && SystemEarly(s)
    requires IsCommit(s, event) && s.txs[event.tid].cmd.ResolveMatch?
    ensures var m := s.txs[event.tid].cmd.matchId; m in s.db.matches && s.db.matches[m].startsAt < s.clock
  {
    var tx := s.txs[event.tid];
    assert TxOk(s.db, tx) && TxLive(s.db, s.clock, tx) && TxEarly(s.db, tx);
    assert tx.pc.Settling? && tx.cmd.matchId in tx.w.matches;
  }

  lemma BoundCreationReadEarly(t: Tables, tx: Tx, m: int)
    requires TxOk(t, tx) && TxEarly(t, tx) && Bound(t, tx, m) && tx.cmd.CreateRide?
    ensures BetweenReadAndCommit(tx) && ReadEarly(t, m, tx.pc.at)
  {
    assert RidePc(t, tx);
  }

  /** A creation between its phase read and its commit. */
  predicate BetweenReadAndCommit(tx: Tx) {
    tx.pc.Creating? || tx.pc.Inserting? || tx.pc.Written? || tx.pc.Saved?
  }

  /** In every interleaving that gives no match another start and has left no ride behind:
      a creation that is bound to a match whose resolution commits has been open for more
      than an hour since it read its phase. The handlers give it three seconds. */
  lemma {:induction false} OnlyLateCreationsAreLeft(s: System, events: seq<Event>, event: Event, a: int)
    requires Initial(s) && Steady(s.db, s.clock) && Follows(s, events, LeavesNone()) && StartsKept(events)
    requires var v := Play(s, events);
      && IsCommit(v, event) && v.txs[event.tid].cmd.ResolveMatch?
      && a in v.txs && v.txs[a].cmd.CreateRide? && Bound(v.db, v.txs[a], v.txs[event.tid].cmd.matchId)
    ensures var tx := Play(s, events).txs[a];
      BetweenReadAndCommit(tx) && tx.pc.at + ACTION_PHASE_LEAD < Play(s, events).clock
  {
    hide Plan, Play, TxOk, SystemLive, DbOk, Bound, TxEarly;
    StartIsSystemLive(s);
    LiveIsKept(s, events);
    ScheduleIsEarly(s, events);
    var v := Play(s, events);
    ResolvedHasStarted(v, event);
    BoundCreationReadEarly(v.db, v.txs[a], v.txs[event.tid].cmd.matchId);
  }
}
