/** One transaction's commit leaves every other transaction's knowledge true, so the
    invariant holds in every interleaving. */
module Stability {
  import opened Model
  import opened Lifecycle
  import opened Gates
  import opened Statements
  import opened Commands
  import opened Changes
  import opened Interleaving
  import opened Safety

  /** No row is written by both. */
  predicate Apart(w: Writes, v: Writes) {
    && w.rides.Keys !! v.rides.Keys
    && w.matches.Keys !! v.matches.Keys
    && w.rounds.Keys !! v.rounds.Keys
    && w.seasons.Keys !! v.seasons.Keys
    && w.keys.Keys !! v.keys.Keys
  }

  lemma LocksKeepApart(tx: Tx, u: Tx)
    requires Covered(tx) && Covered(u) && Compatible(tx.locks, u.locks)
    ensures Apart(tx.w, u.w)
  {
    forall id | id in tx.w.rides ensures id !in u.w.rides { assert Conflict(RideLock(id), RideLock(id)); }
    forall id | id in tx.w.matches ensures id !in u.w.matches { assert Conflict(MatchLock(id), MatchLock(id)); }
    forall id | id in tx.w.rounds ensures id !in u.w.rounds { assert Conflict(RoundLock(id), RoundLock(id)); }
    forall id | id in tx.w.seasons ensures id !in u.w.seasons { assert Conflict(SeasonLock(id), SeasonLock(id)); }
    forall k | k in tx.w.keys ensures k !in u.w.keys { assert Conflict(KeyLock(k), KeyLock(k)); }
  }

  lemma CommitKeepsMatchesClosed(t: Tables, w: Writes, m: int)
    requires DbOk(t) && WritesOk(t, w) && m in t.matches
    ensures var u := Overlay(t, w);
      && m in u.matches && u.matches[m].roundId == t.matches[m].roundId && u.matches[m].roundId in u.rounds
      && MatchRowOk(u.matches[m])
      && (ClosedWithRound(t, m) ==> ClosedWithRound(u, m))
  {
  }

  lemma CommitLeavesSettled(t: Tables, w: Writes, id: int)
    requires DbOk(t) && WritesOk(t, w) && id in Overlay(t, w).rides
    ensures var u := Overlay(t, w);
      && u.rides[id].matchId in t.matches
      && (u.rides[id].state == WonPending && RoundKnown(u, u.rides[id].matchId) ==>
           RoundStatusOf(u, u.rides[id].matchId) != RoundClosed)
      && (u.rides[id].state == Locked ==> ClosedWithRound(u, u.rides[id].matchId))
  {
    CommitKeepsMatchesClosed(t, w, Overlay(t, w).rides[id].matchId);
  }

  /** A commit keeps the committed tables good. */
  lemma CommitKeepsDb(t: Tables, w: Writes)
    requires DbOk(t) && WritesOk(t, w)
    ensures DbOk(Overlay(t, w))
  {
    CommitKeepsRows(t, w);
    var u := Overlay(t, w);
    forall id | id in u.rides
      ensures u.rides[id].state == WonPending && RoundKnown(u, u.rides[id].matchId) ==>
        RoundStatusOf(u, u.rides[id].matchId) != RoundClosed
      ensures u.rides[id].state == Locked ==> ClosedWithRound(u, u.rides[id].matchId)
    {
      CommitLeavesSettled(t, w, id);
    }
  }

  lemma CommitKeepsRows(t: Tables, w: Writes)
    requires DbOk(t) && WritesOk(t, w)
    ensures var u := Overlay(t, w); References(u) && forall m | m in u.matches :: MatchRowOk(u.matches[m])
  {
  }

  lemma ClosedWithRoundStays(t: Tables, w: Writes)
    requires DbOk(t) && WritesOk(t, w)
    ensures forall m | m in t.matches :: ClosedWithRound(t, m) ==> ClosedWithRound(Overlay(t, w), m)
  {
    forall m | m in t.matches && ClosedWithRound(t, m) ensures ClosedWithRound(Overlay(t, w), m) {
      CommitKeepsMatchesClosed(t, w, m);
    }
  }

  lemma LegalIsStable(t: Tables, w: Writes, v: Writes)
    requires DbOk(t) && WritesOk(t, w) && Legal(t, v) && Apart(w, v)
    ensures Legal(Overlay(t, w), v)
  {
    ClosedWithRoundStays(t, w);
  }

  lemma FlipIsStable(t: Tables, w: Writes, v: Writes)
    requires DbOk(t) && WritesOk(t, w) && Legal(t, v) && FlipCovered(t, v) && Apart(w, v)
    ensures FlipCovered(Overlay(t, w), v)
  {
  }

  lemma WritesAreStable(t: Tables, w: Writes, v: Writes)
    requires DbOk(t) && WritesOk(t, w) && WritesOk(t, v) && Apart(w, v)
    ensures WritesOk(Overlay(t, w), v)
  {
    LegalIsStable(t, w, v);
    FlipIsStable(t, w, v);
  }

  lemma SeenIsStable(t: Tables, w: Writes)
    requires Legal(t, w)
    ensures forall id, ride :: SeenRide(t, id, ride) ==> SeenRide(Overlay(t, w), id, ride)
    ensures forall id, m :: SeenMatch(t, id, m) ==> SeenMatch(Overlay(t, w), id, m)
    ensures forall id, round :: SeenRound(t, id, round) ==> SeenRound(Overlay(t, w), id, round)
    ensures forall id, season :: SeenSeason(t, id, season) ==> SeenSeason(Overlay(t, w), id, season)
  {
  }

  lemma MatchRoundIsFixed(t: Tables, w: Writes, m: int)
    requires Legal(t, w) && m in t.matches
    ensures m in Overlay(t, w).matches && Overlay(t, w).matches[m].roundId == t.matches[m].roundId
  {
  }

  lemma RidePcIsStable(t: Tables, w: Writes, u: Tx)
    requires DbOk(t) && WritesOk(t, w) && IsRideCommand(u.cmd) && RidePc(t, u)
    ensures RidePc(Overlay(t, w), u)
  {
    ClosedWithRoundStays(t, w);
    SeenIsStable(t, w);
  }

  /** A ride another settlement saw stays locked on its match: who settles it must hold the score. */
  lemma SeenAreStable(t: Tables, w: Writes, u: Tx)
    requires Legal(t, w) && SettledUnderScore(t, w) && Apart(w, u.w)
    requires u.cmd.ResolveMatch? && u.pc.Settling? && ScoreWritten(t, u) && SeenAreHeld(t, u, u.pc.seen, u.pc.todo)
    ensures SeenAreHeld(Overlay(t, w), u, u.pc.seen, u.pc.todo)
  {
  }

  /** The locked row stays, and no ride of a round whose matches are all closed becomes undecided. */
  lemma GatedIsStable(t: Tables, w: Writes, u: Tx)
    requires Legal(t, w) && SettledUnderScore(t, w) && Apart(w, u.w)
    requires u.cmd.PatchRound? && u.pc.RoundGated? && GatedPc(t, u) && u.cmd.roundId !in w.rounds
    ensures GatedPc(Overlay(t, w), u)
  {
  }

  lemma RoundLockKeepsOut(tx: Tx, u: Tx, id: int)
    requires Covered(tx) && Compatible(tx.locks, u.locks) && RoundLock(id) in u.locks
    ensures id !in tx.w.rounds
  {
    if id in tx.w.rounds {
      assert Conflict(RoundLock(id), RoundLock(id));
    }
  }

  lemma AdminPcIsStable(t: Tables, w: Writes, u: Tx)
    requires Legal(t, w) && SettledUnderScore(t, w) && Apart(w, u.w) && !IsRideCommand(u.cmd) && AdminPc(t, u)
    requires !u.pc.RoundGated?
    ensures AdminPc(Overlay(t, w), u)
  {
    SeenIsStable(t, w);
    var t' := Overlay(t, w);
    if u.cmd.ResolveMatch? && (u.pc.Scored? || u.pc.Settling?) {
      assert SettledRides(t', u, u.cmd.matchId);
      if u.pc.Settling? {
        SeenAreStable(t, w, u);
      }
    }
    if u.cmd.PatchRound? {
      if u.pc.AutoResolving? {
        forall id | id in u.pc.targets ensures u.pc.targets[id] in t'.matches
            && t'.matches[u.pc.targets[id]].roundId == u.cmd.roundId {
          MatchRoundIsFixed(t, w, u.pc.targets[id]);
        }
      }
      forall number | AutoResolved(t, u, u.cmd.roundId, number) ensures AutoResolved(t', u, u.cmd.roundId, number) {
      }
    }
  }

  /** What a transaction knows survives any other transaction's commit. */
  lemma TxIsStable(t: Tables, tx: Tx, u: Tx)
    requires DbOk(t) && TxOk(t, tx) && TxOk(t, u) && Compatible(tx.locks, u.locks)
    ensures TxOk(Overlay(t, tx.w), u)
  {
    LocksKeepApart(tx, u);
    WritesAreStable(t, tx.w, u.w);
    if IsRideCommand(u.cmd) {
      RidePcIsStable(t, tx.w, u);
    } else if u.pc.RoundGated? {
      RoundLockKeepsOut(tx, u, u.cmd.roundId);
      GatedIsStable(t, tx.w, u);
    } else {
      AdminPcIsStable(t, tx.w, u);
    }
  }

  lemma RideCommitsItsAnswer(t: Tables, clock: int, tx: Tx, pick: int)
    requires IsRideCommand(tx.cmd) && Plan(t, clock, tx, pick).Commit?
    ensures tx.pc.Saved? && Plan(t, clock, tx, pick) == Commit(Ok(RideReply(tx.pc.response)))
  {
  }

  lemma SavedIsWritten(t: Tables, tx: Tx)
    requires TxOk(t, tx) && IsRideCommand(tx.cmd) && tx.pc.Saved?
    ensures RideWritten(tx, tx.pc.id, tx.pc.response)
  {
  }

  lemma WrittenAnswerIsStored(t: Tables, tx: Tx, u: Tx)
    requires IsRideCommand(tx.cmd) && tx.pc.Saved? && RideWritten(tx, tx.pc.id, tx.pc.response) && u.cmd == tx.cmd
    ensures AnswerStored(Overlay(t, tx.w), u, Ok(RideReply(tx.pc.response)))
  {
    var key := tx.cmd.token.key;
    assert Overlay(t, tx.w).keys[key] == ClaimRow(tx.cmd.token).(response := tx.pc.response);
  }

  lemma DoneIsOk(t: Tables, tx: Tx)
    requires Idle(tx) && tx.pc.Done? && (IsRideCommand(tx.cmd) ==> AnswerStored(t, tx, tx.pc.answer))
    ensures TxOk(t, tx)
  {
    NothingIsOk(t, tx);
  }

  /** The committed transaction itself: its key row now holds its answer. */
  lemma FinishedIsOk(t: Tables, clock: int, tx: Tx, pick: int, answer: Result<Reply>)
    requires TxOk(t, tx) && Plan(t, clock, tx, pick) == Commit(answer)
    ensures TxOk(Overlay(t, tx.w), Finished(tx, answer))
  {
    hide Plan, TxOk, Overlay, AnswerStored;
    if IsRideCommand(tx.cmd) {
      RideCommitsItsAnswer(t, clock, tx, pick);
      SavedIsWritten(t, tx);
      WrittenAnswerIsStored(t, tx, Finished(tx, answer));
    }
    DoneIsOk(Overlay(t, tx.w), Finished(tx, answer));
  }

  // ---------- the system ----------

  ghost predicate LocksExclude(s: System) {
    forall a, b | a in s.txs && b in s.txs && a != b :: Compatible(s.txs[a].locks, s.txs[b].locks)
  }

  ghost predicate SystemOk(s: System) {
    && DbOk(s.db)
    && (forall a | a in s.txs :: TxOk(s.db, s.txs[a]))
    && LocksExclude(s)
  }

  lemma CompatibleGrows(locks: set<Lock>, need: set<Lock>, next: set<Lock>, others: set<Lock>)
    requires Compatible(locks, others) && Compatible(need, others) && next <= locks + need
    ensures Compatible(next, others) && Compatible(others, next)
  {
  }

  lemma GoIsOk(s: System, tid: int, need: set<Lock>, next: Tx)
    requires SystemOk(s) && tid in s.txs && MayTake(s, tid, need)
    requires TxOk(s.db, next) && next.locks <= s.txs[tid].locks + need
    ensures SystemOk(s.(txs := s.txs[tid := next]))
  {
    forall u | u in s.txs && u != tid ensures Compatible(next.locks, s.txs[u].locks)
        && Compatible(s.txs[u].locks, next.locks) {
      CompatibleGrows(s.txs[tid].locks, need, next.locks, s.txs[u].locks);
    }
  }

  lemma TxWritesOk(t: Tables, tx: Tx)
    requires TxOk(t, tx)
    ensures WritesOk(t, tx.w)
  {
  }

  lemma CommitIsOk(s: System, tid: int, pick: int, answer: Result<Reply>)
    requires SystemOk(s) && tid in s.txs && Plan(s.db, s.clock, s.txs[tid], pick) == Commit(answer)
    ensures SystemOk(AdvanceTx(s, tid, pick))
  {
    hide Plan, DbOk, TxOk, WritesOk;
    var tx := s.txs[tid];
    var after := AdvanceTx(s, tid, pick);
    assert after.db == Overlay(s.db, tx.w) && after.txs == s.txs[tid := Finished(tx, answer)];
    TxWritesOk(s.db, tx);
    CommitKeepsDb(s.db, tx.w);
    FinishedIsOk(s.db, s.clock, tx, pick, answer);
    forall u | u in after.txs ensures TxOk(after.db, after.txs[u]) {
      if u != tid {
        TxIsStable(s.db, tx, s.txs[u]);
      }
    }
    FinishedExcludes(s, tid, answer);
    assert LocksExclude(after);
  }

  lemma FinishedExcludes(s: System, tid: int, answer: Result<Reply>)
    requires LocksExclude(s) && tid in s.txs
    ensures LocksExclude(s.(txs := s.txs[tid := Finished(s.txs[tid], answer)]))
  {
  }

  lemma AdvanceIsOk(s: System, tid: int, pick: int)
    requires SystemOk(s) && tid in s.txs
    ensures SystemOk(AdvanceTx(s, tid, pick))
  {
    MoveIsGood(s.db, s.clock, s.txs[tid], pick);
    match Plan(s.db, s.clock, s.txs[tid], pick)
    case Stuck =>
    case Go(need, next) =>
      if MayTake(s, tid, need) {
        GoIsOk(s, tid, need, next);
      }
    case Commit(answer) => CommitIsOk(s, tid, pick, answer);
  }

  lemma CancelIsOk(s: System, tid: int)
    requires SystemOk(s) && tid in s.txs
    ensures SystemOk(s.(txs := s.txs[tid := Refuse(s.txs[tid], Aborted)]))
  {
    RefuseIsGood(s.db, s.txs[tid], {}, Aborted);
    GoIsOk(s, tid, {}, Refuse(s.txs[tid], Aborted));
  }

  lemma BeginIsOk(s: System, tid: int, cmd: Command)
    requires SystemOk(s) && tid !in s.txs
    ensures SystemOk(s.(txs := s.txs[tid := Tx(cmd, s.clock, Start, NOTHING, {})]))
  {
  }

  lemma NextIsOk(s: System, event: Event)
    requires SystemOk(s)
    ensures SystemOk(Next(s, event))
  {
    match event
    case Tick(_) =>
    case Begin(tid, cmd) =>
      if tid !in s.txs {
        BeginIsOk(s, tid, cmd);
      }
    case Cancel(tid) =>
      if tid in s.txs {
        CancelIsOk(s, tid);
      }
    case Advance(tid, pick) =>
      if tid in s.txs {
        AdvanceIsOk(s, tid, pick);
      }
  }

  lemma {:induction false} ScheduleIsOk(s: System, events: seq<Event>)
    requires SystemOk(s)
    ensures SystemOk(Play(s, events))
    decreases |events|
  {
    if events != [] {
      ScheduleIsOk(s, events[..|events| - 1]);
      NextIsOk(Play(s, events[..|events| - 1]), events[|events| - 1]);
    }
  }

  lemma NextKeepsMatchesClosed(s: System, event: Event, m: int)
    requires SystemOk(s) && m in s.db.matches && ClosedWithRound(s.db, m)
    ensures m in Next(s, event).db.matches && ClosedWithRound(Next(s, event).db, m)
  {
    NextCommitsOneTx(s, event);
    if Next(s, event).db != s.db {
      assert TxOk(s.db, s.txs[event.tid]);
      CommitKeepsMatchesClosed(s.db, s.txs[event.tid].w, m);
    }
  }

  /** In every interleaving of ride commands, resolutions and round, match and season
      edits, a committed closed round owns no undecided ride and no locked ride on a
      match still open, and a round closes only over closed matches: each match that is
      closed if its round is stays so, whichever of the two closes. */
  lemma {:induction false} ClosedRoundsStaySettled(s: System, events: seq<Event>)
    requires Initial(s) && DbOk(s.db)
    ensures ClosedIsSettled(Play(s, events).db)
    ensures forall m | m in s.db.matches && ClosedWithRound(s.db, m) ::
      m in Play(s, events).db.matches && ClosedWithRound(Play(s, events).db, m)
    decreases |events|
  {
    ScheduleIsOk(s, events);
    if events != [] {
      var last := |events| - 1;
      ClosedRoundsStaySettled(s, events[..last]);
      ScheduleIsOk(s, events[..last]);
      forall m | m in s.db.matches && ClosedWithRound(s.db, m)
        ensures m in Play(s, events).db.matches && ClosedWithRound(Play(s, events).db, m)
      {
        NextKeepsMatchesClosed(Play(s, events[..last]), events[last], m);
      }
    }
  }

  // ---------- the committed tables only move forward ----------

  predicate SeasonGrows(before: Season, after: Season) {
    SeasonRank(before.status) <= SeasonRank(after.status)
    && before.version <= after.version && (before.version == after.version ==> before == after)
  }

  predicate RoundGrows(before: Round, after: Round) {
    RoundKeeps(before, after)
    && before.version <= after.version && (before.version == after.version ==> before == after)
  }

  predicate MatchGrows(before: Match, after: Match) {
    MatchKeeps(before, after)
    && before.version <= after.version && (before.version == after.version ==> before == after)
  }

  predicate RideGrows(before: Ride, after: Ride) {
    && SameStake(before, after)
    && before.version <= after.version && (before.version == after.version ==> before == after)
    && (Terminal(before.state) ==> after == before)
  }

  /** Rows are never lost; ranks never fall; a closed match stays closed, an exited
      ride stays as it is; a version names one row for good; a stored answer is final. */
  predicate Grows(t: Tables, u: Tables) {
    && (forall s | s in t.seasons :: s in u.seasons && SeasonGrows(t.seasons[s], u.seasons[s]))
    && (forall r | r in t.rounds :: r in u.rounds && RoundGrows(t.rounds[r], u.rounds[r]))
    && (forall m | m in t.matches :: m in u.matches && MatchGrows(t.matches[m], u.matches[m]))
    && (forall m | m in u.matches :: m in t.matches)
    && (forall id | id in t.rides :: id in u.rides && RideGrows(t.rides[id], u.rides[id]))
    && (forall k | k in t.keys :: k in u.keys && u.keys[k] == t.keys[k])
  }

  lemma CommitGrows(t: Tables, w: Writes)
    requires Legal(t, w)
    ensures Grows(t, Overlay(t, w))
  {
  }

  lemma GrowsTransitively(t: Tables, u: Tables, v: Tables)
    requires Grows(t, u) && Grows(u, v)
    ensures Grows(t, v)
  {
  }

  lemma NextCommitsOneTx(s: System, event: Event)
    ensures || Next(s, event).db == s.db
            || (event.Advance? && event.tid in s.txs && Next(s, event).db == Overlay(s.db, s.txs[event.tid].w))
  {
  }

  lemma NextGrows(s: System, event: Event)
    requires SystemOk(s)
    ensures Grows(s.db, Next(s, event).db)
  {
    NextCommitsOneTx(s, event);
    if Next(s, event).db != s.db {
      assert TxOk(s.db, s.txs[event.tid]);
      CommitGrows(s.db, s.txs[event.tid].w);
    }
  }

  /** Reading a row, validating its rank and writing under the version read is
      binding: from any point of any interleaving on, no committed season, round or
      match moves to a lower rank, and no closed match reopens or loses its end. */
  lemma {:induction false} RanksNeverFall(s: System, events: seq<Event>)
    requires SystemOk(s)
    ensures Grows(s.db, Play(s, events).db)
    decreases |events|
  {
    if events != [] {
      var before := Play(s, events[..|events| - 1]);
      RanksNeverFall(s, events[..|events| - 1]);
      ScheduleIsOk(s, events[..|events| - 1]);
      NextGrows(before, events[|events| - 1]);
      GrowsTransitively(s.db, before.db, Play(s, events).db);
    }
  }
}
