/** The order of a season's rounds in every interleaving: the index entries of the
    round numbers keep apart the writes that the progress gate cannot see. A verdict of
    the gate may be old when its round enters the index; it is as good as new unless a
    closed round gave the number up in between. */
module RoundOrder {
  import opened Model
  import opened Lifecycle
  import opened Gates
  import opened Statements
  import opened Commands
  import opened Interleaving
  import opened Steps
  import opened Safety
  import opened Stability
  import opened Sequence

  /** A round written and not committed: it still fits the committed rounds, and the
      row and both its numbers are locked. */
  predicate HeldRound(rounds: map<int, Round>, locks: set<Lock>, id: int, written: Round) {
    && WriteFits(rounds, id, written)
    && RoundLock(id) in locks
    && NumberSlot(written.seasonId, rounds[id].number) in locks
    && NumberSlot(written.seasonId, written.number) in locks
  }

  predicate HeldProgress(rounds: map<int, Round>, id: int, written: Round) {
    id in rounds && IsProgress(rounds[id], written)
  }

  /** Two held progress writes cannot be of one season: both would take the one next number. */
  lemma OneProgressPerSeason(rounds: map<int, Round>, a: set<Lock>, b: set<Lock>, i: int, j: int, x: Round, y: Round)
    requires HeldRound(rounds, a, i, x) && HeldRound(rounds, b, j, y) && Compatible(a, b)
    requires HeldProgress(rounds, i, x) && HeldProgress(rounds, j, y)
    ensures x.seasonId != y.seasonId
  {
    if x.seasonId == y.seasonId {
      HighestIsUnique(rounds, x.seasonId, x.number - 1, y.number - 1);
      SlotIsHeldOnce(a, b, NumberSlot(x.seasonId, x.number));
    }
  }

  lemma SlotIsHeldOnce(a: set<Lock>, b: set<Lock>, lock: Lock)
    requires Compatible(a, b) && !lock.RoundShare?
    ensures !(lock in a && lock in b)
  {
    assert Conflict(lock, lock);
  }

  /** Held writes of two rounds: neither takes the other's number. */
  lemma NumberStaysFree(rounds: map<int, Round>, a: set<Lock>, b: set<Lock>, i: int, j: int, x: Round, y: Round)
    requires HeldRound(rounds, a, i, x) && HeldRound(rounds, b, j, y) && Compatible(a, b)
    ensures i != j && !NumberTaken(rounds[i := x], j, y.seasonId, y.number)
  {
    SlotIsHeldOnce(a, b, RoundLock(i));
    SlotIsHeldOnce(a, b, NumberSlot(y.seasonId, y.number));
  }

  /** A held write that is no progress leaves the closed numbers alone; one of another season too. */
  lemma ClosedNumbersStay(rounds: map<int, Round>, i: int, x: Round, s: int, n: int)
    requires WriteFits(rounds, i, x) && (x.seasonId != s || !HeldProgress(rounds, i, x))
    ensures HighestClosedIs(rounds, s, n) == HighestClosedIs(rounds[i := x], s, n)
  {
    forall r ensures ClosedIn(rounds, s, r) <==> ClosedIn(rounds[i := x], s, r) {
    }
    forall r | ClosedIn(rounds, s, r) ensures rounds[i := x][r].number == rounds[r].number {
    }
  }

  /** What another transaction holds still fits after a commit. */
  lemma HeldStays(rounds: map<int, Round>, a: set<Lock>, b: set<Lock>, i: int, j: int, x: Round, y: Round)
    requires HeldRound(rounds, a, i, x) && HeldRound(rounds, b, j, y) && Compatible(a, b)
    ensures HeldRound(rounds[i := x], b, j, y)
  {
    NumberStaysFree(rounds, a, b, i, j, x, y);
    if HeldProgress(rounds, j, y) {
      if HeldProgress(rounds, i, x) {
        OneProgressPerSeason(rounds, a, b, i, j, x, y);
      }
      ClosedNumbersStay(rounds, i, x, y.seasonId, y.number - 1);
    }
  }

  // ---------- between the gates and the index ----------

  /** What the progress gate saw, as time passes: the number follows the greatest closed
      one, or by now some round is closed under it. */
  predicate Verdict(rounds: map<int, Round>, seasonId: int, n: int) {
    HighestClosedIs(rounds, seasonId, n - 1) || NumberClosed(rounds, seasonId, n)
  }

  predicate GatedRound(rounds: map<int, Round>, locks: set<Lock>, id: int, row: Round, written: Round) {
    && id in rounds && rounds[id] == row && written.seasonId == row.seasonId
    && RoundRank(row.status) <= RoundRank(written.status) && RoundRowOk(written)
    && RoundLock(id) in locks && NumberSlot(row.seasonId, row.number) in locks
    && (IsProgress(row, written) ==> Verdict(rounds, written.seasonId, written.number))
  }

  /** Where the number is free the verdict is as good as new. */
  lemma VerdictIsFresh(rounds: map<int, Round>, locks: set<Lock>, id: int, row: Round, written: Round)
    requires GatedRound(rounds, locks, id, row, written)
    requires !NumberTaken(rounds, id, written.seasonId, written.number)
    ensures WriteFits(rounds, id, written)
  {
  }

  /** The write gives a round closed under the number another one. */
  predicate GivesUp(rounds: map<int, Round>, written: map<int, Round>, seasonId: int, n: int) {
    exists i | i in written :: ClosedIn(rounds, seasonId, i) && rounds[i].number == n && written[i].number != n
  }

  /** An old verdict survives every write that fits, unless a closed round gives the number up. */
  lemma VerdictStays(rounds: map<int, Round>, i: int, x: Round, s: int, n: int)
    requires WriteFits(rounds, i, x) && Verdict(rounds, s, n) && !GivesUp(rounds, map[i := x], s, n)
    ensures Verdict(rounds[i := x], s, n)
  {
    if NumberClosed(rounds, s, n) {
      OthersStayClosed(rounds, i, x, s, n);
    } else if x.seasonId != s || !HeldProgress(rounds, i, x) {
      ClosedNumbersStay(rounds, i, x, s, n - 1);
    } else {
      HighestIsUnique(rounds, s, n - 1, x.number - 1);
      if x.status == RoundClosed {
        assert ClosedIn(rounds[i := x], s, i);
      } else {
        OpenLeavesHighest(rounds, i, x, s, n - 1);
      }
    }
  }

  /** A number given up is free, and below the greatest closed one from then on. */
  lemma GivenUpIsBehind(rounds: map<int, Round>, after: map<int, Round>, i: int, s: int, n: int)
    requires i in after && after == rounds[i := after[i]]
    requires NumbersUnique(rounds) && WriteFits(rounds, i, after[i]) && GivesUp(rounds, map[i := after[i]], s, n)
    ensures n < after[i].number && HighestClosedIs(after, s, after[i].number) && !Verdict(after, s, n)
    ensures forall r | r in after :: after[r].seasonId == s ==> after[r].number != n
  {
    assert ClosedIn(rounds, s, i) && ClosedIn(after, s, i) && HeldProgress(rounds, i, after[i]);
    assert !NumberClosed(after, s, n);
    HighestIsUnique(after, s, after[i].number, after[i].number);
  }

  lemma OthersStayClosed(rounds: map<int, Round>, i: int, x: Round, s: int, n: int)
    requires WriteFits(rounds, i, x) && NumberClosed(rounds, s, n) && !GivesUp(rounds, map[i := x], s, n)
    ensures NumberClosed(rounds[i := x], s, n)
  {
    var q :| q in rounds && ClosedIn(rounds, s, q) && rounds[q].number == n;
    assert ClosedIn(rounds[i := x], s, q);
  }

  lemma OpenLeavesHighest(rounds: map<int, Round>, i: int, x: Round, s: int, n: int)
    requires WriteFits(rounds, i, x) && x.status == RoundOpen && HighestClosedIs(rounds, s, n)
    ensures HighestClosedIs(rounds[i := x], s, n)
  {
    forall r ensures ClosedIn(rounds, s, r) <==> ClosedIn(rounds[i := x], s, r) {
    }
    forall r | ClosedIn(rounds, s, r) ensures rounds[i := x][r].number == rounds[r].number {
    }
  }

  lemma GatedStays(rounds: map<int, Round>, a: set<Lock>, b: set<Lock>, i: int, x: Round, j: int, row: Round,
      written: Round)
    requires HeldRound(rounds, a, i, x) && GatedRound(rounds, b, j, row, written) && Compatible(a, b)
    requires IsProgress(row, written) ==> !GivesUp(rounds, map[i := x], written.seasonId, written.number)
    ensures GatedRound(rounds[i := x], b, j, row, written)
  {
    SlotIsHeldOnce(a, b, RoundLock(i));
    if IsProgress(row, written) {
      VerdictStays(rounds, i, x, written.seasonId, written.number);
    }
  }

  // ---------- every schedule ----------

  /** Past its gates with a progress write: it asks for its number. */
  predicate Asks(tx: Tx) {
    tx.cmd.PatchRound? && tx.pc.RoundGated? && IsProgress(tx.pc.row, RoundRowAfter(tx.pc.row, tx.pc.edited))
  }

  /** The commit of tx gives up the number u asks for. */
  predicate TakesAway(t: Tables, tx: Tx, u: Tx) {
    Asks(u) && GivesUp(t.rounds, tx.w.rounds, u.pc.row.seasonId, u.pc.edited.number)
  }

  ghost predicate IsCommit(s: System, event: Event) {
    event.Advance? && event.tid in s.txs && Plan(s.db, s.clock, s.txs[event.tid], event.pick).Commit?
  }

  lemma CommitIsPlain(s: System, event: Event)
    requires IsCommit(s, event)
    ensures !s.txs[event.tid].pc.RoundGated?
    ensures Next(s, event).db == Overlay(s.db, s.txs[event.tid].w)
    ensures forall a | a in s.txs && a != event.tid :: a in Next(s, event).txs && Next(s, event).txs[a] == s.txs[a]
  {
  }

  /** The step commits another number for a closed round while a, past its gates, asks
      for the old one. */
  ghost predicate Overtakes(s: System, event: Event, a: int) {
    IsCommit(s, event) && a in s.txs && a != event.tid && TakesAway(s.db, s.txs[event.tid], s.txs[a])
  }

  ghost predicate FreesAwaited(s: System, event: Event) {
    exists a :: Overtakes(s, event, a)
  }

  ghost function KeepsAwaited(): Rule {
    (s: System, event: Event) => !FreesAwaited(s, event)
  }

  /** A round, if the step commits one, is one the progress gate would let pass at this moment. */
  ghost predicate CommitsInOrder(s: System, event: Event) {
    IsCommit(s, event) ==>
      forall id | id in s.txs[event.tid].w.rounds :: WriteFits(s.db.rounds, id, s.txs[event.tid].w.rounds[id])
  }

  /** The one round a transaction wrote, if it wrote one, or is about to write. */
  predicate TxOrder(t: Tables, tx: Tx) {
    if tx.pc.RoundGated? then
      && tx.cmd.PatchRound? && tx.w.rounds == map[]
      && GatedRound(t.rounds, tx.locks, tx.cmd.roundId, tx.pc.row, RoundRowAfter(tx.pc.row, tx.pc.edited))
    else
      || tx.w.rounds == map[]
      || (tx.cmd.PatchRound? && tx.cmd.roundId in tx.w.rounds
          && tx.w.rounds == map[tx.cmd.roundId := tx.w.rounds[tx.cmd.roundId]]
          && HeldRound(t.rounds, tx.locks, tx.cmd.roundId, tx.w.rounds[tx.cmd.roundId]))
  }

  ghost predicate SystemOrder(s: System) {
    InSequence(s.db.rounds) && forall a | a in s.txs :: TxOrder(s.db, s.txs[a])
  }

  ghost predicate WritesNoRound(tx: Tx, next: Tx) {
    next.cmd == tx.cmd && !next.pc.RoundGated?
    && (next.w.rounds == map[] || (next.w.rounds == tx.w.rounds && tx.locks <= next.locks))
  }

  predicate AtRound(tx: Tx) {
    tx.pc.RoundReady? || tx.pc.RoundGated?
  }

  /** All steps but the round's own two write no round; a refusal drops what was written. */
  lemma OtherMovesWriteNoRound(t: Tables, clock: int, tx: Tx, pick: int)
    requires !AtRound(tx) && Plan(t, clock, tx, pick).Go?
    ensures WritesNoRound(tx, Plan(t, clock, tx, pick).tx)
  {
    if tx.pc.Start? {
    } else if IsRideCommand(tx.cmd) {
      RideMovesWriteNoRound(t, clock, tx, pick);
    } else {
      AdminMovesWriteNoRound(t, clock, tx, pick);
    }
  }

  lemma RideMovesWriteNoRound(t: Tables, clock: int, tx: Tx, pick: int)
    requires PlanRide(t, clock, tx, pick).Go?
    ensures WritesNoRound(tx, PlanRide(t, clock, tx, pick).tx)
  {
    if tx.pc.Updating? && tx.cmd.DecideRide? {
      UpdateWritesNoRound(t, tx);
    } else if tx.pc.Inserting? {
      InsertWritesNoRound(t, tx, pick);
    }
  }

  lemma UpdateWritesNoRound(t: Tables, tx: Tx)
    requires tx.pc.Updating? && tx.cmd.DecideRide? && PlanUpdateRow(t, tx).Go?
    ensures WritesNoRound(tx, PlanUpdateRow(t, tx).tx)
  {
  }

  lemma InsertWritesNoRound(t: Tables, tx: Tx, pick: int)
    requires tx.pc.Inserting? && PlanInsertRow(t, tx, pick).Go?
    ensures WritesNoRound(tx, PlanInsertRow(t, tx, pick).tx)
  {
  }

  lemma AdminMovesWriteNoRound(t: Tables, clock: int, tx: Tx, pick: int)
    requires !AtRound(tx) && PlanAdmin(t, clock, tx, pick).Go?
    ensures WritesNoRound(tx, PlanAdmin(t, clock, tx, pick).tx)
  {
    if tx.cmd.ResolveMatch? {
      ResolveWritesNoRound(t, clock, tx, pick);
    } else if tx.cmd.PatchRound? {
      RoundStepsWriteNoRound(t, clock, tx, pick);
    }
  }

  lemma ResolveWritesNoRound(t: Tables, clock: int, tx: Tx, pick: int)
    requires tx.cmd.ResolveMatch? && PlanAdmin(t, clock, tx, pick).Go?
    ensures WritesNoRound(tx, PlanAdmin(t, clock, tx, pick).tx)
  {
    hide PlanAutoRow, PlanDispatch, PlanRoundRow, PlanRoundIndex, PlanMatchRow, PlanSeasonRow;
    if tx.pc.AutoResolving? {
      AutoRowWritesNoRound(t, tx, pick);
    }
  }

  lemma AutoRowWritesNoRound(t: Tables, tx: Tx, pick: int)
    requires tx.pc.AutoResolving? && PlanAutoRow(t, tx, pick).Go?
    ensures WritesNoRound(tx, PlanAutoRow(t, tx, pick).tx)
  {
  }

  lemma RoundStepsWriteNoRound(t: Tables, clock: int, tx: Tx, pick: int)
    requires tx.cmd.PatchRound? && !AtRound(tx) && PlanAdmin(t, clock, tx, pick).Go?
    ensures WritesNoRound(tx, PlanAdmin(t, clock, tx, pick).tx)
  {
    hide PlanAutoRow, PlanRoundRow, PlanRoundIndex, PlanSettleRow, PlanResolveRow, PlanMatchRow, PlanSeasonRow;
    if tx.pc.AutoResolving? {
      AutoRowWritesNoRound(t, tx, pick);
    }
  }

  /** The gates' verdict, written down. */
  lemma RoundRowIsGated(t: Tables, tx: Tx)
    requires TxOk(t, tx) && tx.cmd.PatchRound? && tx.pc.RoundReady? && PlanRoundRow(t, tx).Go?
    ensures TxOrder(t, PlanRoundRow(t, tx).tx)
  {
    var id, edited := tx.cmd.roundId, tx.pc.edited;
    assert RoundPrepared(t, tx, tx.pc.row, edited) && tx.w.rounds == map[];
    if t.rounds[id].version == edited.version {
      assert t.rounds[id] == tx.pc.row;
      assert Overlay(t, tx.w).rounds == t.rounds;
    }
  }

  /** With its number's entry in hand the round written fits, and stays fitting. */
  lemma RoundIndexIsHeld(t: Tables, tx: Tx)
    requires TxOrder(t, tx) && tx.cmd.PatchRound? && tx.pc.RoundGated?
    ensures TxOrder(t, PlanRoundIndex(t, tx).tx)
  {
    var id, row, edited := tx.cmd.roundId, tx.pc.row, tx.pc.edited;
    var written := RoundRowAfter(row, edited);
    if !NumberTaken(t.rounds, id, row.seasonId, edited.number) {
      VerdictIsFresh(t.rounds, tx.locks, id, row, written);
      assert tx.w.rounds[id := written] == map[id := written];
    }
  }

  lemma MoveKeepsOrder(t: Tables, clock: int, tx: Tx, pick: int)
    requires TxOk(t, tx) && TxOrder(t, tx) && Plan(t, clock, tx, pick).Go?
    ensures TxOrder(t, Plan(t, clock, tx, pick).tx)
  {
    if tx.pc.RoundReady? {
      RoundRowIsGated(t, tx);
    } else if tx.pc.RoundGated? {
      RoundIndexIsHeld(t, tx);
    } else {
      OtherMovesWriteNoRound(t, clock, tx, pick);
    }
  }

  lemma OrderIsStable(t: Tables, tx: Tx, u: Tx)
    requires TxOrder(t, tx) && TxOrder(t, u) && Compatible(tx.locks, u.locks) && !TakesAway(t, tx, u)
    ensures TxOrder(Overlay(t, tx.w), u)
  {
    hide WriteFits, HeldRound, GatedRound, GivesUp;
    if tx.w.rounds == map[] {
      assert Overlay(t, tx.w).rounds == t.rounds;
    } else {
      var i := tx.cmd.roundId;
      assert Overlay(t, tx.w).rounds == t.rounds[i := tx.w.rounds[i]];
      if u.pc.RoundGated? {
        var row := u.pc.row;
        GatedStays(t.rounds, tx.locks, u.locks, i, tx.w.rounds[i], u.cmd.roundId, row, RoundRowAfter(row, u.pc.edited));
      } else if u.w.rounds != map[] {
        var j := u.cmd.roundId;
        HeldStays(t.rounds, tx.locks, u.locks, i, j, tx.w.rounds[i], u.w.rounds[j]);
      }
    }
  }

  lemma CommitKeepsOrder(t: Tables, tx: Tx)
    requires InSequence(t.rounds) && TxOrder(t, tx)
    ensures InSequence(Overlay(t, tx.w).rounds)
  {
    if tx.w.rounds == map[] {
      assert Overlay(t, tx.w).rounds == t.rounds;
    } else {
      var i := tx.cmd.roundId;
      WriteKeepsSequence(t.rounds, i, tx.w.rounds[i]);
      assert Overlay(t, tx.w).rounds == t.rounds[i := tx.w.rounds[i]];
    }
  }

  lemma AdvanceKeepsOrder(s: System, tid: int, pick: int)
    requires SystemOk(s) && SystemOrder(s) && tid in s.txs && !FreesAwaited(s, Advance(tid, pick))
    ensures SystemOrder(AdvanceTx(s, tid, pick))
  {
    hide TxOk, TxOrder, TakesAway;
    var tx := s.txs[tid];
    match Plan(s.db, s.clock, tx, pick)
    case Stuck =>
    case Go(_, _) => MoveKeepsOrder(s.db, s.clock, tx, pick);
    case Commit(answer) =>
      CommitKeepsOrder(s.db, tx);
      FinishedIsInOrder(Overlay(s.db, tx.w), tx, answer);
      forall u | u in s.txs && u != tid ensures TxOrder(Overlay(s.db, tx.w), s.txs[u]) {
        assert !Overtakes(s, Advance(tid, pick), u);
        OrderIsStable(s.db, tx, s.txs[u]);
      }
  }

  lemma FinishedIsInOrder(t: Tables, tx: Tx, answer: Result<Reply>)
    ensures TxOrder(t, Finished(tx, answer))
  {
  }

  lemma NextKeepsOrder(s: System, event: Event)
    requires SystemOk(s) && SystemOrder(s) && !FreesAwaited(s, event)
    ensures SystemOrder(Next(s, event))
  {
    if event.Advance? && event.tid in s.txs {
      AdvanceKeepsOrder(s, event.tid, event.pick);
    }
  }

  /** From any system in order, a schedule that frees no awaited number stays in order. */
  lemma {:induction false} OrderIsKept(s: System, events: seq<Event>)
    requires SystemOk(s) && SystemOrder(s) && Follows(s, events, KeepsAwaited())
    ensures SystemOk(Play(s, events)) && SystemOrder(Play(s, events))
    decreases |events|
  {
    hide Next, SystemOk, SystemOrder, FreesAwaited;
    ScheduleIsOk(s, events);
    if events != [] {
      var last := |events| - 1;
      FollowsBefore(s, events, KeepsAwaited());
      OrderIsKept(s, events[..last]);
      NextKeepsOrder(Play(s, events[..last]), events[last]);
    }
  }

  lemma ReachedInOrder(s: System, events: seq<Event>)
    requires Initial(s) && DbOk(s.db) && InSequence(s.db.rounds) && Follows(s, events, KeepsAwaited())
    ensures SystemOk(Play(s, events)) && SystemOrder(Play(s, events))
  {
    OrderIsKept(s, events);
  }

  lemma StepIsInOrder(s: System, event: Event)
    requires SystemOrder(s)
    ensures CommitsInOrder(s, event)
  {
  }

  /** In every interleaving of all commands that frees no awaited number each season stays
      in sequence, at most one round open, its number one above the greatest closed one;
      and every round is committed as the progress gate would let it pass then. */
  lemma {:induction false} SchedulesKeepSequence(s: System, events: seq<Event>, event: Event)
    requires Initial(s) && DbOk(s.db) && InSequence(s.db.rounds) && Follows(s, events, KeepsAwaited())
    ensures InSequence(Play(s, events).db.rounds) && CommitsInOrder(Play(s, events), event)
  {
    ReachedInOrder(s, events);
    StepIsInOrder(Play(s, events), event);
  }

  /** A step that renumbers no closed round frees no awaited number. */
  ghost predicate RenumbersClosedRound(s: System, event: Event) {
    IsCommit(s, event) && exists id | id in s.txs[event.tid].w.rounds ::
      id in s.db.rounds && s.db.rounds[id].status == RoundClosed
      && s.txs[event.tid].w.rounds[id].number != s.db.rounds[id].number
  }

  lemma OnlyRenumberingFrees(s: System, event: Event)
    requires FreesAwaited(s, event)
    ensures RenumbersClosedRound(s, event)
  {
    var a :| Overtakes(s, event, a);
  }
}
