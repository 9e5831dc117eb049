/** When the order of a season's rounds fails: exactly when a closed round gives a
    number up while a patch that is past its gates asks for it. */
module Overtaking {
  import opened Model
  import opened Gates
  import opened Statements
  import opened Commands
  import opened Interleaving
  import opened Safety
  import opened Stability
  import opened Sequence
  import opened Steps
  import opened RoundOrder

  // ---------- a freed number is taken ----------

  /** The patch as it stands at its commit. */
  function Landed(tx: Tx): Tx
    requires Asks(tx)
  {
    var id, written := tx.cmd.roundId, RoundRowAfter(tx.pc.row, tx.pc.edited);
    var slot := NumberSlot(tx.pc.row.seasonId, tx.pc.edited.number);
    tx.(pc := Ending(RoundReply(written)), w := tx.w.(rounds := map[id := written]), locks := tx.locks + {slot})
  }

  /** The commit moved the closed round on, and the number asked for is free and behind. */
  lemma FreedNumberIsBehind(t: Tables, tx: Tx, u: Tx)
    requires InSequence(t.rounds) && TxOrder(t, tx) && TxOrder(t, u) && !tx.pc.RoundGated? && TakesAway(t, tx, u)
    requires Compatible(tx.locks, u.locks)
    ensures var rounds, id := Overlay(t, tx.w).rounds, u.cmd.roundId;
      && id in rounds && rounds[id] == u.pc.row && u.pc.edited.number < ROUNDS_PER_SEASON
      && !NumberTaken(rounds, id, u.pc.row.seasonId, u.pc.edited.number)
      && !Verdict(rounds, u.pc.row.seasonId, u.pc.edited.number)
  {
    var i, after := tx.cmd.roundId, Overlay(t, tx.w).rounds;
    assert after == t.rounds[i := after[i]] && tx.w.rounds == map[i := after[i]];
    GivenUpIsBehind(t.rounds, after, i, u.pc.row.seasonId, u.pc.edited.number);
    SlotIsHeldOnce(tx.locks, u.locks, RoundLock(i));
  }

  lemma MovesFreeNothing(s: System, tid: int, pick: int)
    requires tid in s.txs && !Plan(s.db, s.clock, s.txs[tid], pick).Commit?
    ensures !FreesAwaited(s, Advance(tid, pick))
  {
  }

  /** The rule asks nothing of a step but to free no awaited number, and maybe of who begins. */
  ghost predicate Lenient(rule: Rule) {
    forall s: System, event: Event | !event.Begin? && !FreesAwaited(s, event) :: rule(s, event)
  }

  lemma LenientAllowsCancels(rule: Rule)
    requires Lenient(rule)
    ensures AllowsCancels(rule)
  {
    forall s, a ensures rule(s, Cancel(a)) {
      assert !FreesAwaited(s, Cancel(a));
    }
  }

  /** Alone, with its number free, the patch goes on to its commit: the gates are not asked again. */
  lemma GatedPatchLands(s: System, u: System, a: int, rule: Rule)
    requires Lenient(rule) && Reaches(s, u, rule)
    requires Alone(u, a) && a in u.txs && Asks(u.txs[a]) && u.txs[a].w.rounds == map[]
    requires !NumberTaken(u.db.rounds, u.txs[a].cmd.roundId, u.txs[a].pc.row.seasonId, u.txs[a].pc.edited.number)
    requires u.txs[a].pc.edited.number < ROUNDS_PER_SEASON
    ensures Reaches(s, With(u, a, Landed(u.txs[a])), rule)
  {
    hide Reaches;
    var tx := u.txs[a];
    var row, edited := tx.pc.row, tx.pc.edited;
    var need := {NumberSlot(row.seasonId, edited.number)};
    var written := Landed(tx).(pc := RoundWritten(row, edited));
    AloneMayTake(u, a, need);
    AloneMayTake(u, a, {});
    assert With(u, a, tx) == u;
    assert PlanRoundIndex(u.db, tx) == Go(need, written) by {
      assert tx.w.rounds[tx.cmd.roundId := RoundRowAfter(row, edited)]
          == map[tx.cmd.roundId := RoundRowAfter(row, edited)];
    }
    MovesFreeNothing(With(u, a, tx), a, 0);
    Takes(s, u, rule, a, tx, 0, need, written);
    MovesFreeNothing(With(u, a, written), a, 0);
    Takes(s, u, rule, a, written, 0, {}, Landed(tx));
  }

  /** After a step that frees an awaited number the patch that asked for it can come to
      its commit, with everyone else gone. */
  lemma OvertakenPatchLands(s: System, event: Event, a: int, rule: Rule) returns (u: System)
    requires SystemOk(s) && SystemOrder(s) && Overtakes(s, event, a) && Lenient(rule)
    ensures Reaches(Next(s, event), With(u, a, Landed(s.txs[a])), rule)
    ensures u == Next(s, event).(txs := u.txs) && a in u.txs && u.txs[a] == s.txs[a] && Alone(u, a)
    ensures !Verdict(u.db.rounds, s.txs[a].pc.row.seasonId, s.txs[a].pc.edited.number)
    ensures s.txs[a].cmd.roundId in u.db.rounds && u.db.rounds[s.txs[a].cmd.roundId] == s.txs[a].pc.row
  {
    hide Plan, Reaches, TxOk, Lenient, Verdict, NumberTaken;
    var v, tx := Next(s, event), s.txs[event.tid];
    NextIsOk(s, event);
    CommitIsPlain(s, event);
    FreedNumberIsBehind(s.db, tx, s.txs[a]);
    DoneHoldsNothing(v);
    ReachesItself(v, rule);
    LenientAllowsCancels(rule);
    u := OthersGiveUp(v, v, rule, a, v.txs.Keys - {a});
    GatedPatchLands(v, u, a, rule);
  }

  // ---------- exactly when ----------

  /** Some continuation that frees nothing more commits a round out of order. */
  ghost predicate MayBreakOrder(s: System) {
    exists u, last :: Reaches(s, u, KeepsAwaited()) && !CommitsInOrder(u, last)
  }

  lemma LandedIsOutOfOrder(u: System, a: int, tx: Tx)
    requires Asks(tx) && a in u.txs && u.txs[a] == Landed(tx)
    requires tx.cmd.roundId in u.db.rounds && u.db.rounds[tx.cmd.roundId] == tx.pc.row
    requires !Verdict(u.db.rounds, tx.pc.row.seasonId, tx.pc.edited.number)
    ensures !CommitsInOrder(u, Advance(a, 0))
  {
    var id, written := tx.cmd.roundId, RoundRowAfter(tx.pc.row, tx.pc.edited);
    assert IsCommit(u, Advance(a, 0));
    assert id in u.txs[a].w.rounds && u.txs[a].w.rounds[id] == written;
    assert !WriteFits(u.db.rounds, id, written);
  }

  lemma FreedMayBreak(v: System, event: Event)
    requires SystemOk(v) && SystemOrder(v) && FreesAwaited(v, event)
    ensures MayBreakOrder(Next(v, event))
  {
    hide Next, SystemOk, SystemOrder, Plan, TakesAway, Reaches, Verdict, CommitsInOrder;
    var a :| Overtakes(v, event, a);
    var u := OvertakenPatchLands(v, event, a, KeepsAwaited());
    OvertakenAsks(v, event, a);
    LandedIsOutOfOrder(With(u, a, Landed(v.txs[a])), a, v.txs[a]);
  }

  lemma OvertakenAsks(v: System, event: Event, a: int)
    requires Overtakes(v, event, a)
    ensures Asks(v.txs[a])
  {
  }

  /** After a schedule that freed no awaited number, a step frees one if and only if some
      continuation that frees none commits a round the progress gate would refuse then. */
  lemma {:induction false} OrderExactly(s: System, events: seq<Event>, event: Event)
    requires Initial(s) && DbOk(s.db) && InSequence(s.db.rounds) && Follows(s, events, KeepsAwaited())
    ensures FreesAwaited(Play(s, events), event) <==> MayBreakOrder(Next(Play(s, events), event))
  {
    hide Next, SystemOk, SystemOrder, FreesAwaited, MayBreakOrder;
    ReachedInOrder(s, events);
    var v := Play(s, events);
    if FreesAwaited(v, event) {
      FreedMayBreak(v, event);
    } else {
      NextIsOk(v, event);
      NextKeepsOrder(v, event);
      InOrderStaysInOrder(Next(v, event));
    }
  }

  lemma InOrderStaysInOrder(s: System)
    requires SystemOk(s) && SystemOrder(s)
    ensures !MayBreakOrder(s)
  {
    forall u, last | Reaches(s, u, KeepsAwaited()) ensures CommitsInOrder(u, last) {
      var events :| Follows(s, events, KeepsAwaited()) && Play(s, events) == u;
      OrderIsKept(s, events);
      StepIsInOrder(u, last);
    }
  }

  /** If it was an opening that was overtaken, its commit leaves the season with an open
      round below the greatest closed one. */
  lemma OvertakenOpeningBreaksSequence(s: System, events: seq<Event>, event: Event, a: int)
    requires Initial(s) && DbOk(s.db) && InSequence(s.db.rounds) && Follows(s, events, KeepsAwaited())
    requires Overtakes(Play(s, events), event, a) && Play(s, events).txs[a].pc.RoundGated?
    requires IsOpening(Play(s, events).txs[a].pc.row, Play(s, events).txs[a].pc.edited)
    ensures exists more :: !InSequence(Play(s, events + more).db.rounds)
  {
    hide Next, SystemOk, SystemOrder, Plan, TakesAway, Follows, Verdict, IsCommit, InSequence;
    ReachedInOrder(s, events);
    var v := Play(s, events);
    var tx := v.txs[a];
    OvertakenAsks(v, event, a);
    var u := OvertakenPatchLands(v, event, a, KeepsAwaited());
    var more :| Play(Next(v, event), more) == With(u, a, Landed(tx));
    LandedOpensBehind(With(u, a, Landed(tx)), a, tx);
    PlayTwoMore(v, event, more, Advance(a, 0));
    PlayAppends(s, events, [event] + more + [Advance(a, 0)]);
  }

  lemma PlayTwoMore(v: System, first: Event, more: seq<Event>, last: Event)
    ensures Play(v, [first] + more + [last]) == Next(Play(Next(v, first), more), last)
  {
    assert ([first] + more + [last])[..1 + |more|] == [first] + more;
    PlayAppends(v, [first], more);
    assert [first][..0] == [];
    assert Play(v, [first]) == Next(v, first);
  }

  lemma LandedOpensBehind(u: System, a: int, tx: Tx)
    requires Asks(tx) && IsOpening(tx.pc.row, tx.pc.edited) && a in u.txs && u.txs[a] == Landed(tx)
    requires tx.cmd.roundId in u.db.rounds && u.db.rounds[tx.cmd.roundId] == tx.pc.row
    requires !Verdict(u.db.rounds, tx.pc.row.seasonId, tx.pc.edited.number)
    ensures !InSequence(Next(u, Advance(a, 0)).db.rounds)
  {
    var id, written := tx.cmd.roundId, RoundRowAfter(tx.pc.row, tx.pc.edited);
    LandedCommits(u, a, tx);
    OpenedBehind(u.db.rounds, id, written);
  }

  lemma LandedCommits(u: System, a: int, tx: Tx)
    requires Asks(tx) && a in u.txs && u.txs[a] == Landed(tx)
    ensures Next(u, Advance(a, 0)).db.rounds
         == u.db.rounds[tx.cmd.roundId := RoundRowAfter(tx.pc.row, tx.pc.edited)]
  {
  }

  lemma OpenedBehind(rounds: map<int, Round>, id: int, written: Round)
    requires id in rounds && rounds[id].status == RoundCreated && written.status == RoundOpen
    requires !HighestClosedIs(rounds, written.seasonId, written.number - 1)
    ensures !InSequence(rounds[id := written])
  {
    var after := rounds[id := written];
    forall r ensures ClosedIn(rounds, written.seasonId, r) <==> ClosedIn(after, written.seasonId, r) {
    }
    assert HighestClosedIs(after, written.seasonId, written.number - 1) ==>
        HighestClosedIs(rounds, written.seasonId, written.number - 1);
    assert after[id].status == RoundOpen;
  }

  // ---------- it happens ----------

  function Patching(cmd: Command, now: int, pc: Pc, rounds: map<int, Round>, locks: set<Lock>): Tx {
    Tx(cmd, now, pc, NOTHING.(rounds := rounds), locks)
  }

  /** A patch that reads this row and has no rides to resolve. */
  ghost predicate PreparedPatch(t: Tables, cmd: Command, edited: Round) {
    && cmd.PatchRound? && 1 <= cmd.roundId && cmd.roundId in t.rounds
    && PrepareRound(cmd, t.rounds[cmd.roundId]) == Ok(edited) && !IsClosing(t.rounds[cmd.roundId], edited)
  }

  /** A plain patch: no season to flip either. */
  ghost predicate PlainPatch(t: Tables, cmd: Command, edited: Round) {
    && PreparedPatch(t, cmd, edited)
    && !(IsOpening(t.rounds[cmd.roundId], edited) && SeasonAt(t, edited.seasonId, SeasonOpen))
  }

  /** A step that needs no lock. */
  lemma MovesOn(s: System, u: System, rule: Rule, a: int, tx: Tx, next: Tx)
    requires Lenient(rule) && Reaches(s, With(u, a, tx), rule) && Plan(u.db, u.clock, tx, 0) == Go({}, next)
    ensures Reaches(s, With(u, a, next), rule)
  {
    MovesFreeNothing(With(u, a, tx), a, 0);
    Takes(s, u, rule, a, tx, 0, {}, next);
  }

  lemma PlainPatchReads(t: Tables, clock: int, cmd: Command, edited: Round)
    requires PlainPatch(t, cmd, edited)
    ensures var row := t.rounds[cmd.roundId];
      && Plan(t, clock, Patching(cmd, clock, Start, map[], {}), 0)
           == Go({}, Patching(cmd, clock, RoundRead(row, edited), map[], {}))
      && Plan(t, clock, Patching(cmd, clock, RoundRead(row, edited), map[], {}), 0)
           == Go({}, Patching(cmd, clock, RoundBegun(row, edited), map[], {}))
      && Plan(t, clock, Patching(cmd, clock, RoundBegun(row, edited), map[], {}), 0)
           == Go({}, Patching(cmd, clock, RoundReady(row, edited), map[], {}))
  {
  }

  lemma PatchIsGated(t: Tables, clock: int, cmd: Command, edited: Round)
    requires PreparedPatch(t, cmd, edited)
    requires var id, row := cmd.roundId, t.rounds[cmd.roundId];
      RoundGateError(t, clock, id, row, RoundRowAfter(row, edited)).None?
    ensures var id, row := cmd.roundId, t.rounds[cmd.roundId];
      var locks := {RoundLock(id), NumberSlot(row.seasonId, row.number)};
      Plan(t, clock, Patching(cmd, clock, RoundReady(row, edited), map[], {}), 0)
          == Go(locks, Patching(cmd, clock, RoundGated(row, edited), map[], locks))
  {
    hide RoundGateError;
    assert Overlay(t, NOTHING) == t;
  }

  /** From its beginning to its gates. */
  lemma PatchIsReady(s: System, u: System, rule: Rule, a: int, cmd: Command, edited: Round)
    requires Lenient(rule) && Reaches(s, u, rule) && rule(u, Begin(a, cmd)) && a !in u.txs
        && PlainPatch(u.db, cmd, edited)
    ensures Reaches(s, With(u, a, Patching(cmd, u.clock, RoundReady(u.db.rounds[cmd.roundId], edited), map[], {})),
        rule)
  {
    hide Reaches, PrepareRound, MayTake, Plan;
    var row, now := u.db.rounds[cmd.roundId], u.clock;
    ReachesNext(s, u, Begin(a, cmd), rule);
    PlainPatchReads(u.db, now, cmd, edited);
    MovesOn(s, u, rule, a, Patching(cmd, now, Start, map[], {}), Patching(cmd, now, RoundRead(row, edited), map[], {}));
    MovesOn(s, u, rule, a, Patching(cmd, now, RoundRead(row, edited), map[], {}),
        Patching(cmd, now, RoundBegun(row, edited), map[], {}));
    MovesOn(s, u, rule, a, Patching(cmd, now, RoundBegun(row, edited), map[], {}),
        Patching(cmd, now, RoundReady(row, edited), map[], {}));
  }

  /** Through its gates. */
  lemma ReadyPassesGates(s: System, u: System, rule: Rule, a: int, cmd: Command, edited: Round)
    requires Lenient(rule) && PreparedPatch(u.db, cmd, edited)
    requires Reaches(s, With(u, a, Patching(cmd, u.clock, RoundReady(u.db.rounds[cmd.roundId], edited), map[], {})),
        rule)
    requires var id, row := cmd.roundId, u.db.rounds[cmd.roundId];
      && RoundGateError(u.db, u.clock, id, row, RoundRowAfter(row, edited)).None?
      && MayTake(u, a, {RoundLock(id), NumberSlot(row.seasonId, row.number)})
    ensures var id, row := cmd.roundId, u.db.rounds[cmd.roundId];
      var locks := {RoundLock(id), NumberSlot(row.seasonId, row.number)};
      Reaches(s, With(u, a, Patching(cmd, u.clock, RoundGated(row, edited), map[], locks)), rule)
  {
    hide Reaches, PrepareRound, RoundGateError, MayTake, Plan;
    var id, row, now := cmd.roundId, u.db.rounds[cmd.roundId], u.clock;
    var locks := {RoundLock(id), NumberSlot(row.seasonId, row.number)};
    PatchIsGated(u.db, now, cmd, edited);
    var ready := Patching(cmd, now, RoundReady(row, edited), map[], {});
    MovesFreeNothing(With(u, a, ready), a, 0);
    Takes(s, u, rule, a, ready, 0, locks, Patching(cmd, now, RoundGated(row, edited), map[], locks));
  }

  /** From its beginning to where it has passed its gates. */
  lemma PatchPassesGates(s: System, u: System, rule: Rule, a: int, cmd: Command, edited: Round)
    requires Lenient(rule) && Reaches(s, u, rule) && rule(u, Begin(a, cmd)) && a !in u.txs
        && PlainPatch(u.db, cmd, edited)
    requires var id, row := cmd.roundId, u.db.rounds[cmd.roundId];
      && RoundGateError(u.db, u.clock, id, row, RoundRowAfter(row, edited)).None?
      && MayTake(u, a, {RoundLock(id), NumberSlot(row.seasonId, row.number)})
    ensures var id, row := cmd.roundId, u.db.rounds[cmd.roundId];
      var locks := {RoundLock(id), NumberSlot(row.seasonId, row.number)};
      Reaches(s, With(u, a, Patching(cmd, u.clock, RoundGated(row, edited), map[], locks)), rule)
  {
    hide Reaches, PrepareRound, RoundGateError, MayTake;
    PatchIsReady(s, u, rule, a, cmd, edited);
    ReadyPassesGates(s, u, rule, a, cmd, edited);
  }

  /** From there to its commit. */
  lemma PatchEntersIndex(s: System, u: System, rule: Rule, a: int, cmd: Command, edited: Round, now: int,
      locks: set<Lock>)
    requires Lenient(rule) && PreparedPatch(u.db, cmd, edited)
    requires Reaches(s, With(u, a, Patching(cmd, now, RoundGated(u.db.rounds[cmd.roundId], edited), map[], locks)),
                     rule)
    requires !NumberTaken(u.db.rounds, cmd.roundId, edited.seasonId, edited.number)
    requires MayTake(u, a, {NumberSlot(edited.seasonId, edited.number)})
    ensures var written := RoundRowAfter(u.db.rounds[cmd.roundId], edited);
      Reaches(s, With(u, a, Patching(cmd, now, Ending(RoundReply(written)), map[cmd.roundId := written],
                                     locks + {NumberSlot(edited.seasonId, edited.number)})), rule)
  {
    hide Reaches, MayTake;
    var id, row := cmd.roundId, u.db.rounds[cmd.roundId];
    var need, written := {NumberSlot(edited.seasonId, edited.number)}, RoundRowAfter(row, edited);
    var gated := Patching(cmd, now, RoundGated(row, edited), map[], locks);
    MovesFreeNothing(With(u, a, gated), a, 0);
    assert gated.w.rounds[id := written] == map[id := written];
    var next := Patching(cmd, now, RoundWritten(row, edited), map[id := written], locks + need);
    Takes(s, u, rule, a, gated, 0, need, next);
    MovesOn(s, u, rule, a, next, next.(pc := Ending(RoundReply(written))));
  }

  const FIRST: Round := Round(7, 1, RoundCreated, 1)
  const FIFTH: Round := Round(7, 5, RoundCreated, 1)

  const OPEN_AS_FIRST: Command := PatchRound(2, 7, None, Some(1), Some(RoundOpen))
  const CLOSE_FIRST: Command := PatchRound(1, 7, None, None, Some(RoundClosed))
  const RENUMBER_FIRST: Command := PatchRound(1, 7, None, Some(2), None)

  predicate TwoRounds(t: Tables, first: Round) {
    && t.rounds == map[1 := first, 2 := FIFTH] && t.matches == map[] && t.rides == map[]
    && SeasonAt(t, 7, SeasonInProgress)
  }

  function AsFirst(): Round {
    FIFTH.(number := 1, status := RoundOpen)
  }

  /** Round 5 is being opened as number 1 and has passed its gates. */
  function Waiting(now: int): Tx {
    Patching(OPEN_AS_FIRST, now, RoundGated(FIFTH, AsFirst()), map[], {RoundLock(2), NumberSlot(7, 5)})
  }

  lemma OpeningWaits(s: System)
    requires Initial(s) && TwoRounds(s.db, FIRST)
    ensures Reaches(s, With(s, 1, Waiting(s.clock)), KeepsAwaited())
  {
    hide Reaches;
    ReachesItself(s, KeepsAwaited());
    PatchPassesGates(s, s, KeepsAwaited(), 1, OPEN_AS_FIRST, AsFirst());
  }

  function FirstClosed(): Round {
    RoundRowAfter(FIRST, FIRST.(status := RoundClosed))
  }

  function Closing(now: int): Tx {
    var locks := {RoundLock(1), NumberSlot(7, 1)};
    Patching(CLOSE_FIRST, now, Ending(RoundReply(FirstClosed())), map[1 := FirstClosed()], locks)
  }

  /** Meanwhile round 1 is closed: it runs to its commit, */
  lemma ClosingRuns(s: System)
    requires Initial(s) && TwoRounds(s.db, FIRST)
    ensures Reaches(s, With(With(s, 1, Waiting(s.clock)), 2, Closing(s.clock)), KeepsAwaited())
  {
    hide Reaches, Plan;
    OpeningWaits(s);
    var v, closed := With(s, 1, Waiting(s.clock)), FIRST.(status := RoundClosed);
    PatchPassesGates(s, v, KeepsAwaited(), 2, CLOSE_FIRST, closed);
    var locks := {RoundLock(1), NumberSlot(7, 1)};
    PatchEntersIndex(s, v, KeepsAwaited(), 2, CLOSE_FIRST, closed, s.clock, locks);
    assert locks + {NumberSlot(7, 1)} == locks;
  }

  /** and its commit gives no number up. */
  lemma FirstIsClosed(s: System) returns (w: System)
    requires Initial(s) && TwoRounds(s.db, FIRST)
    ensures Reaches(s, w, KeepsAwaited()) && TwoRounds(w.db, FirstClosed())
    ensures w.clock == s.clock && 1 in w.txs && w.txs[1] == Waiting(s.clock) && 3 !in w.txs
    ensures forall a | a in w.txs && a != 1 :: w.txs[a].locks == {}
  {
    hide Reaches;
    var v, now, closing := With(s, 1, Waiting(s.clock)), s.clock, Closing(s.clock);
    ClosingRuns(s);
    ClosingGivesNothingUp(s.db);
    assert !FreesAwaited(With(v, 2, closing), Advance(2, 0));
    Commits(s, v, KeepsAwaited(), 2, closing, Ok(RoundReply(FirstClosed())));
    w := Committed(v, 2, closing, Ok(RoundReply(FirstClosed())));
  }

  lemma ClosingGivesNothingUp(t: Tables)
    requires TwoRounds(t, FIRST)
    ensures forall n :: !GivesUp(t.rounds, map[1 := FirstClosed()], 7, n)
  {
  }

  function SecondClosed(): Round {
    RoundRowAfter(FirstClosed(), FirstClosed().(number := 2))
  }

  function Renumbering(now: int): Tx {
    var locks := {RoundLock(1), NumberSlot(7, 1), NumberSlot(7, 2)};
    Patching(RENUMBER_FIRST, now, Ending(RoundReply(SecondClosed())), map[1 := SecondClosed()], locks)
  }

  /** Then it is renumbered 2, which frees the number the opening waits for. */
  lemma OvertakingHappens(s: System) returns (u: System)
    requires Initial(s) && TwoRounds(s.db, FIRST)
    ensures Reaches(s, u, KeepsAwaited()) && Overtakes(u, Advance(3, 0), 1)
    ensures IsOpening(u.txs[1].pc.row, u.txs[1].pc.edited)
  {
    hide Reaches, Plan;
    var w := FirstIsClosed(s);
    var locks, second := {RoundLock(1), NumberSlot(7, 1)}, FirstClosed().(number := 2);
    assert ClosedIn(w.db.rounds, 7, 1);
    PatchPassesGates(s, w, KeepsAwaited(), 3, RENUMBER_FIRST, second);
    PatchEntersIndex(s, w, KeepsAwaited(), 3, RENUMBER_FIRST, second, w.clock, locks);
    assert locks + {NumberSlot(7, 2)} == Renumbering(w.clock).locks;
    u := With(w, 3, Renumbering(w.clock));
    RenumberingGivesUp(u, w.clock);
  }

  lemma RenumberingGivesUp(u: System, now: int)
    requires TwoRounds(u.db, FirstClosed())
    requires 1 in u.txs && u.txs[1] == Waiting(now) && 3 in u.txs && u.txs[3] == Renumbering(now)
    ensures Overtakes(u, Advance(3, 0), 1)
  {
    assert ClosedIn(u.db.rounds, 7, 1);
  }

  /** So one schedule of three patches leaves round 5 open as number 1 below the closed number 2. */
  lemma SequenceCanBreak(s: System)
    requires Initial(s) && TwoRounds(s.db, FIRST)
    ensures DbOk(s.db) && InSequence(s.db.rounds)
    ensures exists events :: !InSequence(Play(s, events).db.rounds)
  {
    TwoRoundsAreFine(s.db);
    hide Overtakes, DbOk, InSequence;
    var u := OvertakingHappens(s);
    var events :| Follows(s, events, KeepsAwaited()) && Play(s, events) == u;
    OvertakenOpeningBreaksSequence(s, events, Advance(3, 0), 1);
    var more :| !InSequence(Play(s, events + more).db.rounds);
  }

  lemma TwoRoundsAreFine(t: Tables)
    requires TwoRounds(t, FIRST)
    ensures DbOk(t) && InSequence(t.rounds)
  {
  }
}
