/** Every interleaving of ride commands, round updates and harmless edits ends where the
    committed commands end when each runs alone, in commit order. */
module Serializability {
  import opened Model
  import opened Gates
  import opened Statements
  import opened Commands
  import opened Interleaving
  import opened Safety
  import opened Stability
  import Facts
  import Rules
  import Histories
  import opened Sequence
  import opened Steps
  import opened RoundOrder
  import opened Overtaking
  import opened SerialSteps
  import opened SerialCommits

  // ---------- running the log alone ----------

  function Replay(t: Tables, log: seq<Entry>): Tables
    decreases |log|
  {
    if log == [] then t
    else
      var e := log[|log| - 1];
      Run(Replay(t, log[..|log| - 1]), e.cmd, e.at, e.id).t
  }

  /** Run alone in commit order, every command gives the answer it gave interleaved. */
  ghost predicate SameAnswers(t: Tables, log: seq<Entry>) {
    forall i | 0 <= i < |log| :: Run(Replay(t, log[..i]), log[i].cmd, log[i].at, log[i].id).answer == log[i].answer
  }

  ghost predicate IsReplayed(t: Tables, s: System) {
    s.db == Replay(t, s.log) && SameAnswers(t, s.log)
  }

  /** Only serial commands begin, and no awaited round number is freed. */
  ghost function KeepsSerial(): Rule {
    (s: System, event: Event) => (event.Begin? ==> Serial(event.cmd)) && !FreesAwaited(s, event)
  }

  // ---------- a commit is the command run alone ----------

  /** A ride command's writes, laid over the tables, are one ride and one key. */
  lemma RideOverlay(t: Tables, tx: Tx, id: int, row: Ride, response: Response)
    requires IsRideCommand(tx.cmd) && RideWritten(tx, id, response) && tx.w.rides == map[id := row]
    ensures Overlay(t, tx.w) == PutKey(PutRide(t, id, row), tx.cmd.token.key,
        ClaimRow(tx.cmd.token).(response := response))
  {
  }

  lemma CreateCommitIsRun(t: Tables, tx: Tx)
    requires TxOk(t, tx) && TxSerial(t, tx) && tx.cmd.CreateRide? && tx.pc.Saved?
    ensures Run(t, tx.cmd, tx.pc.at, tx.pc.id) == Outcome(Overlay(t, tx.w), Ok(RideReply(tx.pc.response)))
  {
    var input, token, id := tx.cmd.ride, tx.cmd.token, tx.pc.id;
    assert token.key in tx.w.keys;
    Facts.CreationExactly(t, input, token, tx.cmd.marshal, tx.pc.at, id);
    var row := Rules.CreatedRow(input);
    assert tx.w.rides == map[id := row];
    assert Rules.CreationRefusal(t, input, tx.pc.at, id).None?;
    RideOverlay(t, tx, id, row, tx.pc.response);
  }

  lemma DecisionRunsTo(t: Tables, cmd: Command, at: int, ride: Ride, next: Ride, destination: int, response: Response)
    requires cmd.DecideRide? && cmd.rideId in t.rides && t.rides[cmd.rideId] == ride && cmd.token.key !in t.keys
    requires RoundOpenFor(t, ride.matchId) && PhaseSeen(t, ride.matchId, at, DecisionPhase)
    requires Picked(t, cmd.decision, ride.teamId, destination)
    requires DecisionOf(cmd.decision, ride, DecisionPhase, destination) == Ok(next)
    requires UpdateRowError(t, ride, UpdatedRow(ride, next)).None?
    requires cmd.marshal(cmd.rideId, UpdatedRow(ride, next)) == Ok(response)
    ensures ExecuteDecision(t, cmd.decision, cmd.rideId, cmd.token, cmd.marshal, at)
         == Ok((PutKey(PutRide(t, cmd.rideId, UpdatedRow(ride, next)), cmd.token.key,
                       ClaimRow(cmd.token).(response := response)), response))
  {
    var claimed := PutKey(t, cmd.token.key, ClaimRow(cmd.token));
    assert RidePhase(t, at, ride.matchId) == Ok(DecisionPhase);
    if cmd.decision.Continue? {
      NextForTeamIs(t, ride.teamId, destination);
    }
    assert UpdateGuard(claimed, ride, next.version, destination);
    var updated := PutRide(claimed, cmd.rideId, UpdatedRow(ride, next));
    assert UpdateGuarded(claimed, cmd.rideId, next, destination) == Ok(updated);
    assert PutKey(updated, cmd.token.key, ClaimRow(cmd.token).(response := response))
        == PutKey(PutRide(t, cmd.rideId, UpdatedRow(ride, next)), cmd.token.key,
            ClaimRow(cmd.token).(response := response));
  }

  lemma DecideCommitIsRun(t: Tables, tx: Tx)
    requires TxOk(t, tx) && TxSerial(t, tx) && tx.cmd.DecideRide? && tx.pc.Saved?
    ensures Run(t, tx.cmd, tx.pc.at, tx.pc.id) == Outcome(Overlay(t, tx.w), Ok(RideReply(tx.pc.response)))
  {
    var cmd, id, response := tx.cmd, tx.pc.id, tx.pc.response;
    assert cmd.token.key !in t.keys by {
      assert cmd.token.key in tx.w.keys;
    }
    var ride := t.rides[id];
    var destination := if cmd.decision.Continue? then tx.w.rides[id].matchId else 0;
    var next := DecisionOf(cmd.decision, ride, DecisionPhase, destination).value;
    DecideReadyRuns(t, tx, ride, next, destination);
    RideOverlay(t, tx, id, UpdatedRow(ride, next), response);
  }

  lemma DecideReadyRuns(t: Tables, tx: Tx, ride: Ride, next: Ride, destination: int)
    requires tx.cmd.DecideRide? && tx.pc.Saved? && tx.pc.id == tx.cmd.rideId && tx.cmd.token.key !in t.keys
    requires tx.pc.id in t.rides && t.rides[tx.pc.id] == ride && DecideReadyOn(t, tx, tx.pc.at, ride, next, destination)
    requires tx.cmd.marshal(tx.pc.id, UpdatedRow(ride, next)) == Ok(tx.pc.response)
    ensures Run(t, tx.cmd, tx.pc.at, tx.pc.id)
         == Outcome(PutKey(PutRide(t, tx.pc.id, UpdatedRow(ride, next)), tx.cmd.token.key,
                           ClaimRow(tx.cmd.token).(response := tx.pc.response)),
                    Ok(RideReply(tx.pc.response)))
  {
    DecisionRunsTo(t, tx.cmd, tx.pc.at, ride, next, destination, tx.pc.response);
  }

  /** The rides the closing transaction wrote are exactly the round's undecided ones. */
  lemma ResolvedExactly(t: Tables, tx: Tx, id: int, edited: Round)
    requires DbOk(t) && WritesOk(t, tx.w) && id in t.rounds && id in tx.w.rounds
        && tx.w.rounds[id].status == RoundClosed
    requires AutoResolved(t, tx, id, edited.number)
    ensures AutoResolveAll(t, id, edited.number) == Ok(t.(rides := t.rides + tx.w.rides))
  {
    Facts.AutoResolutionIsLegal(t, id, edited.number);
    var all := AutoResolveAll(t, id, edited.number).value;
    forall k | k in t.rides ensures all.rides[k] == (t.rides + tx.w.rides)[k] {
      if Undecided(t, t.rides[k], id) {
        CloserHoldsUndecided(t, tx.w, id, k);
      }
    }
    forall k ensures k in all.rides <==> k in t.rides + tx.w.rides {
    }
    assert all.rides == t.rides + tx.w.rides;
  }

  /** The round write succeeds on any tables that differ in rides and season only, as
      long as the season lives and no undecided ride is left under a close. */
  lemma HeldWriteSucceeds(t: Tables, tx: Tx, id: int, row: Round, edited: Round, before: Tables)
    requires RoundHeld(t, tx, id, row, edited)
    requires before.rounds == t.rounds && before.matches == t.matches
    requires forall s :: SeasonLive(t, s) ==> SeasonLive(before, s)
    requires edited.status == RoundClosed && row.status != RoundClosed ==>
      AllMatchesClosed(t, id) && forall k | k in before.rides :: !Undecided(before, before.rides[k], id)
    ensures UpdateRoundRow(before, tx.now, id, edited) == Ok(PutRound(before, id, RoundRowAfter(row, edited)))
  {
  }

  /** All a round update needs at its end to be its command run alone. */
  ghost predicate RoundEnds(t: Tables, tx: Tx, id: int, row: Round, edited: Round) {
    && RoundCommits(t, tx, id, row, edited)
    && DbOk(t) && WritesOk(t, tx.w) && tx.w.keys == map[]
    && AutoResolved(t, tx, id, edited.number)
    && (tx.w.rides != map[] ==> IsClosing(row, edited))
  }

  lemma ClosedEndIsCovered(t: Tables, tx: Tx, id: int, row: Round, edited: Round)
    requires RoundEnds(t, tx, id, row, edited) && edited.status == RoundClosed && row.status != RoundClosed
    ensures AllMatchesClosed(t, id) && HoldsUndecided(t, tx.w, id)
  {
  }

  /** The season rows the transaction wrote are those its command flips. */
  lemma SeasonsWritten(t: Tables, tx: Tx, row: Round, edited: Round)
    requires tx.w.seasons == FinalSeasons(t, row, edited)
    ensures IsOpening(row, edited) ==>
      t.seasons + tx.w.seasons == FlipSeason(t, edited.seasonId, SeasonOpen, SeasonInProgress).seasons
    ensures IsClosing(row, edited) && edited.number == ROUNDS_PER_SEASON ==>
      t.seasons + tx.w.seasons == FlipSeason(t, edited.seasonId, SeasonInProgress, SeasonClosed).seasons
    ensures !IsOpening(row, edited) && (IsClosing(row, edited) ==> edited.number != ROUNDS_PER_SEASON) ==>
      t.seasons + tx.w.seasons == t.seasons
  {
  }

  lemma OpeningEndIsRun(t: Tables, tx: Tx, id: int, row: Round, edited: Round)
    requires RoundEnds(t, tx, id, row, edited) && IsOpening(row, edited)
    ensures OpenRound(t, id, edited, tx.now) == Ok(Overlay(t, tx.w))
  {
    hide RoundFreezeAllows, RoundProgressAllows, HighestClosedIs, NumberTaken, AutoResolved, WritesOk, DbOk;
    var flipped := FlipSeason(t, edited.seasonId, SeasonOpen, SeasonInProgress);
    HeldWriteSucceeds(t, tx, id, row, edited, flipped);
    SeasonsWritten(t, tx, row, edited);
    var u := Overlay(t, tx.w);
    assert u.rides == t.rides && u.matches == t.matches && u.keys == t.keys;
    assert u.rounds == t.rounds[id := RoundRowAfter(row, edited)];
  }

  lemma ClosingEndIsRun(t: Tables, tx: Tx, id: int, row: Round, edited: Round)
    requires RoundEnds(t, tx, id, row, edited) && IsClosing(row, edited)
    ensures CloseRound(t, id, edited, tx.now) == Ok(Overlay(t, tx.w))
  {
    ClosedEndIsCovered(t, tx, id, row, edited);
    ResolvedExactly(t, tx, id, edited);
    var resolved := t.(rides := t.rides + tx.w.rides);
    HeldWriteSucceeds(t, tx, id, row, edited, resolved);
    SeasonsWritten(t, tx, row, edited);
    var u := Overlay(t, tx.w);
    assert u.rounds == t.rounds[id := RoundRowAfter(row, edited)] && u.matches == t.matches && u.keys == t.keys;
  }

  lemma PlainEndIsRun(t: Tables, tx: Tx, id: int, row: Round, edited: Round)
    requires RoundEnds(t, tx, id, row, edited) && !IsOpening(row, edited) && !IsClosing(row, edited)
    ensures UpdateRoundRow(t, tx.now, id, edited) == Ok(Overlay(t, tx.w))
  {
    if edited.status == RoundClosed && row.status != RoundClosed {
      ClosedEndIsCovered(t, tx, id, row, edited);
    }
    HeldWriteSucceeds(t, tx, id, row, edited, t);
    SeasonsWritten(t, tx, row, edited);
    var u := Overlay(t, tx.w);
    assert u.rides == t.rides && u.matches == t.matches && u.keys == t.keys;
    assert u.rounds == t.rounds[id := RoundRowAfter(row, edited)];
  }

  lemma RoundCommitIsRun(t: Tables, tx: Tx)
    requires DbOk(t) && TxOk(t, tx) && TxSerial(t, tx) && tx.cmd.PatchRound? && tx.pc.Ending?
    ensures Run(t, tx.cmd, tx.now, 0) == Outcome(Overlay(t, tx.w), Ok(tx.pc.reply))
  {
    var id := tx.cmd.roundId;
    var row := t.rounds[id];
    var edited := PrepareRound(tx.cmd, row).value;
    assert RoundEnds(t, tx, id, row, edited);
    if IsOpening(row, edited) {
      OpeningEndIsRun(t, tx, id, row, edited);
    } else if IsClosing(row, edited) {
      ClosingEndIsRun(t, tx, id, row, edited);
    } else {
      PlainEndIsRun(t, tx, id, row, edited);
    }
    WrittenRoundIsRun(t, tx.cmd, tx.now, row, edited, Overlay(t, tx.w));
  }

  lemma WrittenRoundIsRun(t: Tables, cmd: Command, now: int, row: Round, edited: Round, u: Tables)
    requires cmd.PatchRound? && 1 <= cmd.roundId && cmd.roundId in t.rounds && t.rounds[cmd.roundId] == row
    requires PrepareRound(cmd, row) == Ok(edited) && WriteRound(t, cmd.roundId, row, edited, now) == Ok(u)
    ensures Run(t, cmd, now, 0) == Outcome(u, Ok(RoundReply(RoundRowAfter(row, edited))))
  {
  }

  lemma MatchCommitIsRun(t: Tables, tx: Tx)
    requires TxSerial(t, tx) && tx.cmd.PatchMatch? && tx.pc.Ending?
    ensures Run(t, tx.cmd, tx.now, 0) == Outcome(Overlay(t, tx.w), Ok(tx.pc.reply))
  {
    var id := tx.cmd.editedId;
    var written := EditedRow(tx.now, t.matches[id], PrepareMatch(tx.cmd, t.matches[id]).value);
    assert Overlay(t, tx.w) == PutMatch(t, id, written);
  }

  lemma SeasonCommitIsRun(t: Tables, tx: Tx)
    requires TxSerial(t, tx) && tx.cmd.PatchSeason? && tx.pc.Ending?
    ensures Run(t, tx.cmd, tx.now, 0) == Outcome(Overlay(t, tx.w), Ok(tx.pc.reply))
  {
    var id := tx.cmd.seasonId;
    var written := Season(t.seasons[id].status, t.seasons[id].version + 1);
    assert Overlay(t, tx.w) == PutSeason(t, id, written);
  }

  // ---------- the system ----------

  ghost predicate SystemSerial(s: System) {
    forall a | a in s.txs :: TxSerial(s.db, s.txs[a])
  }

  lemma CommitPoint(t: Tables, clock: int, tx: Tx, pick: int)
    requires TxSerial(t, tx) && Plan(t, clock, tx, pick).Commit?
    ensures Committing(t, tx)
    ensures Plan(t, clock, tx, pick).answer == if IsRideCommand(tx.cmd) then Ok(RideReply(tx.pc.response))
        else Ok(tx.pc.reply)
  {
  }

  /** The atomic step a commit stands for. */
  lemma CommitIsRun(t: Tables, clock: int, tid: int, tx: Tx, pick: int)
    requires DbOk(t) && TxOk(t, tx) && TxSerial(t, tx) && Plan(t, clock, tx, pick).Commit?
    ensures var answer := Plan(t, clock, tx, pick).answer;
      var e := EntryOf(tid, tx, answer);
      Run(t, e.cmd, e.at, e.id) == Outcome(Overlay(t, tx.w), answer)
  {
    hide Run, Overlay, DbOk, TxOk, RideSerial, RoundSerial;
    CommitPoint(t, clock, tx, pick);
    if tx.cmd.CreateRide? {
      CreateCommitIsRun(t, tx);
    } else if tx.cmd.DecideRide? {
      DecideCommitIsRun(t, tx);
    } else if tx.cmd.PatchRound? {
      RoundCommitIsRun(t, tx);
    } else if tx.cmd.PatchMatch? {
      MatchCommitIsRun(t, tx);
    } else {
      SeasonCommitIsRun(t, tx);
    }
  }

  lemma FinishedIsSerial(t: Tables, tx: Tx, answer: Result<Reply>)
    requires Serial(tx.cmd)
    ensures TxSerial(t, Finished(tx, answer))
  {
  }

  lemma TxIsSerial(t: Tables, tx: Tx)
    requires TxSerial(t, tx)
    ensures Serial(tx.cmd)
  {
  }

  lemma CommitKeepsSerial(s: System, tid: int, pick: int)
    requires SystemOk(s) && SystemSerial(s) && tid in s.txs && Plan(s.db, s.clock, s.txs[tid], pick).Commit?
    requires !FreesAwaited(s, Advance(tid, pick))
    ensures SystemSerial(AdvanceTx(s, tid, pick))
  {
    hide Plan, DbOk, TxOk, TxSerial, TakesAway;
    var tx := s.txs[tid];
    var answer := Plan(s.db, s.clock, tx, pick).answer;
    CommitPoint(s.db, s.clock, tx, pick);
    TxIsSerial(s.db, tx);
    FinishedIsSerial(Overlay(s.db, tx.w), tx, answer);
    forall u | u in s.txs && u != tid ensures TxSerial(Overlay(s.db, tx.w), s.txs[u]) {
      assert !Overtakes(s, Advance(tid, pick), u);
      SerialIsStable(s.db, tx, s.txs[u]);
    }
  }

  lemma AdvanceKeepsSerial(s: System, tid: int, pick: int)
    requires SystemOk(s) && SystemSerial(s) && tid in s.txs && !FreesAwaited(s, Advance(tid, pick))
    ensures SystemSerial(AdvanceTx(s, tid, pick))
  {
    hide Plan, DbOk, TxOk, TxSerial, FreesAwaited;
    var tx := s.txs[tid];
    assert TxOk(s.db, tx);
    MoveIsSerial(s.db, s.clock, tx, pick);
    if Plan(s.db, s.clock, tx, pick).Commit? {
      CommitKeepsSerial(s, tid, pick);
    }
  }

  lemma NextKeepsSerial(s: System, event: Event)
    requires SystemOk(s) && SystemSerial(s) && KeepsSerial()(s, event)
    ensures SystemSerial(Next(s, event))
  {
    hide Plan, AdvanceTx, FreesAwaited;
    match event
    case Tick(_) =>
    case Begin(tid, cmd) =>
    case Cancel(tid) =>
      if tid in s.txs {
        RefusedIsSerial(s.db, s.txs[tid], Aborted);
      }
    case Advance(tid, pick) =>
      if tid in s.txs {
        AdvanceKeepsSerial(s, tid, pick);
      }
  }

  lemma ReplayPrefix(t: Tables, log: seq<Entry>, e: Entry)
    ensures Replay(t, log + [e]) == Run(Replay(t, log), e.cmd, e.at, e.id).t
    ensures SameAnswers(t, log) && Run(Replay(t, log), e.cmd, e.at, e.id).answer == e.answer ==>
        SameAnswers(t, log + [e])
  {
    assert (log + [e])[..|log|] == log;
    forall i | 0 <= i < |log| ensures (log + [e])[..i] == log[..i] {
    }
  }

  lemma NextKeepsReplay(t: Tables, s: System, event: Event)
    requires SystemOk(s) && SystemSerial(s)
    requires IsReplayed(t, s)
    ensures IsReplayed(t, Next(s, event))
  {
    Histories.NextLogs(s, event);
    if Next(s, event).log != s.log {
      var tx := s.txs[event.tid];
      assert TxOk(s.db, tx);
      CommitIsRun(s.db, s.clock, event.tid, tx, event.pick);
      ReplayPrefix(t, s.log, EntryOf(event.tid, tx, Plan(s.db, s.clock, tx, event.pick).answer));
    } else {
      NoCommitNoChange(s, event);
    }
  }

  lemma NoCommitNoChange(s: System, event: Event)
    requires Next(s, event).log == s.log
    ensures Next(s, event).db == s.db
  {
  }

  /** Every logged answer is the one the transaction finished with. */
  ghost predicate AnswersReturned(s: System) {
    forall i | 0 <= i < |s.log| :: s.log[i].tid in s.txs && s.txs[s.log[i].tid].pc == Done(s.log[i].answer)
  }

  /** What every prefix of a schedule has reached, and what its transactions know. */
  lemma {:induction false} ScheduleIsReplayed(t: Tables, s: System, events: seq<Event>)
    requires SystemOk(s) && SystemSerial(s) && IsReplayed(t, s) && Follows(s, events, KeepsSerial())
    ensures SystemOk(Play(s, events)) && SystemSerial(Play(s, events)) && IsReplayed(t, Play(s, events))
    decreases |events|
  {
    hide Next, SystemOk, SystemSerial, IsReplayed, FreesAwaited;
    ScheduleIsOk(s, events);
    if events != [] {
      var last := |events| - 1;
      var v := Play(s, events[..last]);
      FollowsBefore(s, events, KeepsSerial());
      ScheduleIsReplayed(t, s, events[..last]);
      NextKeepsSerial(v, events[last]);
      NextKeepsReplay(t, v, events[last]);
    }
  }

  lemma StartIsReplayed(s: System)
    requires Initial(s) && DbOk(s.db)
    ensures SystemOk(s) && SystemSerial(s) && IsReplayed(s.db, s)
  {
  }

  /** Serializability: whatever the schedule of ride commands, round updates and harmless
      edits, if it frees no awaited round number the committed tables are those of running
      the committed commands alone, one after another in commit order, and each gives the
      answer its client got. A refused or cancelled command is not among them: it leaves
      no trace. */
  lemma {:induction false} EveryScheduleIsSerial(s: System, events: seq<Event>)
    requires Initial(s) && DbOk(s.db) && Follows(s, events, KeepsSerial())
    ensures AnswersReturned(Play(s, events))
    ensures IsReplayed(s.db, Play(s, events))
  {
    hide Play, SystemSerial, IsReplayed;
    StartIsReplayed(s);
    ScheduleIsReplayed(s.db, s, events);
    Histories.LogIsOk(s, events);
  }

  // ---------- exactly when ----------

  /** Alone, after the number was freed, the patch is refused by the progress gate. */
  lemma BehindIsRefused(t: Tables, cmd: Command, row: Round, edited: Round, now: int)
    requires cmd.PatchRound? && cmd.roundId in t.rounds && t.rounds[cmd.roundId] == row
    requires PrepareRound(cmd, row) == Ok(edited) && Progresses(row, edited)
    requires !HighestClosedIs(t.rounds, row.seasonId, edited.number - 1)
    ensures Run(t, cmd, now, 0).answer.Err?
  {
  }

  /** Some continuation that frees nothing more is not a run of its commands one by one. */
  ghost predicate MayBreakSerial(t: Tables, s: System) {
    exists u :: Reaches(s, u, KeepsSerial()) && !IsReplayed(t, u)
  }

  lemma LandedIsNotReplayed(t: Tables, u: System, a: int, tx: Tx)
    requires Asks(tx) && a in u.txs && u.txs[a] == Landed(tx) && IsReplayed(t, u)
    requires tx.cmd.roundId in u.db.rounds && u.db.rounds[tx.cmd.roundId] == tx.pc.row
    requires PrepareRound(tx.cmd, tx.pc.row) == Ok(tx.pc.edited)
    requires !Verdict(u.db.rounds, tx.pc.row.seasonId, tx.pc.edited.number)
    ensures !IsReplayed(t, Next(u, Advance(a, 0)))
  {
    hide Run, Plan, AdvanceTx, Verdict, PrepareRound;
    var e := EntryOf(a, Landed(tx), Ok(Landed(tx).pc.reply));
    LandedIsLogged(u, a, tx);
    RefusedBehind(u.db, tx);
    assert (u.log + [e])[..|u.log|] == u.log && (u.log + [e])[|u.log|] == e;
  }

  lemma LandedIsLogged(u: System, a: int, tx: Tx)
    requires Asks(tx) && a in u.txs && u.txs[a] == Landed(tx)
    ensures Next(u, Advance(a, 0)).log == u.log + [EntryOf(a, Landed(tx), Ok(Landed(tx).pc.reply))]
  {
  }

  lemma RefusedBehind(t: Tables, tx: Tx)
    requires Asks(tx) && tx.cmd.roundId in t.rounds && t.rounds[tx.cmd.roundId] == tx.pc.row
    requires PrepareRound(tx.cmd, tx.pc.row) == Ok(tx.pc.edited)
    requires !Verdict(t.rounds, tx.pc.row.seasonId, tx.pc.edited.number)
    ensures Run(t, tx.cmd, tx.now, 0).answer.Err?
  {
    BehindIsRefused(t, tx.cmd, tx.pc.row, tx.pc.edited, tx.now);
  }

  lemma FreedMayBreakSerial(t: Tables, v: System, event: Event)
    requires SystemOk(v) && SystemOrder(v) && FreesAwaited(v, event) && IsReplayed(t, Next(v, event))
    ensures MayBreakSerial(t, Next(v, event))
  {
    hide Next, SystemOrder, Plan, TakesAway, Reaches, Verdict, IsReplayed;
    var a :| Overtakes(v, event, a);
    var tx := v.txs[a];
    OvertakenAsks(v, event, a);
    var u := OvertakenPatchLands(v, event, a, KeepsSerial());
    var landed := With(u, a, Landed(tx));
    assert IsReplayed(t, landed) by {
      SameLogSameReplay(t, Next(v, event), landed);
    }
    GatedIsPrepared(v.db, tx);
    LandedIsNotReplayed(t, landed, a, tx);
    AloneFreesNothing(landed, a);
    ReachesNext(Next(v, event), landed, Advance(a, 0), KeepsSerial());
  }

  lemma SameLogSameReplay(t: Tables, s: System, u: System)
    requires IsReplayed(t, s) && u.db == s.db && u.log == s.log
    ensures IsReplayed(t, u)
  {
  }

  lemma GatedIsPrepared(t: Tables, tx: Tx)
    requires TxOk(t, tx) && Asks(tx)
    ensures PrepareRound(tx.cmd, tx.pc.row) == Ok(tx.pc.edited)
  {
    assert GatedPc(t, tx);
  }

  lemma AloneFreesNothing(s: System, a: int)
    requires Alone(s, a)
    ensures !FreesAwaited(s, Advance(a, 0))
  {
  }

  lemma SerialStaysSerial(t: Tables, s: System)
    requires SystemOk(s) && SystemSerial(s) && IsReplayed(t, s)
    ensures !MayBreakSerial(t, s)
  {
    hide SystemOk, SystemSerial, IsReplayed;
    forall u | Reaches(s, u, KeepsSerial()) ensures IsReplayed(t, u) {
      var events :| Follows(s, events, KeepsSerial()) && Play(s, events) == u;
      ScheduleIsReplayed(t, s, events);
    }
  }

  /** After a schedule that freed no awaited number, a step frees one if and only if some
      continuation that frees none is not serial. */
  lemma SerialExactly(s: System, events: seq<Event>, event: Event)
    requires Initial(s) && DbOk(s.db) && InSequence(s.db.rounds)
    requires Follows(s, events, KeepsSerial()) && (event.Begin? ==> Serial(event.cmd))
    ensures FreesAwaited(Play(s, events), event) <==> MayBreakSerial(s.db, Next(Play(s, events), event))
  {
    hide Next, SystemOk, SystemSerial, SystemOrder, IsReplayed, FreesAwaited, MayBreakSerial;
    StartIsReplayed(s);
    ScheduleIsReplayed(s.db, s, events);
    var v := Play(s, events);
    NextIsOk(v, event);
    NextKeepsReplay(s.db, v, event);
    if FreesAwaited(v, event) {
      SerialKeepsAwaited(s, events);
      ReachedInOrder(s, events);
      FreedMayBreakSerial(s.db, v, event);
    } else {
      NextKeepsSerial(v, event);
      SerialStaysSerial(s.db, Next(v, event));
    }
  }

  lemma SerialKeepsAwaited(s: System, events: seq<Event>)
    requires Follows(s, events, KeepsSerial())
    ensures Follows(s, events, KeepsAwaited())
  {
  }
}
