/** What a ride command, a round update or a harmless edit knows of the committed tables
    at each step, up to the writes it will commit. */
module SerialSteps {
  import opened Model
  import opened Phases
  import opened Gates
  import opened Rides
  import opened Statements
  import opened Commands
  import opened Interleaving
  import opened Safety
  import opened Sequence
  import opened RoundOrder

  /** An edit that leaves alone what other commands read of a match or a season: the
      start, the teams, the status of the season. Odds, score and the status of a match
      may change. */
  predicate Harmless(cmd: Command) {
    || (cmd.PatchMatch? && cmd.edit.startsAt.None? && cmd.edit.homeTeamId.None? && cmd.edit.awayTeamId.None?)
    || (cmd.PatchSeason? && cmd.seasonStatus.None?)
  }

  predicate Serial(cmd: Command) {
    IsRideCommand(cmd) || cmd.PatchRound? || Harmless(cmd)
  }

  // ---------- what harmless edits leave alone ----------

  predicate SameFixture(before: Match, after: Match) {
    && after.roundId == before.roundId && after.seasonId == before.seasonId && after.startsAt == before.startsAt
    && after.endedAt == before.endedAt && after.homeTeamId == before.homeTeamId
    && after.awayTeamId == before.awayTeamId && (after.status == MatchClosed <==> before.status == MatchClosed)
  }

  predicate SameFixtures(t: Tables, u: Tables) {
    && (forall m | m in u.matches :: m in t.matches)
    && (forall m | m in t.matches :: m in u.matches && SameFixture(t.matches[m], u.matches[m]))
  }

  // ---------- what a transaction knows until it commits ----------

  predicate PhaseSeen(t: Tables, matchId: int, at: int, phase: RoundPhase) {
    RoundKnown(t, matchId) && PhaseOf(at, t.matches[matchId]) == phase && RoundStatusOf(t, matchId) != RoundCreated
  }

  predicate ActionSeen(t: Tables, matchId: int, at: int) {
    matchId in t.matches && PhaseOf(at, t.matches[matchId]) == ActionPhase
  }

  predicate Picked(t: Tables, decision: Decision, teamId: int, destination: int) {
    if decision.Continue? then IsNext(t, teamId, destination) else destination == 0
  }

  /** A created ride, written and not committed: its round is open and held so. */
  predicate CreateReady(t: Tables, tx: Tx, id: int, at: int)
    requires tx.cmd.CreateRide?
  {
    var input := tx.cmd.ride;
    && ActionSeen(t, input.matchId, at)
    && RoundOpenFor(t, input.matchId)
    && RoundShare(t.matches[input.matchId].roundId) in tx.locks
    && id !in t.rides
    && InsertRowError(t, CreateOf(input, ActionPhase).value).None?
    && tx.w.rides == map[id := CreateOf(input, ActionPhase).value.(version := 1)]
  }

  predicate DecideReadyOn(t: Tables, tx: Tx, at: int, ride: Ride, next: Ride, destination: int)
    requires tx.cmd.DecideRide?
  {
    && RoundOpenFor(t, ride.matchId)
    && PhaseSeen(t, ride.matchId, at, DecisionPhase)
    && Picked(t, tx.cmd.decision, ride.teamId, destination)
    && DecisionOf(tx.cmd.decision, ride, DecisionPhase, destination) == Ok(next)
    && UpdateRowError(t, ride, UpdatedRow(ride, next)).None?
    && tx.w.rides == map[tx.cmd.rideId := UpdatedRow(ride, next)]
  }

  /** A decided ride, written and not committed: still won_pending outside, on an open round. */
  predicate DecideReady(t: Tables, tx: Tx, id: int, at: int)
    requires tx.cmd.DecideRide?
  {
    && id == tx.cmd.rideId && id in t.rides && id in tx.w.rides
    && var ride := t.rides[id];
       var destination := if tx.cmd.decision.Continue? then tx.w.rides[id].matchId else 0;
       var next := DecisionOf(tx.cmd.decision, ride, DecisionPhase, destination);
       next.Ok? && DecideReadyOn(t, tx, at, ride, next.value, destination)
  }

  predicate WriteReady(t: Tables, tx: Tx, id: int, at: int)
    requires IsRideCommand(tx.cmd)
  {
    if tx.cmd.CreateRide? then CreateReady(t, tx, id, at) else DecideReady(t, tx, id, at)
  }

  predicate RideSerial(t: Tables, tx: Tx)
    requires IsRideCommand(tx.cmd)
  {
    match tx.pc
    case PhaseRead(ride, phase, at) => PhaseSeen(t, ride.matchId, at, phase)
    case Decided(ride, _, destination, at) =>
      tx.cmd.DecideRide? && PhaseSeen(t, ride.matchId, at, DecisionPhase)
          && Picked(t, tx.cmd.decision, ride.teamId, destination)
    case Updating(ride, _, destination, at, _) =>
      tx.cmd.DecideRide? && PhaseSeen(t, ride.matchId, at, DecisionPhase)
          && Picked(t, tx.cmd.decision, ride.teamId, destination)
    case Creating(ride, at) => ActionSeen(t, ride.matchId, at)
    case Inserting(ride, at, roundId) => ActionSeen(t, ride.matchId, at) && t.matches[ride.matchId].roundId == roundId
    case Written(id, at) => WriteReady(t, tx, id, at)
    case Saved(id, at, response) => WriteReady(t, tx, id, at) && tx.cmd.marshal(id, tx.w.rides[id]) == Ok(response)
    case _ => true
  }

  // ---------- rounds ----------

  function Flipped(t: Tables, s: int, from: SeasonStatus, to: SeasonStatus): map<int, Season> {
    if SeasonAt(t, s, from) then map[s := Season(to, t.seasons[s].version + 1)] else map[]
  }

  /** The season rows an opening wrote before its round. */
  function OpeningSeasons(t: Tables, row: Round, edited: Round): map<int, Season> {
    if IsOpening(row, edited) then Flipped(t, edited.seasonId, SeasonOpen, SeasonInProgress) else map[]
  }

  /** The season rows after the last statement. */
  function FinalSeasons(t: Tables, row: Round, edited: Round): map<int, Season> {
    if IsClosing(row, edited) && edited.number == ROUNDS_PER_SEASON
        then Flipped(t, edited.seasonId, SeasonInProgress, SeasonClosed)
    else OpeningSeasons(t, row, edited)
  }

  /** The round is written under gates that still hold, and every lock that keeps them is held. */
  predicate RoundHeld(t: Tables, tx: Tx, id: int, row: Round, edited: Round) {
    && HeldRound(t.rounds, tx.locks, id, RoundRowAfter(row, edited))
    && t.rounds[id] == row && edited == row.(number := edited.number, status := edited.status)
    && tx.w.rounds == map[id := RoundRowAfter(row, edited)]
    && tx.w.matches == map[]
    && RoundFreezeAllows(t, tx.now, id, RoundRowAfter(row, edited))
    && (IsProgress(row, RoundRowAfter(row, edited)) ==> SeasonLive(t, row.seasonId))
  }

  /** Past the gates: the round may be written once its number is free. */
  predicate RoundPassed(t: Tables, tx: Tx, id: int, row: Round, edited: Round) {
    var written := RoundRowAfter(row, edited);
    && GatedRound(t.rounds, tx.locks, id, row, written)
    && edited == row.(number := edited.number, status := edited.status)
    && tx.w.rounds == map[] && tx.w.matches == map[]
    && RoundFreezeAllows(t, tx.now, id, written)
    && (IsProgress(row, written) ==> NumberClosed(t.rounds, row.seasonId, edited.number) || SeasonLive(t, row.seasonId))
  }

  predicate RoundSerial(t: Tables, tx: Tx)
    requires tx.cmd.PatchRound?
  {
    match tx.pc
    case RoundReady(row, edited) => tx.w.seasons == OpeningSeasons(t, row, edited)
    case RoundGated(row, edited) => RoundPassed(t, tx, tx.cmd.roundId, row, edited)
        && tx.w.seasons == OpeningSeasons(t, row, edited)
    case RoundWritten(row, edited) => RoundHeld(t, tx, tx.cmd.roundId, row, edited)
        && tx.w.seasons == OpeningSeasons(t, row, edited)
    case Ending(reply) =>
      && 1 <= tx.cmd.roundId && tx.cmd.roundId in t.rounds
      && PrepareRound(tx.cmd, t.rounds[tx.cmd.roundId]).Ok?
      && var row := t.rounds[tx.cmd.roundId];
         var edited := PrepareRound(tx.cmd, row).value;
         && RoundHeld(t, tx, tx.cmd.roundId, row, edited)
         && AutoResolved(t, tx, tx.cmd.roundId, edited.number)
         && (tx.w.rides != map[] ==> IsClosing(row, edited))
         && tx.w.seasons == FinalSeasons(t, row, edited)
         && reply == RoundReply(RoundRowAfter(row, edited))
    case _ => true
  }

  // ---------- harmless edits ----------

  predicate MatchSerial(t: Tables, tx: Tx)
    requires tx.cmd.PatchMatch?
  {
    var id := tx.cmd.editedId;
    match tx.pc
    case MatchRead(_, edited) => 1 <= id && TeamsExist(t, edited)
    case MatchBegun(_, edited) => 1 <= id && TeamsExist(t, edited)
    case Ending(reply) =>
      && 1 <= id && id in t.matches && PrepareMatch(tx.cmd, t.matches[id]).Ok?
      && var edited := PrepareMatch(tx.cmd, t.matches[id]).value;
         var written := EditedRow(tx.now, t.matches[id], edited);
         && TeamsExist(t, edited) && EditRowError(tx.now, t.matches[id], written).None?
         && tx.w == NOTHING.(matches := map[id := written]) && reply == MatchReply(written)
    case _ => true
  }

  predicate SeasonSerial(t: Tables, tx: Tx)
    requires tx.cmd.PatchSeason?
  {
    var id := tx.cmd.seasonId;
    match tx.pc
    case SeasonRead(_, _) => 1 <= id
    case SeasonBegun(_, _) => 1 <= id
    case Ending(reply) =>
      && 1 <= id && id in t.seasons && PrepareSeason(tx.cmd, t.seasons[id]).Ok?
      && var written := Season(t.seasons[id].status, t.seasons[id].version + 1);
         && SeasonUpdateAllowed(t, tx.now, id, written)
         && tx.w == NOTHING.(seasons := map[id := written]) && reply == SeasonReply(written)
    case _ => true
  }

  /** No serial command moves a fixture, and no season it writes becomes merely open. */
  predicate Modest(t: Tables, w: Writes) {
    && (forall m | m in w.matches :: m in t.matches && SameFixture(t.matches[m], w.matches[m]))
    && (forall s | s in w.seasons :: s in t.seasons
         && (w.seasons[s].status in {SeasonInProgress, SeasonClosed} || w.seasons[s].status == t.seasons[s].status))
  }

  predicate PcSerial(t: Tables, tx: Tx)
    requires Serial(tx.cmd)
  {
    if IsRideCommand(tx.cmd) then RideSerial(t, tx)
    else if tx.cmd.PatchRound? then RoundSerial(t, tx)
    else if tx.cmd.PatchMatch? then MatchSerial(t, tx)
    else SeasonSerial(t, tx)
  }

  predicate TxSerial(t: Tables, tx: Tx) {
    Serial(tx.cmd) && Modest(t, tx.w) && PcSerial(t, tx)
  }

  // ---------- a transaction's own step ----------

  ghost predicate SerialMove(t: Tables, tx: Tx, move: Move) {
    move.Go? ==> TxSerial(t, move.tx)
  }

  lemma ReadIsSerial(t: Tables, clock: int, tx: Tx)
    requires TxSerial(t, tx) && IsRideCommand(tx.cmd)
    ensures tx.pc.Claimed? ==> SerialMove(t, tx, PlanClaimed(t, clock, tx))
    ensures tx.pc.RideRead? ==> SerialMove(t, tx, PlanPhase(t, clock, tx))
  {
  }

  lemma DecideIsSerial(t: Tables, tx: Tx)
    requires TxSerial(t, tx) && tx.pc.PhaseRead? && tx.cmd.DecideRide?
    ensures SerialMove(t, tx, PlanDecide(t, tx))
  {
  }

  lemma RefusedIsSerial(t: Tables, tx: Tx, e: Error)
    requires Serial(tx.cmd)
    ensures TxSerial(t, Refuse(tx, e))
  {
  }

  lemma WrittenIsSerial(t: Tables, tx: Tx)
    requires IsRideCommand(tx.cmd) && tx.pc.Written? && tx.w.matches == map[] && tx.w.seasons == map[]
    requires WriteReady(t, tx, tx.pc.id, tx.pc.at)
    ensures TxSerial(t, tx)
  {
  }

  lemma UpdatingKnows(t: Tables, tx: Tx)
    requires TxOk(t, tx) && TxSerial(t, tx) && tx.pc.Updating? && tx.cmd.DecideRide?
    ensures RideSerial(t, tx) && ClaimOnly(tx) && DecisionMade(t, tx, tx.pc.ride, tx.pc.next, tx.pc.destination)
  {
    assert RidePc(t, tx);
  }

  /** The guard's snapshot may be old, but a ride that is still undecided has an open round now. */
  lemma UpdateRowIsSerial(t: Tables, tx: Tx)
    requires DbOk(t) && TxOk(t, tx) && TxSerial(t, tx) && tx.pc.Updating? && tx.cmd.DecideRide?
    ensures SerialMove(t, tx, PlanUpdateRow(t, tx))
  {
    UpdatingKnows(t, tx);
    hide DbOk, TxOk, TxSerial, RideSerial, WriteReady, RideUpdateAllowed;
    var id, ride, next := tx.cmd.rideId, tx.pc.ride, tx.pc.next;
    var move := PlanUpdateRow(t, tx);
    if move.tx.pc.Done? {
      RefusedIsSerial(t, tx, move.tx.pc.answer.error);
    } else {
      assert t.rides[id] == ride;
      assert move.tx.w.rides == map[id := UpdatedRow(ride, next)];
      UpdatedIsReady(t, tx, move.tx);
      WrittenIsSerial(t, move.tx);
    }
  }

  lemma UpdatedIsReady(t: Tables, tx: Tx, u: Tx)
    requires DbOk(t) && tx.cmd.DecideRide? && tx.pc.Updating? && RideSerial(t, tx)
    requires DecisionMade(t, tx, tx.pc.ride, tx.pc.next, tx.pc.destination) && t.rides[tx.cmd.rideId] == tx.pc.ride
    requires UpdateRowError(Overlay(t, tx.w), tx.pc.ride, UpdatedRow(tx.pc.ride, tx.pc.next)).None?
    requires u.cmd == tx.cmd && u.w.rides == map[tx.cmd.rideId := UpdatedRow(tx.pc.ride, tx.pc.next)]
    ensures WriteReady(t, u, tx.cmd.rideId, tx.pc.at)
  {
    var ride := tx.pc.ride;
    assert RoundStatusOf(t, ride.matchId) != RoundClosed;
    assert DecideReadyOn(t, u, tx.pc.at, ride, tx.pc.next, tx.pc.destination);
  }

  lemma InsertIsSerial(t: Tables, tx: Tx, pick: int)
    requires TxOk(t, tx) && TxSerial(t, tx) && IsRideCommand(tx.cmd)
    ensures tx.pc.Creating? ==> SerialMove(t, tx, PlanInsert(t, tx))
    ensures tx.pc.Inserting? ==> SerialMove(t, tx, PlanInsertRow(t, tx, pick))
  {
    hide Sound, DbOk;
  }

  lemma SaveIsSerial(t: Tables, tx: Tx)
    requires TxOk(t, tx) && TxSerial(t, tx) && tx.pc.Written? && IsRideCommand(tx.cmd)
    ensures SerialMove(t, tx, PlanSave(tx))
  {
    hide RoundFreezeAllows, UpdateRowError, InsertRowError, PhaseOf, IsNext;
  }

  lemma RideMoveIsSerial(t: Tables, clock: int, tx: Tx, pick: int)
    requires DbOk(t) && TxOk(t, tx) && TxSerial(t, tx) && IsRideCommand(tx.cmd) && !tx.pc.Start?
    ensures SerialMove(t, tx, PlanRide(t, clock, tx, pick))
  {
    hide DbOk, Sound, AdminPc, DecisionMade, SeenRide, RideWritten, WriteReady, Picked;
    match tx.pc
    case Claimed => ReadIsSerial(t, clock, tx);
    case RideRead(_) => ReadIsSerial(t, clock, tx);
    case PhaseRead(_, _, _) => DecideIsSerial(t, tx);
    case Updating(_, _, _, _, _) => UpdateRowIsSerial(t, tx);
    case Creating(_, _) => InsertIsSerial(t, tx, pick);
    case Inserting(_, _, _) => InsertIsSerial(t, tx, pick);
    case Written(_, _) => SaveIsSerial(t, tx);
    case _ =>
  }

  lemma DispatchIsSerial(t: Tables, tx: Tx)
    requires TxOk(t, tx) && TxSerial(t, tx) && tx.cmd.PatchRound? && tx.pc.RoundBegun?
    ensures SerialMove(t, tx, PlanDispatch(t, tx))
  {
  }

  lemma AutoRowIsSerial(t: Tables, tx: Tx, pick: int)
    requires TxOk(t, tx) && TxSerial(t, tx) && tx.cmd.PatchRound? && tx.pc.AutoResolving?
    ensures SerialMove(t, tx, PlanAutoRow(t, tx, pick))
  {
    hide RideUpdateAllowed, Legal, FlipCovered;
  }

  /** The gates ran on the transaction's own view; they hold of the committed tables too. */
  lemma ViewGatesHold(t: Tables, tx: Tx, id: int, row: Round, written: Round)
    requires tx.w.matches == map[] && tx.w.rounds == map[]
    requires forall s | s in tx.w.seasons :: SeasonLive(t, s)
    requires RoundGateError(Overlay(t, tx.w), tx.now, id, row, written).None?
    ensures RoundRowOk(written) && RoundFreezeAllows(t, tx.now, id, written) && RoundProgressAllows(t, row, written)
  {
  }

  lemma RoundRowIsSerial(t: Tables, tx: Tx)
    requires TxOk(t, tx) && TxSerial(t, tx) && tx.cmd.PatchRound? && tx.pc.RoundReady?
    ensures SerialMove(t, tx, PlanRoundRow(t, tx))
  {
    var id, edited := tx.cmd.roundId, tx.pc.edited;
    if t.rounds[id].version == edited.version {
      var row := t.rounds[id];
      assert row == tx.pc.row;
      var written := RoundRowAfter(row, edited);
      if RoundGateError(Overlay(t, tx.w), tx.now, id, row, written).None? {
        ViewGatesHold(t, tx, id, row, written);
        assert RoundPassed(t, PlanRoundRow(t, tx).tx, id, row, edited);
      }
    }
  }

  lemma RoundIndexIsSerial(t: Tables, tx: Tx)
    requires TxSerial(t, tx) && tx.cmd.PatchRound? && tx.pc.RoundGated?
    ensures SerialMove(t, tx, PlanRoundIndex(t, tx))
  {
    hide RoundFreezeAllows, OpeningSeasons;
    var id, row, edited := tx.cmd.roundId, tx.pc.row, tx.pc.edited;
    var written := RoundRowAfter(row, edited);
    if !NumberTaken(t.rounds, id, row.seasonId, edited.number) {
      VerdictIsFresh(t.rounds, tx.locks, id, row, written);
      var next := PlanRoundIndex(t, tx).tx;
      assert next.w.rounds == map[id := written];
      assert RoundHeld(t, next, id, row, edited);
    }
  }

  lemma RoundEndIsSerial(t: Tables, tx: Tx)
    requires TxOk(t, tx) && TxSerial(t, tx) && tx.cmd.PatchRound? && tx.pc.RoundWritten?
    ensures SerialMove(t, tx, PlanRoundEnd(t, tx))
  {
    var move := PlanRoundEnd(t, tx);
    assert RoundHeld(t, move.tx, tx.cmd.roundId, tx.pc.row, tx.pc.edited);
    assert AutoResolved(t, move.tx, tx.cmd.roundId, tx.pc.edited.number);
  }

  lemma RoundMoveIsSerial(t: Tables, clock: int, tx: Tx, pick: int)
    requires TxOk(t, tx) && TxSerial(t, tx) && tx.cmd.PatchRound? && !tx.pc.Start?
    ensures SerialMove(t, tx, PlanAdmin(t, clock, tx, pick))
  {
    hide PlanAutoRow, PlanDispatch, PlanRoundRow, PlanRoundIndex, PlanRoundEnd, PlanSettleRow, PlanResolveRow,
        PlanMatchRow, PlanSeasonRow, OpeningSeasons, FinalSeasons, RoundHeld, RoundPassed, RoundPrepared, Sound;
    match tx.pc
    case RoundBegun(_, _) => DispatchIsSerial(t, tx);
    case AutoResolving(_, _, _) => AutoRowIsSerial(t, tx, pick);
    case RoundReady(_, _) => RoundRowIsSerial(t, tx);
    case RoundGated(_, _) => RoundIndexIsSerial(t, tx);
    case RoundWritten(_, _) => RoundEndIsSerial(t, tx);
    case _ =>
  }

  /** An edit that carries no start and no teams moves no fixture; the validator wants an
      end of a match it closes, and the edit records none. */
  lemma HarmlessEditKeepsFixture(t: Tables, cmd: Command, row: Match, now: int)
    requires cmd.PatchMatch? && Harmless(cmd) && MatchRowOk(row) && PrepareMatch(cmd, row).Ok?
    ensures SameFixture(row, EditedRow(now, row, PrepareMatch(cmd, row).value))
  {
  }

  lemma MatchRowIsSerial(t: Tables, tx: Tx)
    requires DbOk(t) && TxSerial(t, tx) && tx.cmd.PatchMatch? && tx.pc.MatchBegun? && Idle(tx)
    requires MatchPrepared(t, tx, tx.pc.m, tx.pc.editedMatch)
    ensures SerialMove(t, tx, PlanMatchRow(t, tx))
  {
    hide SameFixture, MatchUpdateAllowed, MatchRowOk;
    var id, edited := tx.cmd.editedId, tx.pc.editedMatch;
    if t.matches[id].version == edited.version {
      assert t.matches[id] == tx.pc.m;
      HarmlessEditKeepsFixture(t, tx.cmd, t.matches[id], tx.now);
    }
  }

  lemma SeasonRowIsSerial(t: Tables, tx: Tx)
    requires TxSerial(t, tx) && tx.cmd.PatchSeason? && tx.pc.SeasonBegun? && Idle(tx)
    requires SeasonPrepared(t, tx, tx.pc.season, tx.pc.editedSeason)
    ensures SerialMove(t, tx, PlanSeasonRow(t, tx))
  {
    var id, edited := tx.cmd.seasonId, tx.pc.editedSeason;
    if t.seasons[id].version == edited.version {
      assert t.seasons[id] == tx.pc.season;
    }
  }

  lemma EditMoveIsSerial(t: Tables, clock: int, tx: Tx, pick: int)
    requires DbOk(t) && TxOk(t, tx) && TxSerial(t, tx) && Harmless(tx.cmd)
    ensures SerialMove(t, tx, Plan(t, clock, tx, pick))
  {
    hide PlanMatchRow, PlanSeasonRow, PlanAutoRow, PlanDispatch, PlanSettleRow, PlanResolveRow;
    hide DbOk, Sound, PrepareMatch, PrepareSeason;
    assert AdminPc(t, tx);
    if tx.pc.MatchBegun? {
      MatchRowIsSerial(t, tx);
    } else if tx.pc.SeasonBegun? {
      SeasonRowIsSerial(t, tx);
    }
  }

  lemma MoveIsSerial(t: Tables, clock: int, tx: Tx, pick: int)
    requires DbOk(t) && TxOk(t, tx) && TxSerial(t, tx)
    ensures SerialMove(t, tx, Plan(t, clock, tx, pick))
  {
    if tx.pc.Start? && !Harmless(tx.cmd) {
    } else if IsRideCommand(tx.cmd) {
      RideMoveIsSerial(t, clock, tx, pick);
    } else if tx.cmd.PatchRound? {
      RoundMoveIsSerial(t, clock, tx, pick);
    } else {
      EditMoveIsSerial(t, clock, tx, pick);
    }
  }
}
