/** The invariant of the interleaved transactions, and what it keeps true of the
    committed tables in every interleaving. */
module Safety {
  import opened Model
  import opened Lifecycle
  import opened Gates
  import opened Rides
  import opened Statements
  import opened Commands
  import opened Changes
  import opened Interleaving

  // ---------- the committed tables ----------

  /** The match is closed if its round is. A match added to a closed round is not. */
  predicate ClosedWithRound(t: Tables, m: int) {
    RoundKnown(t, m) && RoundStatusOf(t, m) == RoundClosed ==> t.matches[m].status == MatchClosed
  }

  /** A closed round owns no undecided ride, and no locked one on a match still open. */
  predicate ClosedIsSettled(t: Tables) {
    forall id | id in t.rides ::
      && (t.rides[id].state == Locked ==> ClosedWithRound(t, t.rides[id].matchId))
      && (t.rides[id].state == WonPending && RoundKnown(t, t.rides[id].matchId) ==>
            RoundStatusOf(t, t.rides[id].matchId) != RoundClosed)
  }

  predicate DbOk(t: Tables) {
    References(t) && ClosedIsSettled(t) && forall m | m in t.matches :: MatchRowOk(t.matches[m])
  }

  // ---------- one transaction against the committed tables ----------

  /** Every row written is a row locked. */
  predicate Covered(tx: Tx) {
    && (forall id | id in tx.w.rides :: RideLock(id) in tx.locks)
    && (forall id | id in tx.w.matches :: MatchLock(id) in tx.locks)
    && (forall id | id in tx.w.rounds :: RoundLock(id) in tx.locks)
    && (forall id | id in tx.w.seasons :: SeasonLock(id) in tx.locks)
    && (forall k | k in tx.w.keys :: KeyLock(k) in tx.locks)
  }

  predicate MatchNext(before: Match, after: Match) {
    MatchKeeps(before, after) && after.version == before.version + 1 && MatchRowOk(after)
  }

  predicate RoundNext(before: Round, after: Round) {
    RoundKeeps(before, after) && after.version == before.version + 1
  }

  predicate SeasonNext(before: Season, after: Season) {
    SeasonRank(before.status) <= SeasonRank(after.status) && after.version == before.version + 1
  }

  /** Every write is the next version of the committed row, moved the way the row may move. */
  predicate Legal(t: Tables, w: Writes) {
    && (forall id | id in w.rides ::
          && (if id in t.rides then RideStep(t.rides[id], w.rides[id]) else Newborn(w.rides[id]))
          && w.rides[id].matchId in t.matches
          && (w.rides[id].state == Locked ==> ClosedWithRound(t, w.rides[id].matchId)))
    && (forall m | m in w.matches :: m in t.matches && MatchNext(t.matches[m], w.matches[m]))
    && (forall r | r in w.rounds :: r in t.rounds && RoundNext(t.rounds[r], w.rounds[r]))
    && (forall s | s in w.seasons :: s in t.seasons && SeasonNext(t.seasons[s], w.seasons[s]))
    && (forall k | k in w.keys :: k !in t.keys)
  }

  predicate NewlyClosed(t: Tables, w: Writes, r: int)
    requires r in w.rounds
  {
    r in t.rounds && t.rounds[r].status != RoundClosed && w.rounds[r].status == RoundClosed
  }

  /** A half-done close: its round's matches are all closed for good, and it holds
      every undecided ride of the round. */
  predicate FlipCovered(t: Tables, w: Writes) {
    forall r | r in w.rounds && NewlyClosed(t, w, r) ::
      && (forall m | m in t.matches :: t.matches[m].roundId == r ==> t.matches[m].status == MatchClosed)
      && (forall id | id in t.rides :: Undecided(t, t.rides[id], r) ==> id in w.rides)
  }

  /** A half-done resolution: a ride it has settled is on the match it scored, still open outside. */
  predicate SettledUnderScore(t: Tables, w: Writes) {
    forall id | id in w.rides && w.rides[id].state in {WonPending, Lost} ::
      && w.rides[id].matchId in w.matches
      && w.rides[id].matchId in t.matches && t.matches[w.rides[id].matchId].status != MatchClosed
  }

  predicate WritesOk(t: Tables, w: Writes) {
    && Legal(t, w) && FlipCovered(t, w) && SettledUnderScore(t, w)
    && (w.rounds == map[] || w.matches == map[])
  }

  // ---------- what each program counter knows ----------

  predicate SeenRide(t: Tables, id: int, ride: Ride) {
    id in t.rides && (t.rides[id] == ride || ride.version < t.rides[id].version)
  }

  predicate SeenMatch(t: Tables, id: int, m: Match) {
    id in t.matches && (t.matches[id] == m || m.version < t.matches[id].version)
  }

  predicate SeenRound(t: Tables, id: int, round: Round) {
    id in t.rounds && (t.rounds[id] == round || round.version < t.rounds[id].version)
  }

  predicate SeenSeason(t: Tables, id: int, season: Season) {
    id in t.seasons && (t.seasons[id] == season || season.version < t.seasons[id].version)
  }

  predicate Idle(tx: Tx) {
    tx.w == NOTHING && tx.locks == {}
  }

  predicate ClaimOnly(tx: Tx)
    requires IsRideCommand(tx.cmd)
  {
    tx.w == NOTHING.(keys := map[tx.cmd.token.key := ClaimRow(tx.cmd.token)])
  }

  predicate DecidedAs(cmd: Command, id: int, row: Ride) {
    cmd.DecideRide? ==> id == cmd.rideId && row.state == DecidedState(cmd.decision)
  }

  predicate RideWritten(tx: Tx, id: int, response: Response)
    requires IsRideCommand(tx.cmd)
  {
    && tx.w.rides.Keys == {id} && DecidedAs(tx.cmd, id, tx.w.rides[id])
    && tx.w == NOTHING.(rides := tx.w.rides,
                         keys := map[tx.cmd.token.key := ClaimRow(tx.cmd.token).(response := response)])
  }

  predicate DecisionMade(t: Tables, tx: Tx, ride: Ride, next: Ride, destination: int)
    requires tx.cmd.DecideRide?
  {
    && SeenRide(t, tx.cmd.rideId, ride)
    && DecisionOf(tx.cmd.decision, ride, DecisionPhase, destination) == Ok(next)
    && (tx.cmd.decision.Continue? ==> destination in t.matches && ClosedWithRound(t, destination))
  }

  /** A finished ride command that succeeded answered what its key stores. */
  predicate AnswerStored(t: Tables, tx: Tx, answer: Result<Reply>)
    requires IsRideCommand(tx.cmd)
  {
    answer.Ok? ==>
      && answer.value.RideReply?
      && tx.cmd.token.key in t.keys
      && t.keys[tx.cmd.token.key].hash == tx.cmd.token.hash
      && t.keys[tx.cmd.token.key].response == answer.value.response
  }

  predicate RidePc(t: Tables, tx: Tx)
    requires IsRideCommand(tx.cmd)
  {
    match tx.pc
    case Start => Idle(tx)
    case ClaimLost => Idle(tx) && tx.cmd.token.key in t.keys
    case Claimed => ClaimOnly(tx)
    case RideRead(ride) => ClaimOnly(tx) && tx.cmd.DecideRide? && SeenRide(t, tx.cmd.rideId, ride)
    case PhaseRead(ride, _, _) => ClaimOnly(tx) && tx.cmd.DecideRide? && SeenRide(t, tx.cmd.rideId, ride)
    case Decided(ride, next, destination, _) => ClaimOnly(tx) && tx.cmd.DecideRide?
        && DecisionMade(t, tx, ride, next, destination)
    case Updating(ride, next, destination, _, _) => ClaimOnly(tx) && tx.cmd.DecideRide?
        && DecisionMade(t, tx, ride, next, destination)
    case Creating(ride, _) => ClaimOnly(tx) && tx.cmd.CreateRide? && CreateOf(tx.cmd.ride, ActionPhase) == Ok(ride)
    case Inserting(ride, _, _) =>
      ClaimOnly(tx) && tx.cmd.CreateRide? && CreateOf(tx.cmd.ride, ActionPhase) == Ok(ride)
      && ride.matchId in t.matches && ClosedWithRound(t, ride.matchId)
    case Written(id, _) => RideWritten(tx, id, PLACEHOLDER)
    case Saved(id, _, response) => RideWritten(tx, id, response)
    case Done(answer) => Idle(tx) && AnswerStored(t, tx, answer)
    case _ => false
  }

  predicate SettledRides(t: Tables, tx: Tx, m: int)
    requires m in tx.w.matches
  {
    forall id | id in tx.w.rides ::
      id in t.rides && Statements.OnMatch(t.rides[id], m) && tx.w.rides[id] == SettledRow(tx.w.matches[m], t.rides[id])
  }

  predicate ScoreWritten(t: Tables, tx: Tx)
    requires tx.cmd.ResolveMatch?
  {
    var m := tx.cmd.matchId;
    && tx.w.matches.Keys == {m} && tx.w == NOTHING.(matches := tx.w.matches, rides := tx.w.rides)
    && tx.w.matches[m].status == MatchClosed
    && m in t.matches && t.matches[m].status == MatchInProgress
    && SettledRides(t, tx, m)
  }

  /** Every ride the settlement saw is still locked outside, and settled or yet to be. */
  predicate SeenAreHeld(t: Tables, tx: Tx, seen: set<int>, todo: set<int>)
    requires tx.cmd.ResolveMatch?
  {
    && (forall id | id in seen ::
          id in t.rides && Statements.OnMatch(t.rides[id], tx.cmd.matchId) && (id in todo || id in tx.w.rides))
    && (forall id | id in todo :: id in seen)
  }

  predicate AutoResolved(t: Tables, tx: Tx, roundId: int, number: int) {
    forall id | id in tx.w.rides ::
      id in t.rides && Undecided(t, t.rides[id], roundId) && tx.w.rides[id] == AutoRow(number, t.rides[id])
  }

  predicate RoundPrepared(t: Tables, tx: Tx, row: Round, edited: Round)
    requires tx.cmd.PatchRound?
  {
    && 1 <= tx.cmd.roundId && SeenRound(t, tx.cmd.roundId, row) && PrepareRound(tx.cmd, row) == Ok(edited)
    && tx.w == NOTHING.(rides := tx.w.rides, rounds := tx.w.rounds, seasons := tx.w.seasons)
    && AutoResolved(t, tx, tx.cmd.roundId, edited.number)
    && (tx.w.rides != map[] ==> IsClosing(row, edited))
  }

  predicate MatchPrepared(t: Tables, tx: Tx, m: Match, edited: Match)
    requires tx.cmd.PatchMatch?
  {
    SeenMatch(t, tx.cmd.editedId, m) && PrepareMatch(tx.cmd, m) == Ok(edited)
  }

  predicate SeasonPrepared(t: Tables, tx: Tx, season: Season, edited: Season)
    requires tx.cmd.PatchSeason?
  {
    SeenSeason(t, tx.cmd.seasonId, season) && PrepareSeason(tx.cmd, season) == Ok(edited)
  }

  predicate TargetsInRound(t: Tables, targets: map<int, int>, roundId: int) {
    forall id | id in targets :: targets[id] in t.matches && t.matches[targets[id]].roundId == roundId
  }

  predicate AutoPc(t: Tables, tx: Tx)
    requires tx.cmd.PatchRound? && tx.pc.AutoResolving?
  {
    && RoundPrepared(t, tx, tx.pc.row, tx.pc.edited) && IsClosing(tx.pc.row, tx.pc.edited)
    && tx.w.rounds == map[] && tx.w.seasons == map[]
    && TargetsInRound(t, tx.pc.targets, tx.cmd.roundId)
  }

  predicate HoldsUndecided(t: Tables, w: Writes, id: int) {
    forall k | k in t.rides :: Undecided(t, t.rides[k], id) ==> k in w.rides
  }

  predicate AllMatchesClosed(t: Tables, id: int) {
    forall m | m in t.matches :: t.matches[m].roundId == id ==> t.matches[m].status == MatchClosed
  }

  /** What the close gate has seen of the round. */
  predicate ClosePassed(t: Tables, w: Writes, id: int, row: Round, written: Round) {
    written.status == RoundClosed && row.status != RoundClosed ==> AllMatchesClosed(t, id) && HoldsUndecided(t, w, id)
  }

  /** Past the gates, before the index: the row is locked, and the close gate's verdict holds. */
  predicate GatedPc(t: Tables, tx: Tx)
    requires tx.cmd.PatchRound? && tx.pc.RoundGated?
  {
    var id, row, edited := tx.cmd.roundId, tx.pc.row, tx.pc.edited;
    && RoundPrepared(t, tx, row, edited) && tx.w.rounds == map[]
    && RoundLock(id) in tx.locks && id in t.rounds && t.rounds[id] == row
    && ClosePassed(t, tx.w, id, row, RoundRowAfter(row, edited))
  }

  predicate AdminPc(t: Tables, tx: Tx)
    requires !IsRideCommand(tx.cmd)
  {
    match tx.pc
    case Start => Idle(tx)
    case Resolving(_) => tx.cmd.ResolveMatch? && Idle(tx)
    case Scored => tx.cmd.ResolveMatch? && ScoreWritten(t, tx) && tx.w.rides == map[]
    case Settling(seen, todo) => tx.cmd.ResolveMatch? && ScoreWritten(t, tx) && SeenAreHeld(t, tx, seen, todo)
    case RoundRead(row, edited) => tx.cmd.PatchRound? && RoundPrepared(t, tx, row, edited) && Idle(tx)
    case RoundBegun(row, edited) => tx.cmd.PatchRound? && RoundPrepared(t, tx, row, edited) && Idle(tx)
    case AutoResolving(_, _, _) => tx.cmd.PatchRound? && AutoPc(t, tx)
    case RoundReady(row, edited) => tx.cmd.PatchRound? && RoundPrepared(t, tx, row, edited) && tx.w.rounds == map[]
    case RoundGated(_, _) => tx.cmd.PatchRound? && GatedPc(t, tx)
    case RoundWritten(row, edited) =>
      tx.cmd.PatchRound? && RoundPrepared(t, tx, row, edited)
          && tx.w.rounds == map[tx.cmd.roundId := RoundRowAfter(row, edited)]
    case MatchRead(m, edited) => tx.cmd.PatchMatch? && Idle(tx) && MatchPrepared(t, tx, m, edited)
    case MatchBegun(m, edited) => tx.cmd.PatchMatch? && Idle(tx) && MatchPrepared(t, tx, m, edited)
    case SeasonRead(season, edited) => tx.cmd.PatchSeason? && Idle(tx) && SeasonPrepared(t, tx, season, edited)
    case SeasonBegun(season, edited) => tx.cmd.PatchSeason? && Idle(tx) && SeasonPrepared(t, tx, season, edited)
    case Ending(_) => !tx.cmd.ResolveMatch? && tx.w.keys == map[]
    case Done(answer) => Idle(tx)
    case _ => false
  }

  predicate PcOk(t: Tables, tx: Tx) {
    if IsRideCommand(tx.cmd) then RidePc(t, tx) else AdminPc(t, tx)
  }

  predicate Sound(t: Tables, tx: Tx) {
    Covered(tx) && WritesOk(t, tx.w)
  }

  predicate TxOk(t: Tables, tx: Tx) {
    Sound(t, tx) && PcOk(t, tx)
  }

  // ---------- adding one write, or none ----------

  /** A move that writes nothing: it refuses, or it only moves on and locks. */
  ghost predicate Quiet(t: Tables, tx: Tx, move: Move) {
    move.Go? ==>
      && PcOk(t, move.tx)
      && move.tx.cmd == tx.cmd
      && move.tx.locks <= tx.locks + move.need
      && (Idle(move.tx) || (move.tx.w == tx.w && tx.locks <= move.tx.locks))
  }

  ghost predicate GoodMove(t: Tables, tx: Tx, move: Move) {
    move.Go? ==> TxOk(t, move.tx) && move.tx.locks <= tx.locks + move.need && move.tx.cmd == tx.cmd
  }

  lemma NothingIsOk(t: Tables, tx: Tx)
    requires tx.w == NOTHING
    ensures Sound(t, tx)
  {
  }

  lemma QuietIsGood(t: Tables, tx: Tx, move: Move)
    requires Sound(t, tx) && Quiet(t, tx, move)
    ensures GoodMove(t, tx, move)
  {
  }

  lemma RefuseIsGood(t: Tables, tx: Tx, need: set<Lock>, e: Error)
    ensures GoodMove(t, tx, Go(need, Refuse(tx, e)))
  {
  }

  lemma KeyWriteIsOk(t: Tables, tx: Tx, key: string, row: KeyRow)
    requires Sound(t, tx) && key !in t.keys && KeyLock(key) in tx.locks
    ensures Sound(t, WriteKey(tx, key, row))
  {
  }

  predicate RideMayBeWritten(t: Tables, w: Writes, id: int, row: Ride) {
    && (if id in t.rides then RideStep(t.rides[id], row) else Newborn(row))
    && row.matchId in t.matches
    && (row.state == Locked ==> ClosedWithRound(t, row.matchId))
    && (row.state in {WonPending, Lost} ==>
          row.matchId in w.matches && t.matches[row.matchId].status != MatchClosed)
  }

  lemma MatchWriteIsOk(t: Tables, tx: Tx, id: int, row: Match)
    requires Sound(t, tx) && MatchLock(id) in tx.locks
    requires id in t.matches && MatchNext(t.matches[id], row) && tx.w.rounds == map[]
    ensures Sound(t, WriteMatch(tx, id, row))
  {
  }

  lemma SeasonWriteIsOk(t: Tables, tx: Tx, id: int, row: Season)
    requires Sound(t, tx) && SeasonLock(id) in tx.locks
    requires id in t.seasons && SeasonNext(t.seasons[id], row)
    ensures Sound(t, WriteSeason(tx, id, row))
  {
  }

  lemma RoundWriteIsOk(t: Tables, tx: Tx, id: int, row: Round)
    requires Sound(t, tx) && RoundLock(id) in tx.locks
    requires id in t.rounds && RoundNext(t.rounds[id], row) && tx.w.matches == map[]
    requires ClosePassed(t, tx.w, id, t.rounds[id], row)
    ensures Sound(t, WriteRoundRow(tx, id, row))
  {
  }

  lemma MoreLocksAreOk(t: Tables, tx: Tx, need: set<Lock>, pc: Pc)
    requires Covered(tx)
    ensures Covered(Take(tx, need, pc)) && Take(tx, need, pc).w == tx.w
  {
  }

  // ---------- a transaction's own step ----------

  lemma ClaimIsGood(t: Tables, tx: Tx)
    requires IsRideCommand(tx.cmd) && Idle(tx)
    ensures GoodMove(t, tx, PlanClaim(t, tx))
  {
  }

  lemma ResolveStartIsQuiet(t: Tables, tx: Tx)
    requires Idle(tx) && tx.cmd.ResolveMatch?
    ensures Quiet(t, tx, PlanResolve(t, tx))
  {
  }

  lemma ReadRoundIsQuiet(t: Tables, tx: Tx)
    requires Idle(tx) && tx.cmd.PatchRound?
    ensures Quiet(t, tx, PlanReadRound(t, tx))
  {
  }

  lemma ReadMatchIsQuiet(t: Tables, tx: Tx)
    requires Idle(tx) && tx.cmd.PatchMatch?
    ensures Quiet(t, tx, PlanReadMatch(t, tx))
  {
  }

  lemma ReadSeasonIsQuiet(t: Tables, tx: Tx)
    requires Idle(tx) && tx.cmd.PatchSeason?
    ensures Quiet(t, tx, PlanReadSeason(t, tx))
  {
  }

  lemma AdminStartIsQuiet(t: Tables, tx: Tx)
    requires Idle(tx) && !IsRideCommand(tx.cmd)
    ensures Quiet(t, tx, PlanStart(t, tx))
  {
    match tx.cmd
    case ResolveMatch(_, _, _, _, _) => ResolveStartIsQuiet(t, tx);
    case PatchRound(_, _, _, _, _) => ReadRoundIsQuiet(t, tx);
    case PatchMatch(_, _, _, _) => ReadMatchIsQuiet(t, tx);
    case PatchSeason(_, _, _) => ReadSeasonIsQuiet(t, tx);
  }

  lemma ReplayIsQuiet(t: Tables, tx: Tx)
    requires IsRideCommand(tx.cmd) && Idle(tx)
    ensures Quiet(t, tx, PlanReplay(t, tx))
  {
  }

  lemma FirstReadIsQuiet(t: Tables, clock: int, tx: Tx)
    requires IsRideCommand(tx.cmd) && ClaimOnly(tx)
    ensures Quiet(t, tx, PlanClaimed(t, clock, tx))
  {
  }

  lemma PhaseIsQuiet(t: Tables, clock: int, tx: Tx)
    requires tx.cmd.DecideRide? && tx.pc.RideRead? && ClaimOnly(tx) && SeenRide(t, tx.cmd.rideId, tx.pc.ride)
    ensures Quiet(t, tx, PlanPhase(t, clock, tx))
  {
  }

  lemma DecideIsQuiet(t: Tables, tx: Tx)
    requires tx.cmd.DecideRide? && tx.pc.PhaseRead? && ClaimOnly(tx) && SeenRide(t, tx.cmd.rideId, tx.pc.ride)
    ensures Quiet(t, tx, PlanDecide(t, tx))
  {
    var destination := Destination(t, tx.cmd.decision, tx.pc.ride.teamId);
    if destination.Ok? && tx.cmd.decision.Continue? {
      NextQualifies(t, tx.pc.ride.teamId);
    }
  }

  lemma UpdateIsQuiet(t: Tables, tx: Tx)
    requires tx.cmd.DecideRide? && tx.pc.Decided? && ClaimOnly(tx)
    requires DecisionMade(t, tx, tx.pc.ride, tx.pc.next, tx.pc.destination)
    ensures Quiet(t, tx, PlanUpdate(t, tx))
  {
  }

  /** The version in the re-checked WHERE makes the written row the successor of the row read. */
  lemma UpdateRowIsGood(t: Tables, tx: Tx)
    requires DbOk(t) && Sound(t, tx) && tx.cmd.DecideRide? && tx.pc.Updating? && ClaimOnly(tx)
    requires DecisionMade(t, tx, tx.pc.ride, tx.pc.next, tx.pc.destination)
    ensures GoodMove(t, tx, PlanUpdateRow(t, tx))
  {
    var id := tx.cmd.rideId;
    var need := {RideLock(id)};
    if !UpdateGuard(tx.pc.snapshot, t.rides[id], tx.pc.next.version, tx.pc.destination) {
      RefuseIsGood(t, tx, need, RoundNotOpen);
    } else {
      assert t.rides[id] == tx.pc.ride;
      var row := UpdatedRow(t.rides[id], tx.pc.next);
      match UpdateRowError(Overlay(t, tx.w), t.rides[id], row)
      case Some(e) => RefuseIsGood(t, tx, need, e);
      case None =>
        DecidedRowMayBeWritten(t, tx, row);
        FirstRideIsGood(t, tx, need, id, tx.pc.at, row);
    }
  }

  /** The one ride row a ride command writes, after its claim. */
  lemma FirstRideIsGood(t: Tables, tx: Tx, need: set<Lock>, id: int, at: int, row: Ride)
    requires Sound(t, tx) && IsRideCommand(tx.cmd) && ClaimOnly(tx)
    requires RideLock(id) in need && RideMayBeWritten(t, tx.w, id, row) && DecidedAs(tx.cmd, id, row)
    ensures GoodMove(t, tx, Go(need, WriteRide(Take(tx, need, Written(id, at)), id, row)))
  {
  }

  lemma DecidedRowMayBeWritten(t: Tables, tx: Tx, row: Ride)
    requires DbOk(t) && tx.cmd.DecideRide? && tx.pc.Updating?
    requires DecisionMade(t, tx, tx.pc.ride, tx.pc.next, tx.pc.destination)
    requires t.rides[tx.cmd.rideId] == tx.pc.ride && row == UpdatedRow(tx.pc.ride, tx.pc.next)
    requires UpdateRowError(Overlay(t, tx.w), tx.pc.ride, row).None?
    ensures RideMayBeWritten(t, tx.w, tx.cmd.rideId, row)
  {
  }

  lemma InsertIsQuiet(t: Tables, tx: Tx)
    requires tx.cmd.CreateRide? && tx.pc.Creating? && ClaimOnly(tx)
        && CreateOf(tx.cmd.ride, ActionPhase) == Ok(tx.pc.ride)
    ensures Quiet(t, tx, PlanInsert(t, tx))
  {
  }

  lemma InsertRowIsGood(t: Tables, tx: Tx, pick: int)
    requires Sound(t, tx) && tx.cmd.CreateRide? && tx.pc.Inserting? && ClaimOnly(tx)
    requires CreateOf(tx.cmd.ride, ActionPhase) == Ok(tx.pc.ride)
    requires tx.pc.ride.matchId in t.matches && ClosedWithRound(t, tx.pc.ride.matchId)
    ensures GoodMove(t, tx, PlanInsertRow(t, tx, pick))
  {
    var move := PlanInsertRow(t, tx, pick);
    if move.Go? {
      if move.tx.pc.Done? {
        QuietIsGood(t, tx, move);
      } else {
        FirstRideIsGood(t, tx, move.need, pick, tx.pc.at, tx.pc.ride.(version := 1));
      }
    }
  }

  lemma SaveIsGood(t: Tables, tx: Tx)
    requires Sound(t, tx) && IsRideCommand(tx.cmd) && tx.pc.Written? && RideWritten(tx, tx.pc.id, PLACEHOLDER)
    ensures GoodMove(t, tx, PlanSave(tx))
  {
    var token, id := tx.cmd.token, tx.pc.id;
    match tx.cmd.marshal(id, tx.w.rides[id])
    case Err(e) => RefuseIsGood(t, tx, {}, e);
    case Ok(response) =>
      var row := tx.w.keys[token.key].(response := response);
      KeyWriteIsOk(t, tx, token.key, row);
      assert tx.w.keys[token.key := row] == map[token.key := row];
  }

  lemma RideMoveIsGood(t: Tables, clock: int, tx: Tx, pick: int)
    requires DbOk(t) && TxOk(t, tx) && IsRideCommand(tx.cmd) && !tx.pc.Start?
    ensures GoodMove(t, tx, PlanRide(t, clock, tx, pick))
  {
    hide DbOk, Sound, DecisionMade, SeenRide, RideWritten, CreateOf;
    var move := PlanRide(t, clock, tx, pick);
    match tx.pc
    case ClaimLost => ReplayIsQuiet(t, tx); QuietIsGood(t, tx, move);
    case Claimed => FirstReadIsQuiet(t, clock, tx); QuietIsGood(t, tx, move);
    case RideRead(_) => PhaseIsQuiet(t, clock, tx); QuietIsGood(t, tx, move);
    case PhaseRead(_, _, _) => DecideIsQuiet(t, tx); QuietIsGood(t, tx, move);
    case Decided(_, _, _, _) => UpdateIsQuiet(t, tx); QuietIsGood(t, tx, move);
    case Updating(_, _, _, _, _) => UpdateRowIsGood(t, tx);
    case Creating(_, _) => InsertIsQuiet(t, tx); QuietIsGood(t, tx, move);
    case Inserting(_, _, _) => InsertRowIsGood(t, tx, pick);
    case Written(_, _) => SaveIsGood(t, tx);
    case _ =>
  }

  lemma ScoreIsGood(t: Tables, tx: Tx, need: set<Lock>, row: Match)
    requires tx.cmd.ResolveMatch? && Idle(tx) && MatchLock(tx.cmd.matchId) in need && tx.cmd.matchId in t.matches
    requires t.matches[tx.cmd.matchId].status == MatchInProgress && row.status == MatchClosed
        && MatchNext(t.matches[tx.cmd.matchId], row)
    ensures GoodMove(t, tx, Go(need, WriteMatch(Take(tx, need, Scored), tx.cmd.matchId, row)))
  {
  }

  lemma ResolveRowIsGood(t: Tables, tx: Tx)
    requires tx.cmd.ResolveMatch? && tx.pc.Resolving? && Idle(tx)
    ensures GoodMove(t, tx, PlanResolveRow(t, tx))
  {
    var m, need := tx.cmd.matchId, {MatchLock(tx.cmd.matchId)};
    if m !in t.matches || !ResolveGuard(tx.pc.snapshot, tx.now, t.matches[m], tx.cmd.version) {
      RefuseIsGood(t, tx, need, ResolveRefusal(t, m));
    } else {
      var row := ResolvedRow(tx.now, t.matches[m], tx.cmd.home, tx.cmd.away, tx.cmd.endedAt);
      if MatchRowOk(row) {
        ScoreIsGood(t, tx, need, row);
      } else {
        RefuseIsGood(t, tx, need, ConstraintViolation);
      }
    }
  }

  lemma SettleIsQuiet(t: Tables, tx: Tx)
    requires tx.cmd.ResolveMatch? && tx.pc.Scored? && ScoreWritten(t, tx) && tx.w.rides == map[]
    ensures Quiet(t, tx, PlanSettle(t, tx))
  {
  }

  lemma SettledRowMayBeWritten(t: Tables, tx: Tx, id: int)
    requires DbOk(t) && tx.cmd.ResolveMatch? && WritesOk(t, tx.w) && tx.w.matches.Keys == {tx.cmd.matchId}
    requires tx.cmd.matchId in t.matches && t.matches[tx.cmd.matchId].status == MatchInProgress
    requires id in t.rides && Statements.OnMatch(t.rides[id], tx.cmd.matchId)
    requires RideUpdateAllowed(Overlay(t, tx.w), t.rides[id], SettledRow(tx.w.matches[tx.cmd.matchId], t.rides[id]))
    ensures RideMayBeWritten(t, tx.w, id, SettledRow(tx.w.matches[tx.cmd.matchId], t.rides[id]))
  {
  }

  lemma SettledWriteIsGood(t: Tables, tx: Tx, need: set<Lock>, seen: set<int>, todo: set<int>, id: int)
    requires Sound(t, tx) && tx.cmd.ResolveMatch? && ScoreWritten(t, tx) && SeenAreHeld(t, tx, seen, todo)
    requires RideLock(id) in need && id in todo
    requires RideMayBeWritten(t, tx.w, id, SettledRow(tx.w.matches[tx.cmd.matchId], t.rides[id]))
    ensures var row := SettledRow(tx.w.matches[tx.cmd.matchId], t.rides[id]);
      GoodMove(t, tx, Go(need, WriteRide(Take(tx, need, Settling(seen, todo - {id})), id, row)))
  {
    var next := WriteRide(Take(tx, need, Settling(seen, todo - {id})), id,
        SettledRow(tx.w.matches[tx.cmd.matchId], t.rides[id]));
    assert ScoreWritten(t, next) && SeenAreHeld(t, next, seen, todo - {id});
  }

  /** A ride the settlement saw cannot have left the match: it would have been settled
      under a score that this transaction holds. */
  lemma SettleRowIsGood(t: Tables, tx: Tx, pick: int)
    requires DbOk(t) && Sound(t, tx) && tx.cmd.ResolveMatch? && tx.pc.Settling? && ScoreWritten(t, tx)
    requires SeenAreHeld(t, tx, tx.pc.seen, tx.pc.todo)
    ensures GoodMove(t, tx, PlanSettleRow(t, tx, pick))
  {
    if pick in tx.pc.todo {
      var m, need := tx.cmd.matchId, {RideLock(pick)};
      assert Statements.OnMatch(t.rides[pick], m);
      if !RideUpdateAllowed(Overlay(t, tx.w), t.rides[pick], SettledRow(tx.w.matches[m], t.rides[pick])) {
        RefuseIsGood(t, tx, need, InvalidTransition);
      } else {
        SettledRowMayBeWritten(t, tx, pick);
        SettledWriteIsGood(t, tx, need, tx.pc.seen, tx.pc.todo, pick);
      }
    }
  }

  /** Moving a round patch on, with more locks and the same writes. */
  lemma RoundMovesOn(t: Tables, tx: Tx, need: set<Lock>, row: Round, edited: Round, pc: Pc)
    requires Sound(t, tx) && tx.cmd.PatchRound? && RoundPrepared(t, tx, row, edited)
    requires tx.w.rounds == map[] && tx.w.seasons == map[]
    requires || pc == RoundReady(row, edited)
             || (pc.AutoResolving? && AdminPc(t, Take(tx, need, pc)))
    ensures GoodMove(t, tx, Go(need, Take(tx, need, pc)))
  {
  }

  lemma AutoResolvingHolds(t: Tables, tx: Tx, row: Round, edited: Round, targets: map<int, int>)
    requires tx.cmd.PatchRound? && RoundPrepared(t, tx, row, edited) && IsClosing(row, edited)
    requires tx.w.rounds == map[] && tx.w.seasons == map[] && TargetsInRound(t, targets, tx.cmd.roundId)
    ensures forall locks :: AdminPc(t, tx.(pc := AutoResolving(row, edited, targets), locks := locks))
  {
  }

  lemma OpeningFlipIsGood(t: Tables, tx: Tx, need: set<Lock>, row: Round, edited: Round)
    requires DbOk(t) && tx.cmd.PatchRound? && Idle(tx) && RoundPrepared(t, tx, row, edited)
    requires need == {SeasonLock(edited.seasonId)} && SeasonAt(t, edited.seasonId, SeasonOpen)
    ensures var s := edited.seasonId;
      GoodMove(t, tx, Go(need, WriteSeason(Take(tx, need, RoundReady(row, edited)), s,
          Season(SeasonInProgress, t.seasons[s].version + 1))))
  {
  }

  lemma DispatchIsGood(t: Tables, tx: Tx)
    requires DbOk(t) && tx.cmd.PatchRound? && tx.pc.RoundBegun? && Idle(tx)
        && RoundPrepared(t, tx, tx.pc.row, tx.pc.edited)
    ensures GoodMove(t, tx, PlanDispatch(t, tx))
  {
    hide DbOk, Sound, AutoResolved, SeenRound;
    var row, edited, id := tx.pc.row, tx.pc.edited, tx.cmd.roundId;
    if IsOpening(row, edited) && SeasonAt(t, edited.seasonId, SeasonOpen) {
      OpeningFlipIsGood(t, tx, {SeasonLock(edited.seasonId)}, row, edited);
    } else {
      var pc := PlanDispatch(t, tx).tx.pc;
      assert PlanDispatch(t, tx) == At(tx, pc) && Take(tx, {}, pc) == tx.(pc := pc);
      if pc.AutoResolving? {
        AutoResolvingHolds(t, tx, row, edited, pc.targets);
      }
      RoundMovesOn(t, tx, {}, row, edited, pc);
    }
  }

  lemma AutoRowMayBeWritten(t: Tables, tx: Tx, number: int, id: int)
    requires DbOk(t) && id in t.rides && t.rides[id].state == WonPending
    requires RideUpdateAllowed(Overlay(t, tx.w), t.rides[id], AutoRow(number, t.rides[id]))
    ensures RideMayBeWritten(t, tx.w, id, AutoRow(number, t.rides[id]))
  {
  }

  lemma AutoWriteIsGood(t: Tables, tx: Tx, need: set<Lock>, row: Round, edited: Round, targets: map<int, int>, id: int)
    requires Sound(t, tx) && tx.cmd.PatchRound? && RoundPrepared(t, tx, row, edited) && IsClosing(row, edited)
    requires tx.w.rounds == map[] && tx.w.seasons == map[] && TargetsInRound(t, targets, tx.cmd.roundId)
    requires RideLock(id) in need && id in t.rides && Undecided(t, t.rides[id], tx.cmd.roundId)
    requires RideMayBeWritten(t, tx.w, id, AutoRow(edited.number, t.rides[id]))
    ensures var written := AutoRow(edited.number, t.rides[id]);
      GoodMove(t, tx, Go(need, WriteRide(Take(tx, need, AutoResolving(row, edited, targets)), id, written)))
  {
  }

  lemma AutoRowIsGood(t: Tables, tx: Tx, pick: int)
    requires DbOk(t) && Sound(t, tx) && tx.cmd.PatchRound? && tx.pc.AutoResolving? && AutoPc(t, tx)
    ensures GoodMove(t, tx, PlanAutoRow(t, tx, pick))
  {
    var row, edited, targets, id := tx.pc.row, tx.pc.edited, tx.pc.targets, tx.cmd.roundId;
    if targets == map[] {
      assert Take(tx, {}, RoundReady(row, edited)) == tx.(pc := RoundReady(row, edited));
      RoundMovesOn(t, tx, {}, row, edited, RoundReady(row, edited));
    } else if pick in targets {
      var need, rest := {RideLock(pick)}, targets - {pick};
      if pick !in t.rides || t.rides[pick].state != WonPending || t.rides[pick].matchId != targets[pick] {
        AutoResolvingHolds(t, tx, row, edited, rest);
        RoundMovesOn(t, tx, need, row, edited, AutoResolving(row, edited, rest));
      } else if !RideUpdateAllowed(Overlay(t, tx.w), t.rides[pick], AutoRow(edited.number, t.rides[pick])) {
        RefuseIsGood(t, tx, need, InvalidTransition);
      } else {
        AutoRowMayBeWritten(t, tx, edited.number, pick);
        AutoWriteIsGood(t, tx, need, row, edited, rest, pick);
      }
    }
  }

  /** The close gate, run at the flip, leaves no undecided ride the transaction does not hold. */
  lemma GateHoldsUndecided(t: Tables, tx: Tx, id: int, row: Round, written: Round)
    requires DbOk(t) && id in t.rounds && t.rounds[id] == row && tx.w.matches == map[]
    requires RoundCloseAllows(Overlay(t, tx.w), id, row, written)
    ensures ClosePassed(t, tx.w, id, row, written)
  {
  }

  lemma RoundRowIsGood(t: Tables, tx: Tx)
    requires DbOk(t) && Sound(t, tx) && tx.cmd.PatchRound? && tx.pc.RoundReady? && tx.w.rounds == map[]
    requires RoundPrepared(t, tx, tx.pc.row, tx.pc.edited)
    ensures GoodMove(t, tx, PlanRoundRow(t, tx))
  {
    var id, row, edited := tx.cmd.roundId, tx.pc.row, tx.pc.edited;
    if t.rounds[id].version != edited.version {
      RefuseIsGood(t, tx, {}, EditConflict);
    } else {
      assert t.rounds[id] == row;
      var need := {RoundLock(id), NumberSlot(row.seasonId, row.number)};
      match RoundGateError(Overlay(t, tx.w), tx.now, id, row, RoundRowAfter(row, edited))
      case Some(e) => RefuseIsGood(t, tx, need, e);
      case None =>
        GateHoldsUndecided(t, tx, id, row, RoundRowAfter(row, edited));
        MoreLocksAreOk(t, tx, need, RoundGated(row, edited));
    }
  }

  lemma RoundIndexIsGood(t: Tables, tx: Tx)
    requires DbOk(t) && Sound(t, tx) && tx.cmd.PatchRound? && tx.pc.RoundGated? && GatedPc(t, tx)
    ensures GoodMove(t, tx, PlanRoundIndex(t, tx))
  {
    var id, row, edited := tx.cmd.roundId, tx.pc.row, tx.pc.edited;
    var need, written := {NumberSlot(row.seasonId, edited.number)}, RoundRowAfter(row, edited);
    if NumberTaken(t.rounds, id, row.seasonId, edited.number) {
      RefuseIsGood(t, tx, need, DuplicateRecord);
    } else {
      var held := Take(tx, need, RoundWritten(row, edited));
      MoreLocksAreOk(t, tx, need, RoundWritten(row, edited));
      RoundWriteIsOk(t, held, id, written);
      var next := WriteRoundRow(held, id, written);
      assert next.w.rounds == map[id := written];
      assert RoundPrepared(t, next, row, edited);
    }
  }

  lemma EndingIsGood(t: Tables, tx: Tx, need: set<Lock>, next: Tx)
    requires Sound(t, next) && next.pc.Ending? && next.w.keys == map[] && !IsRideCommand(tx.cmd)
        && !tx.cmd.ResolveMatch?
    requires next.cmd == tx.cmd && next.locks <= tx.locks + need
    ensures GoodMove(t, tx, Go(need, next))
  {
  }

  lemma RoundEndIsGood(t: Tables, tx: Tx)
    requires DbOk(t) && Sound(t, tx) && tx.cmd.PatchRound? && tx.pc.RoundWritten?
        && RoundPrepared(t, tx, tx.pc.row, tx.pc.edited)
    ensures GoodMove(t, tx, PlanRoundEnd(t, tx))
  {
    hide DbOk, AutoResolved;
    var edited := tx.pc.edited;
    var s := edited.seasonId;
    var pc := Ending(RoundReply(RoundRowAfter(tx.pc.row, edited)));
    if IsClosing(tx.pc.row, edited) && edited.number == ROUNDS_PER_SEASON && SeasonAt(t, s, SeasonInProgress) {
      var need, closed := {SeasonLock(s)}, Season(SeasonClosed, t.seasons[s].version + 1);
      MoreLocksAreOk(t, tx, need, pc);
      SeasonWriteIsOk(t, Take(tx, need, pc), s, closed);
      EndingIsGood(t, tx, need, WriteSeason(Take(tx, need, pc), s, closed));
    } else {
      EndingIsGood(t, tx, {}, tx.(pc := pc));
    }
  }

  lemma MatchRowIsGood(t: Tables, tx: Tx)
    requires DbOk(t) && tx.cmd.PatchMatch? && tx.pc.MatchBegun? && Idle(tx)
        && MatchPrepared(t, tx, tx.pc.m, tx.pc.editedMatch)
    ensures GoodMove(t, tx, PlanMatchRow(t, tx))
  {
    var id, edited := tx.cmd.editedId, tx.pc.editedMatch;
    if t.matches[id].version != edited.version {
      RefuseIsGood(t, tx, {}, EditConflict);
    } else {
      assert t.matches[id] == tx.pc.m;
      var need, written := {MatchLock(id)}, EditedRow(tx.now, t.matches[id], edited);
      var held := Take(tx, need, Ending(MatchReply(written)));
      match EditRowError(tx.now, t.matches[id], written)
      case Some(e) => RefuseIsGood(t, tx, need, e);
      case None =>
        assert MatchNext(t.matches[id], written);
        NothingIsOk(t, held);
        MatchWriteIsOk(t, held, id, written);
        EndingIsGood(t, tx, need, WriteMatch(held, id, written));
    }
  }

  lemma SeasonRowIsGood(t: Tables, tx: Tx)
    requires tx.cmd.PatchSeason? && tx.pc.SeasonBegun? && Idle(tx)
        && SeasonPrepared(t, tx, tx.pc.season, tx.pc.editedSeason)
    ensures GoodMove(t, tx, PlanSeasonRow(t, tx))
  {
    var id, edited := tx.cmd.seasonId, tx.pc.editedSeason;
    if t.seasons[id].version != edited.version {
      RefuseIsGood(t, tx, {}, EditConflict);
    } else {
      assert t.seasons[id] == tx.pc.season;
      var need, written := {SeasonLock(id)}, Season(edited.status, t.seasons[id].version + 1);
      if !SeasonUpdateAllowed(t, tx.now, id, written) {
        RefuseIsGood(t, tx, need, RecordInUse);
      } else {
        var held := Take(tx, need, Ending(SeasonReply(written)));
        NothingIsOk(t, held);
        SeasonWriteIsOk(t, held, id, written);
        EndingIsGood(t, tx, need, WriteSeason(held, id, written));
      }
    }
  }

  /** The transaction, or the one statement, begins: its now() is the clock at that moment. */
  lemma BeginIsQuiet(t: Tables, clock: int, tx: Tx)
    requires HasRead(tx) && AdminPc(t, tx)
    ensures Quiet(t, tx, PlanBegin(clock, tx))
  {
  }

  predicate HasRead(tx: Tx) {
    !IsRideCommand(tx.cmd) && (tx.pc.RoundRead? || tx.pc.MatchRead? || tx.pc.SeasonRead?)
  }

  lemma AdminMoveIsGood(t: Tables, clock: int, tx: Tx, pick: int)
    requires DbOk(t) && TxOk(t, tx) && !IsRideCommand(tx.cmd) && !tx.pc.Start?
    ensures GoodMove(t, tx, PlanAdmin(t, clock, tx, pick))
  {
    hide DbOk, Sound, AutoResolved, SettledRides;
    match tx.pc
    case Resolving(_) => ResolveRowIsGood(t, tx);
    case Scored => SettleIsQuiet(t, tx); QuietIsGood(t, tx, PlanSettle(t, tx));
    case Settling(_, _) => SettleRowIsGood(t, tx, pick);
    case RoundRead(_, _) => BeginIsQuiet(t, clock, tx); QuietIsGood(t, tx, PlanBegin(clock, tx));
    case RoundBegun(_, _) => DispatchIsGood(t, tx);
    case AutoResolving(_, _, _) => AutoRowIsGood(t, tx, pick);
    case RoundReady(_, _) => RoundRowIsGood(t, tx);
    case RoundGated(_, _) => RoundIndexIsGood(t, tx);
    case RoundWritten(_, _) => RoundEndIsGood(t, tx);
    case MatchRead(_, _) => BeginIsQuiet(t, clock, tx); QuietIsGood(t, tx, PlanBegin(clock, tx));
    case MatchBegun(_, _) => MatchRowIsGood(t, tx);
    case SeasonRead(_, _) => BeginIsQuiet(t, clock, tx); QuietIsGood(t, tx, PlanBegin(clock, tx));
    case SeasonBegun(_, _) => SeasonRowIsGood(t, tx);
    case _ =>
  }

  lemma MoveIsGood(t: Tables, clock: int, tx: Tx, pick: int)
    requires DbOk(t) && TxOk(t, tx)
    ensures GoodMove(t, tx, Plan(t, clock, tx, pick))
  {
    if tx.pc.Start? {
      if IsRideCommand(tx.cmd) {
        ClaimIsGood(t, tx);
      } else {
        AdminStartIsQuiet(t, tx);
        QuietIsGood(t, tx, PlanStart(t, tx));
      }
    } else if IsRideCommand(tx.cmd) {
      RideMoveIsGood(t, clock, tx, pick);
    } else {
      AdminMoveIsGood(t, clock, tx, pick);
    }
  }
}
