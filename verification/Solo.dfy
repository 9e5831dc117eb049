/** A transaction whose steps no other commit and no tick of the clock comes between does
    what its command does alone: the statements together are the command, refusals and all.
    And only a lock ever holds a transaction up. */
module Solo {
  import opened Collections
  import opened Model
  import opened Gates
  import opened Rides
  import opened Statements
  import opened Commands
  import opened Interleaving
  import opened Safety
  import opened Stability
  import Steps
  import Facts

  // ---------- what a transaction has read, while the tables and the clock stand still ----------

  predicate Unclaimed(t: Tables, tx: Tx)
    requires IsRideCommand(tx.cmd)
  {
    tx.cmd.token.key !in t.keys && ClaimOnly(tx)
  }

  predicate ReadRide(t: Tables, tx: Tx, ride: Ride) {
    tx.cmd.DecideRide? && tx.cmd.rideId in t.rides && t.rides[tx.cmd.rideId] == ride
  }

  predicate ReadPhase(t: Tables, clock: int, matchId: int, phase: RoundPhase, at: int) {
    at == clock && RidePhase(t, clock, matchId) == Ok(phase)
  }

  predicate HasDecided(t: Tables, clock: int, tx: Tx, ride: Ride, next: Ride, destination: int, at: int) {
    && ReadRide(t, tx, ride) && at == clock && RidePhase(t, clock, ride.matchId).Ok?
    && Destination(t, tx.cmd.decision, ride.teamId) == Ok(destination)
    && DecisionOf(tx.cmd.decision, ride, RidePhase(t, clock, ride.matchId).value, destination) == Ok(next)
  }

  predicate HasCreated(t: Tables, clock: int, tx: Tx, ride: Ride, at: int) {
    && tx.cmd.CreateRide? && at == clock && RidePhase(t, clock, tx.cmd.ride.matchId).Ok?
    && CreateOf(tx.cmd.ride, RidePhase(t, clock, tx.cmd.ride.matchId).value) == Ok(ride)
  }

  function Claiming(t: Tables, token: Token): Tables {
    PutKey(t, token.key, ClaimRow(token))
  }

  /** The row a ride command has written is the one its statement writes at once. */
  predicate IsPlaced(t: Tables, clock: int, cmd: Command, id: int, row: Ride)
    requires IsRideCommand(cmd)
  {
    var claimed := Claiming(t, cmd.token);
    match cmd
    case CreateRide(input, _, _) =>
      && RidePhase(t, clock, input.matchId).Ok?
      && CreateOf(input, RidePhase(t, clock, input.matchId).value).Ok?
      && InsertGuarded(claimed, id, CreateOf(input, RidePhase(t, clock, input.matchId).value).value)
          == Ok(PutRide(claimed, id, row))
    case DecideRide(decision, rideId, _, _) =>
      && id == rideId && id in t.rides && RidePhase(t, clock, t.rides[id].matchId).Ok?
      && Destination(t, decision, t.rides[id].teamId).Ok?
      && var destination := Destination(t, decision, t.rides[id].teamId).value;
         var next := DecisionOf(decision, t.rides[id], RidePhase(t, clock, t.rides[id].matchId).value, destination);
         next.Ok? && UpdateGuarded(claimed, id, next.value, destination) == Ok(PutRide(claimed, id, row))
  }

  predicate HasPlaced(t: Tables, clock: int, tx: Tx, id: int, at: int, response: Response)
    requires IsRideCommand(tx.cmd)
  {
    && at == clock && tx.cmd.token.key !in t.keys && id in tx.w.rides
    && tx.w == NOTHING.(rides := map[id := tx.w.rides[id]],
                        keys := map[tx.cmd.token.key := ClaimRow(tx.cmd.token).(response := response)])
    && IsPlaced(t, clock, tx.cmd, id, tx.w.rides[id])
  }

  predicate AloneRide(t: Tables, clock: int, tx: Tx)
    requires IsRideCommand(tx.cmd)
  {
    match tx.pc
    case Start => Idle(tx)
    case ClaimLost => tx.cmd.token.key in t.keys
    case Claimed => Unclaimed(t, tx)
    case RideRead(ride) => Unclaimed(t, tx) && ReadRide(t, tx, ride)
    case PhaseRead(ride, phase, at) =>
      Unclaimed(t, tx) && ReadRide(t, tx, ride) && ReadPhase(t, clock, ride.matchId, phase, at)
    case Decided(ride, next, destination, at) => Unclaimed(t, tx)
        && HasDecided(t, clock, tx, ride, next, destination, at)
    case Updating(ride, next, destination, at, snapshot) =>
      && Unclaimed(t, tx) && HasDecided(t, clock, tx, ride, next, destination, at)
      && snapshot == t && UpdateGuard(t, ride, next.version, destination)
    case Creating(ride, at) => Unclaimed(t, tx) && HasCreated(t, clock, tx, ride, at)
    case Inserting(ride, at, roundId) =>
      && Unclaimed(t, tx) && HasCreated(t, clock, tx, ride, at)
      && RoundOpenFor(t, ride.matchId) && roundId == t.matches[ride.matchId].roundId
    case Written(id, at) => HasPlaced(t, clock, tx, id, at, PLACEHOLDER)
    case Saved(id, at, response) =>
      HasPlaced(t, clock, tx, id, at, response) && tx.cmd.marshal(id, tx.w.rides[id]) == Ok(response)
    case _ => false
  }

  // ---------- admin commands ----------

  predicate HasScored(t: Tables, tx: Tx)
    requires tx.cmd.ResolveMatch?
  {
    var m := tx.cmd.matchId;
    && m in t.matches && ResolveGuard(t, tx.now, t.matches[m], tx.cmd.version)
    && var row := ResolvedRow(tx.now, t.matches[m], tx.cmd.home, tx.cmd.away, tx.cmd.endedAt);
       MatchRowOk(row) && tx.w == NOTHING.(matches := map[m := row], rides := tx.w.rides)
  }

  /** Every locked ride of the match is settled under the score, as the gate allows, or yet to be. */
  ghost predicate HasSettled(t: Tables, tx: Tx, seen: set<int>, todo: set<int>)
    requires tx.cmd.ResolveMatch?
  {
    var m := tx.cmd.matchId;
    && m in tx.w.matches
    && (forall id :: id in seen <==> id in t.rides && Statements.OnMatch(t.rides[id], m))
    && (forall id :: id in todo ==> id in seen)
    && (forall id :: id in tx.w.rides <==> id in seen && id !in todo)
    && (forall id | id in tx.w.rides ::
          && tx.w.rides[id] == SettledRow(tx.w.matches[m], t.rides[id])
          && RideUpdateAllowed(PutMatch(t, m, tx.w.matches[m]), t.rides[id], tx.w.rides[id]))
  }

  predicate HasReadRound(t: Tables, tx: Tx, row: Round, edited: Round) {
    && tx.cmd.PatchRound? && 1 <= tx.cmd.roundId && tx.cmd.roundId in t.rounds
    && t.rounds[tx.cmd.roundId] == row && PrepareRound(tx.cmd, row) == Ok(edited)
  }

  /** The seasons an opening writes before its round. */
  predicate HasFlipped(t: Tables, tx: Tx, row: Round, edited: Round) {
    tx.w.seasons == if IsOpening(row, edited) && SeasonAt(t, edited.seasonId, SeasonOpen)
      then map[edited.seasonId := Season(SeasonInProgress, t.seasons[edited.seasonId].version + 1)] else map[]
  }

  /** The rides of a closing round are resolved, but for those yet to be. */
  ghost predicate HasResolved(t: Tables, tx: Tx, row: Round, edited: Round, todo: map<int, int>)
    requires tx.cmd.PatchRound?
  {
    if IsClosing(row, edited) then
      && (forall id :: id in todo ==> id in t.rides && Undecided(t, t.rides[id], tx.cmd.roundId)
                                      && todo[id] == t.rides[id].matchId)
      && (forall id :: id in tx.w.rides <==>
            id in t.rides && Undecided(t, t.rides[id], tx.cmd.roundId) && id !in todo)
      && (forall id | id in tx.w.rides :: tx.w.rides[id] == AutoRow(edited.number, t.rides[id]))
    else
      tx.w.rides == map[] && todo == map[]
  }

  ghost predicate BeforeRound(t: Tables, tx: Tx, row: Round, edited: Round) {
    && HasReadRound(t, tx, row, edited) && HasFlipped(t, tx, row, edited)
    && HasResolved(t, tx, row, edited, map[])
  }

  ghost predicate HasPassed(t: Tables, tx: Tx, row: Round, edited: Round) {
    && BeforeRound(t, tx, row, edited)
    && RoundGateError(Overlay(t, tx.w.(rounds := map[])), tx.now, tx.cmd.roundId, row, RoundRowAfter(row, edited)).None?
  }

  predicate HasReadMatch(t: Tables, tx: Tx, m: Match, edited: Match) {
    && tx.cmd.PatchMatch? && Idle(tx) && 1 <= tx.cmd.editedId && tx.cmd.editedId in t.matches
    && t.matches[tx.cmd.editedId] == m && PrepareMatch(tx.cmd, m) == Ok(edited) && TeamsExist(t, edited)
  }

  predicate HasReadSeason(t: Tables, tx: Tx, season: Season, edited: Season) {
    && tx.cmd.PatchSeason? && Idle(tx) && 1 <= tx.cmd.seasonId && tx.cmd.seasonId in t.seasons
    && t.seasons[tx.cmd.seasonId] == season && PrepareSeason(tx.cmd, season) == Ok(edited)
  }

  predicate OnlyRidesAndSeasons(w: Writes) {
    w == NOTHING.(rides := w.rides, seasons := w.seasons)
  }

  ghost predicate AloneAdmin(t: Tables, tx: Tx)
    requires !IsRideCommand(tx.cmd)
  {
    match tx.pc
    case Start => Idle(tx)
    case Resolving(snapshot) => tx.cmd.ResolveMatch? && Idle(tx) && snapshot == t && tx.cmd.matchId in t.matches
        && ResolveGuard(t, tx.now, t.matches[tx.cmd.matchId], tx.cmd.version)
    case Scored => tx.cmd.ResolveMatch? && HasScored(t, tx) && tx.w.rides == map[]
    case Settling(seen, todo) => tx.cmd.ResolveMatch? && HasScored(t, tx) && HasSettled(t, tx, seen, todo)
    case RoundRead(row, edited) => HasReadRound(t, tx, row, edited) && Idle(tx)
    case RoundBegun(row, edited) => HasReadRound(t, tx, row, edited) && Idle(tx)
    case AutoResolving(row, edited, targets) => tx.cmd.PatchRound?
        && HasReadRound(t, tx, row, edited) && IsClosing(row, edited)
        && tx.w == NOTHING.(rides := tx.w.rides) && HasResolved(t, tx, row, edited, targets)
    case RoundReady(row, edited) => OnlyRidesAndSeasons(tx.w) && BeforeRound(t, tx, row, edited)
    case RoundGated(row, edited) => OnlyRidesAndSeasons(tx.w) && HasPassed(t, tx, row, edited)
    case RoundWritten(row, edited) => tx.cmd.PatchRound? && HasPassed(t, tx, row, edited)
        && OnlyRidesAndSeasons(tx.w.(rounds := map[]))
        && tx.w.rounds == map[tx.cmd.roundId := RoundRowAfter(row, edited)]
        && !NumberTaken(t.rounds, tx.cmd.roundId, row.seasonId, edited.number)
    case MatchRead(m, edited) => HasReadMatch(t, tx, m, edited)
    case MatchBegun(m, edited) => HasReadMatch(t, tx, m, edited)
    case SeasonRead(season, edited) => HasReadSeason(t, tx, season, edited)
    case SeasonBegun(season, edited) => HasReadSeason(t, tx, season, edited)
    case Ending(reply) => !tx.cmd.ResolveMatch? && RunsTo(t, tx.cmd, tx.now, Overlay(t, tx.w), Ok(reply))
    case _ => false
  }

  /** The command alone, for some identity it may draw, leaves these tables and answers this. */
  ghost predicate RunsTo(t: Tables, cmd: Command, now: int, u: Tables, answer: Result<Reply>) {
    exists id :: Run(t, cmd, now, id) == Outcome(u, answer)
  }

  ghost predicate OnItsOwn(t: Tables, clock: int, tx: Tx) {
    && tx.now == clock
    && (if tx.pc.Done? then RunsTo(t, tx.cmd, clock, t, tx.pc.answer)
        else if IsRideCommand(tx.cmd) then AloneRide(t, clock, tx)
        else AloneAdmin(t, tx))
  }

  // ---------- each step of a ride command ----------

  lemma Refuses(t: Tables, clock: int, tx: Tx, e: Error)
    requires tx.now == clock && Run(t, tx.cmd, clock, 0) == Outcome(t, Err(e))
    ensures OnItsOwn(t, clock, Refuse(tx, e))
  {
  }

  lemma ClaimSteps(t: Tables, clock: int, tx: Tx)
    requires tx.now == clock && IsRideCommand(tx.cmd) && Idle(tx) && tx.pc.Start?
    ensures PlanClaim(t, tx).Go? ==> OnItsOwn(t, clock, PlanClaim(t, tx).tx)
  {
  }

  lemma ReplaySteps(t: Tables, clock: int, tx: Tx)
    requires tx.now == clock && IsRideCommand(tx.cmd) && tx.pc.ClaimLost? && AloneRide(t, clock, tx)
    ensures PlanReplay(t, tx).Go? ==> OnItsOwn(t, clock, PlanReplay(t, tx).tx)
  {
    Facts.ReplayChangesNothing(t, tx.cmd, clock, 0);
    assert Run(t, tx.cmd, clock, 0).t == t;
  }

  /** The reads of a creation, or the first of a decision. */
  lemma ClaimedSteps(t: Tables, clock: int, tx: Tx)
    requires tx.now == clock && IsRideCommand(tx.cmd) && tx.pc.Claimed? && AloneRide(t, clock, tx)
    ensures PlanClaimed(t, clock, tx).Go? ==> OnItsOwn(t, clock, PlanClaimed(t, clock, tx).tx)
  {
    var next := PlanClaimed(t, clock, tx);
    if next.Go? && next.tx.pc.Done? {
      Refuses(t, clock, tx, next.tx.pc.answer.error);
    }
  }

  lemma PhaseSteps(t: Tables, clock: int, tx: Tx)
    requires tx.now == clock && IsRideCommand(tx.cmd) && tx.pc.RideRead? && AloneRide(t, clock, tx)
    ensures OnItsOwn(t, clock, PlanPhase(t, clock, tx).tx)
  {
    var next := PlanPhase(t, clock, tx);
    if next.tx.pc.Done? {
      Refuses(t, clock, tx, next.tx.pc.answer.error);
    }
  }

  lemma DecideSteps(t: Tables, clock: int, tx: Tx)
    requires tx.now == clock && tx.cmd.DecideRide? && tx.pc.PhaseRead? && AloneRide(t, clock, tx)
    ensures OnItsOwn(t, clock, PlanDecide(t, tx).tx)
  {
    var next := PlanDecide(t, tx);
    if next.tx.pc.Done? {
      Refuses(t, clock, tx, next.tx.pc.answer.error);
    }
  }

  lemma DecidedRuns(t: Tables, clock: int, tx: Tx, ride: Ride, next: Ride, destination: int, e: Error)
    requires tx.cmd.DecideRide? && tx.cmd.token.key !in t.keys
    requires HasDecided(t, clock, tx, ride, next, destination, clock)
    requires UpdateGuarded(Claiming(t, tx.cmd.token), tx.cmd.rideId, next, destination) == Err(e)
    ensures Run(t, tx.cmd, clock, 0) == Outcome(t, Err(e))
  {
  }

  lemma UpdateSteps(t: Tables, clock: int, tx: Tx)
    requires tx.now == clock && tx.cmd.DecideRide? && tx.pc.Decided? && AloneRide(t, clock, tx)
    ensures OnItsOwn(t, clock, PlanUpdate(t, tx).tx)
  {
    if PlanUpdate(t, tx).tx.pc.Done? {
      DecidedRuns(t, clock, tx, tx.pc.ride, tx.pc.next, tx.pc.destination, RoundNotOpen);
      Refuses(t, clock, tx, RoundNotOpen);
    }
  }

  lemma DecidedIsPlaced(t: Tables, clock: int, tx: Tx, ride: Ride, next: Ride, destination: int)
    requires tx.cmd.DecideRide? && tx.cmd.token.key !in t.keys && tx.w.matches == map[]
    requires HasDecided(t, clock, tx, ride, next, destination, clock) && UpdateGuard(t, ride, next.version, destination)
    ensures var claimed, row := Claiming(t, tx.cmd.token), UpdatedRow(ride, next);
      match UpdateRowError(Overlay(t, tx.w), ride, row)
      case Some(e) => UpdateGuarded(claimed, tx.cmd.rideId, next, destination) == Err(e)
      case None => IsPlaced(t, clock, tx.cmd, tx.cmd.rideId, row)
  {
    hide RidePhase, Destination, DecisionOf, RideRowChange;
    assert Overlay(t, tx.w).matches == t.matches;
  }

  lemma UpdateRowSteps(t: Tables, clock: int, tx: Tx)
    requires tx.now == clock && tx.cmd.DecideRide? && tx.pc.Updating? && AloneRide(t, clock, tx)
    ensures OnItsOwn(t, clock, PlanUpdateRow(t, tx).tx)
  {
    hide UpdateRowError, UpdateGuarded, IsPlaced, UpdatedRow, Overlay, Run;
    DecidedIsPlaced(t, clock, tx, tx.pc.ride, tx.pc.next, tx.pc.destination);
    match UpdateRowError(Overlay(t, tx.w), tx.pc.ride, UpdatedRow(tx.pc.ride, tx.pc.next))
    case Some(e) =>
      DecidedRuns(t, clock, tx, tx.pc.ride, tx.pc.next, tx.pc.destination, e);
      Refuses(t, clock, tx, e);
    case None =>
  }

  lemma CreatedRuns(t: Tables, clock: int, tx: Tx, ride: Ride, id: int, e: Error)
    requires tx.cmd.CreateRide? && tx.cmd.token.key !in t.keys && HasCreated(t, clock, tx, ride, clock)
    requires InsertGuarded(Claiming(t, tx.cmd.token), id, ride) == Err(e)
    ensures Run(t, tx.cmd, clock, id) == Outcome(t, Err(e))
  {
  }

  lemma InsertSteps(t: Tables, clock: int, tx: Tx)
    requires tx.now == clock && tx.cmd.CreateRide? && tx.pc.Creating? && AloneRide(t, clock, tx)
    ensures OnItsOwn(t, clock, PlanInsert(t, tx).tx)
  {
    assert RoundOpenFor(t, tx.pc.ride.matchId);
  }

  lemma InsertRowSteps(t: Tables, clock: int, tx: Tx, pick: int)
    requires tx.now == clock && tx.cmd.CreateRide? && tx.pc.Inserting? && AloneRide(t, clock, tx)
    ensures PlanInsertRow(t, tx, pick).Go? ==> OnItsOwn(t, clock, PlanInsertRow(t, tx, pick).tx)
  {
    if pick !in t.rides {
      match InsertRowError(t, tx.pc.ride)
      case Some(e) => CreatedRuns(t, clock, tx, tx.pc.ride, pick, e);
      case None =>
    }
  }

  /** Once the row is placed only the presentation is left. */
  lemma PlacedRuns(t: Tables, clock: int, cmd: Command, id: int, row: Ride)
    requires IsRideCommand(cmd) && cmd.token.key !in t.keys && IsPlaced(t, clock, cmd, id, row)
    ensures Run(t, cmd, clock, id)
         == match cmd.marshal(id, row)
            case Err(e) => Outcome(t, Err(e))
            case Ok(response) =>
              Outcome(PutKey(PutRide(t, id, row), cmd.token.key, ClaimRow(cmd.token).(response := response)),
                      Ok(RideReply(response)))
  {
    var placed := PutRide(Claiming(t, cmd.token), id, row);
    assert id in placed.rides && placed.rides[id] == row;
    if cmd.marshal(id, row).Ok? {
      var response := cmd.marshal(id, row).value;
      assert Save(placed, cmd.token, response)
          == Ok(PutKey(placed, cmd.token.key, ClaimRow(cmd.token).(response := response)));
      assert PutKey(placed, cmd.token.key, ClaimRow(cmd.token).(response := response))
          == PutKey(PutRide(t, id, row), cmd.token.key, ClaimRow(cmd.token).(response := response));
    }
  }

  lemma SaveSteps(t: Tables, clock: int, tx: Tx)
    requires tx.now == clock && IsRideCommand(tx.cmd) && tx.pc.Written? && AloneRide(t, clock, tx)
    ensures OnItsOwn(t, clock, PlanSave(tx).tx)
  {
    PlacedRuns(t, clock, tx.cmd, tx.pc.id, tx.w.rides[tx.pc.id]);
  }

  lemma SavedRuns(t: Tables, clock: int, tx: Tx)
    requires tx.now == clock && IsRideCommand(tx.cmd) && tx.pc.Saved? && AloneRide(t, clock, tx)
    ensures RunsTo(t, tx.cmd, clock, Overlay(t, tx.w), Ok(RideReply(tx.pc.response)))
  {
    var id := tx.pc.id;
    PlacedOverlay(t, clock, tx, id);
    hide Run, AloneRide, Overlay;
    PlacedRuns(t, clock, tx.cmd, id, tx.w.rides[id]);
  }

  lemma PlacedOverlay(t: Tables, clock: int, tx: Tx, id: int)
    requires IsRideCommand(tx.cmd) && tx.pc.Saved? && tx.pc.id == id && AloneRide(t, clock, tx)
    ensures id in tx.w.rides && tx.cmd.token.key !in t.keys && IsPlaced(t, clock, tx.cmd, id, tx.w.rides[id])
    ensures tx.cmd.marshal(id, tx.w.rides[id]) == Ok(tx.pc.response)
    ensures Overlay(t, tx.w) == PutKey(PutRide(t, id, tx.w.rides[id]), tx.cmd.token.key,
        ClaimRow(tx.cmd.token).(response := tx.pc.response))
  {
    hide IsPlaced;
  }

  lemma RideSteps(t: Tables, clock: int, tx: Tx, pick: int)
    requires OnItsOwn(t, clock, tx) && IsRideCommand(tx.cmd) && !tx.pc.Start? && PlanRide(t, clock, tx, pick).Go?
    ensures OnItsOwn(t, clock, PlanRide(t, clock, tx, pick).tx)
  {
    hide Run, RidePhase, UpdateGuard, DecisionOf, UpdateRowError, PlanSave, PlanUpdateRow, PlanInsertRow, PlanReplay,
      HasPlaced, IsPlaced, RunsTo;
    match tx.pc
    case ClaimLost => ReplaySteps(t, clock, tx);
    case Claimed => ClaimedSteps(t, clock, tx);
    case RideRead(_) => PhaseSteps(t, clock, tx);
    case PhaseRead(_, _, _) => DecideSteps(t, clock, tx);
    case Decided(_, _, _, _) => UpdateSteps(t, clock, tx);
    case Updating(_, _, _, _, _) => UpdateRowSteps(t, clock, tx);
    case Creating(_, _) => InsertSteps(t, clock, tx);
    case Inserting(_, _, _) => InsertRowSteps(t, clock, tx, pick);
    case Written(_, _) => SaveSteps(t, clock, tx);
    case _ =>
  }

  // ---------- each step of a resolution ----------

  lemma ResolveSteps(t: Tables, clock: int, tx: Tx)
    requires tx.now == clock && tx.cmd.ResolveMatch? && Idle(tx) && tx.pc.Start?
    ensures OnItsOwn(t, clock, PlanResolve(t, tx).tx)
  {
    if PlanResolve(t, tx).tx.pc.Done? {
      Refuses(t, clock, tx, ResolveRefusal(t, tx.cmd.matchId));
    }
  }

  lemma ResolveRowSteps(t: Tables, clock: int, tx: Tx)
    requires tx.now == clock && tx.cmd.ResolveMatch? && tx.pc.Resolving? && AloneAdmin(t, tx)
    ensures OnItsOwn(t, clock, PlanResolveRow(t, tx).tx)
  {
    var row := ResolvedRow(tx.now, t.matches[tx.cmd.matchId], tx.cmd.home, tx.cmd.away, tx.cmd.endedAt);
    if !MatchRowOk(row) {
      Refuses(t, clock, tx, ConstraintViolation);
    }
  }

  lemma SettleSteps(t: Tables, clock: int, tx: Tx)
    requires tx.now == clock && tx.cmd.ResolveMatch? && tx.pc.Scored? && AloneAdmin(t, tx)
    ensures OnItsOwn(t, clock, PlanSettle(t, tx).tx)
  {
  }

  /** One ride the gate refuses is enough: the settlement as a whole is refused. */
  lemma OneRefusalRefuses(t: Tables, tx: Tx, pick: int)
    requires tx.cmd.ResolveMatch? && HasScored(t, tx) && pick in t.rides && OnMatch(t.rides[pick], tx.cmd.matchId)
    requires !RideUpdateAllowed(PutMatch(t, tx.cmd.matchId, tx.w.matches[tx.cmd.matchId]), t.rides[pick],
        SettledRow(tx.w.matches[tx.cmd.matchId], t.rides[pick]))
    ensures Run(t, tx.cmd, tx.now, 0) == Outcome(t, Err(InvalidTransition))
  {
    var m := tx.cmd.matchId;
    var resolved := PutMatch(t, m, tx.w.matches[m]);
    assert ResolveMatchRow(t, tx.now, m, tx.cmd.home, tx.cmd.away, tx.cmd.endedAt, tx.cmd.version) == Ok(resolved);
    assert SettleAll(resolved, m) == Err(InvalidTransition);
  }

  lemma SettleRowSteps(t: Tables, clock: int, tx: Tx, pick: int)
    requires tx.now == clock && tx.cmd.ResolveMatch? && tx.pc.Settling? && AloneAdmin(t, tx)
    ensures PlanSettleRow(t, tx, pick).Go? ==> OnItsOwn(t, clock, PlanSettleRow(t, tx, pick).tx)
  {
    var m := tx.cmd.matchId;
    if pick in tx.pc.todo {
      var row := SettledRow(tx.w.matches[m], t.rides[pick]);
      GateReadsMatches(PutMatch(t, m, tx.w.matches[m]), Overlay(t, tx.w), t.rides[pick], row);
      if !RideUpdateAllowed(Overlay(t, tx.w), t.rides[pick], row) {
        OneRefusalRefuses(t, tx, pick);
        Refuses(t, clock, tx, InvalidTransition);
      }
    }
  }

  lemma SettledRuns(t: Tables, tx: Tx)
    requires tx.cmd.ResolveMatch? && tx.pc.Settling? && AloneAdmin(t, tx) && tx.pc.todo == {}
    ensures RunsTo(t, tx.cmd, tx.now, Overlay(t, tx.w),
        Ok(MatchReply(ResolveReply(tx.w.matches[tx.cmd.matchId], tx.cmd.endedAt))))
  {
    var m := tx.cmd.matchId;
    var row := tx.w.matches[m];
    var resolved := PutMatch(t, m, row);
    assert ResolveMatchRow(t, tx.now, m, tx.cmd.home, tx.cmd.away, tx.cmd.endedAt, tx.cmd.version) == Ok(resolved);
    SettledAtOnce(t, tx, resolved);
    assert Run(t, tx.cmd, tx.now, 0) == Outcome(Overlay(t, tx.w), Ok(MatchReply(ResolveReply(row, tx.cmd.endedAt))));
  }

  lemma SettledAtOnce(t: Tables, tx: Tx, resolved: Tables)
    requires tx.cmd.ResolveMatch? && tx.pc.Settling? && AloneAdmin(t, tx) && tx.pc.todo == {}
    requires resolved == PutMatch(t, tx.cmd.matchId, tx.w.matches[tx.cmd.matchId])
    ensures SettleAll(resolved, tx.cmd.matchId) == Ok(Overlay(t, tx.w))
  {
    var m := tx.cmd.matchId;
    forall id | id in resolved.rides && OnMatch(resolved.rides[id], m)
      ensures RideUpdateAllowed(resolved, resolved.rides[id], SettledRow(resolved.matches[m], resolved.rides[id]))
    {
      assert id in tx.w.rides;
    }
    var settled := SettleAll(resolved, m).value;
    assert forall id :: id in settled.rides <==> id in t.rides + tx.w.rides;
    assert forall id | id in settled.rides :: settled.rides[id] == (t.rides + tx.w.rides)[id];
    assert settled.rides == t.rides + tx.w.rides;
    assert t.matches + tx.w.matches == resolved.matches;
    assert t.rounds + tx.w.rounds == t.rounds && t.seasons + tx.w.seasons == t.seasons && t.keys + tx.w.keys == t.keys;
  }

  // ---------- each step of a round update ----------

  lemma ReadRoundSteps(t: Tables, clock: int, tx: Tx)
    requires tx.now == clock && tx.cmd.PatchRound? && Idle(tx) && tx.pc.Start?
    ensures OnItsOwn(t, clock, PlanReadRound(t, tx).tx)
  {
    if PlanReadRound(t, tx).tx.pc.Done? {
      Refuses(t, clock, tx, PlanReadRound(t, tx).tx.pc.answer.error);
    }
  }

  lemma DispatchSteps(t: Tables, clock: int, tx: Tx)
    requires tx.now == clock && tx.cmd.PatchRound? && tx.pc.RoundBegun? && AloneAdmin(t, tx)
    ensures OnItsOwn(t, clock, PlanDispatch(t, tx).tx)
  {
  }

  lemma AutoRowAllowed(t: Tables, number: int, ride: Ride)
    requires ride.state == WonPending
    ensures RideUpdateAllowed(t, ride, AutoRow(number, ride))
  {
  }

  lemma AutoRowSteps(t: Tables, clock: int, tx: Tx, pick: int)
    requires tx.now == clock && tx.cmd.PatchRound? && tx.pc.AutoResolving? && AloneAdmin(t, tx)
    ensures PlanAutoRow(t, tx, pick).Go? ==> OnItsOwn(t, clock, PlanAutoRow(t, tx, pick).tx)
  {
    hide RideUpdateAllowed, AutoRow, PrepareRound, Overlay;
    if pick in tx.pc.targets {
      AutoRowAllowed(Overlay(t, tx.w), tx.pc.edited.number, t.rides[pick]);
    }
  }

  /** The tables the round's own statement runs on are the ones its command prepares. */
  lemma PreparedOverlay(t: Tables, tx: Tx, row: Round, edited: Round)
    requires OnlyRidesAndSeasons(tx.w) && BeforeRound(t, tx, row, edited)
    ensures IsOpening(row, edited) ==> Overlay(t, tx.w) == FlipSeason(t, edited.seasonId, SeasonOpen, SeasonInProgress)
    ensures IsClosing(row, edited) ==> AutoResolveAll(t, tx.cmd.roundId, edited.number) == Ok(Overlay(t, tx.w))
    ensures !IsOpening(row, edited) && !IsClosing(row, edited) ==> Overlay(t, tx.w) == t
  {
    var u := Overlay(t, tx.w);
    assert u.rounds == t.rounds && u.matches == t.matches && u.keys == t.keys;
    if IsClosing(row, edited) {
      ResolvedAtOnce(t, tx, row, edited);
      assert u == t.(rides := t.rides + tx.w.rides);
    }
  }

  lemma ResolvedAtOnce(t: Tables, tx: Tx, row: Round, edited: Round)
    requires OnlyRidesAndSeasons(tx.w) && BeforeRound(t, tx, row, edited) && IsClosing(row, edited)
    ensures AutoResolveAll(t, tx.cmd.roundId, edited.number) == Ok(t.(rides := t.rides + tx.w.rides))
  {
    Facts.AutoResolutionIsLegal(t, tx.cmd.roundId, edited.number);
    var resolved := AutoResolveAll(t, tx.cmd.roundId, edited.number).value;
    assert forall id :: id in resolved.rides <==> id in t.rides + tx.w.rides;
    assert forall id | id in resolved.rides :: resolved.rides[id] == (t.rides + tx.w.rides)[id];
    assert resolved.rides == t.rides + tx.w.rides;
  }

  lemma RoundRefused(t: Tables, tx: Tx, row: Round, edited: Round, e: Error)
    requires OnlyRidesAndSeasons(tx.w) && BeforeRound(t, tx, row, edited)
    requires UpdateRoundRow(Overlay(t, tx.w), tx.now, tx.cmd.roundId, edited) == Err(e)
    ensures Run(t, tx.cmd, tx.now, 0) == Outcome(t, Err(e))
  {
    PreparedOverlay(t, tx, row, edited);
  }

  lemma RoundRowSteps(t: Tables, clock: int, tx: Tx)
    requires tx.now == clock && tx.cmd.PatchRound? && tx.pc.RoundReady? && AloneAdmin(t, tx)
    ensures OnItsOwn(t, clock, PlanRoundRow(t, tx).tx)
  {
    var id, row, edited := tx.cmd.roundId, tx.pc.row, tx.pc.edited;
    assert Overlay(t, tx.w).rounds == t.rounds && tx.w.(rounds := map[]) == tx.w;
    match RoundGateError(Overlay(t, tx.w), tx.now, id, row, RoundRowAfter(row, edited))
    case Some(e) =>
      RoundRefused(t, tx, row, edited, e);
      Refuses(t, clock, tx, e);
    case None =>
  }

  lemma RoundIndexSteps(t: Tables, clock: int, tx: Tx)
    requires tx.now == clock && tx.cmd.PatchRound? && tx.pc.RoundGated? && AloneAdmin(t, tx)
    ensures OnItsOwn(t, clock, PlanRoundIndex(t, tx).tx)
  {
    var id, row, edited := tx.cmd.roundId, tx.pc.row, tx.pc.edited;
    assert Overlay(t, tx.w).rounds == t.rounds && tx.w.(rounds := map[]) == tx.w;
    if NumberTaken(t.rounds, id, row.seasonId, edited.number) {
      RoundRefused(t, tx, row, edited, DuplicateRecord);
      Refuses(t, clock, tx, DuplicateRecord);
    }
  }

  /** The last statement of a close, if there is one, is the season's. */
  lemma RoundEndSteps(t: Tables, clock: int, tx: Tx)
    requires tx.now == clock && tx.cmd.PatchRound? && tx.pc.RoundWritten? && AloneAdmin(t, tx)
    ensures OnItsOwn(t, clock, PlanRoundEnd(t, tx).tx)
  {
    var id, row, edited := tx.cmd.roundId, tx.pc.row, tx.pc.edited;
    var w := tx.w.(rounds := map[]);
    var next := PlanRoundEnd(t, tx).tx;
    RoundWrites(t, tx, id, row, edited, w);
    EndSeason(t, tx);
    RoundRuns(t, tx, row, edited, w, Overlay(t, next.w));
    assert next.pc.Ending? && next.now == clock && next.cmd == tx.cmd;
  }

  lemma RoundWrites(t: Tables, tx: Tx, id: int, row: Round, edited: Round, w: Writes)
    requires tx.cmd.PatchRound? && tx.pc == RoundWritten(row, edited) && AloneAdmin(t, tx)
    requires w == tx.w.(rounds := map[]) && id == tx.cmd.roundId
    ensures UpdateRoundRow(Overlay(t, w), tx.now, id, edited) == Ok(Overlay(t, tx.w))
    ensures OnlyRidesAndSeasons(w) && BeforeRound(t, tx.(w := w), row, edited)
  {
    assert Overlay(t, w).rounds == t.rounds;
    assert Overlay(t, tx.w) == PutRound(Overlay(t, w), id, RoundRowAfter(row, edited));
  }

  lemma RoundRuns(t: Tables, tx: Tx, row: Round, edited: Round, w: Writes, u: Tables)
    requires OnlyRidesAndSeasons(w) && BeforeRound(t, tx.(w := w), row, edited)
    requires UpdateRoundRow(Overlay(t, w), tx.now, tx.cmd.roundId, edited) == Ok(Overlay(t, tx.w))
    requires u == if IsClosing(row, edited) && edited.number == ROUNDS_PER_SEASON
                  then FlipSeason(Overlay(t, tx.w), edited.seasonId, SeasonInProgress, SeasonClosed)
                  else Overlay(t, tx.w)
    ensures Run(t, tx.cmd, tx.now, 0) == Outcome(u, Ok(RoundReply(RoundRowAfter(row, edited))))
  {
    hide UpdateRoundRow, AutoResolveAll, FlipSeason, Overlay;
    PreparedOverlay(t, tx.(w := w), row, edited);
  }

  lemma EndSeason(t: Tables, tx: Tx)
    requires tx.cmd.PatchRound? && tx.pc.RoundWritten? && AloneAdmin(t, tx)
    ensures var u, edited := Overlay(t, tx.w), tx.pc.edited;
      Overlay(t, PlanRoundEnd(t, tx).tx.w)
          == if IsClosing(tx.pc.row, edited) && edited.number == ROUNDS_PER_SEASON
             then FlipSeason(u, edited.seasonId, SeasonInProgress, SeasonClosed) else u
  {
    hide RoundGateError, NumberTaken, PrepareRound, HasResolved, HasReadRound;
    if IsClosing(tx.pc.row, tx.pc.edited) {
      assert tx.w.seasons == map[];
      assert Overlay(t, tx.w).seasons == t.seasons;
    }
  }

  // ---------- match and season edits ----------

  lemma ReadMatchSteps(t: Tables, clock: int, tx: Tx)
    requires tx.now == clock && tx.cmd.PatchMatch? && Idle(tx) && tx.pc.Start?
    ensures OnItsOwn(t, clock, PlanReadMatch(t, tx).tx)
  {
    if PlanReadMatch(t, tx).tx.pc.Done? {
      Refuses(t, clock, tx, PlanReadMatch(t, tx).tx.pc.answer.error);
    }
  }

  lemma RunsAs(t: Tables, cmd: Command, now: int, u: Tables, answer: Result<Reply>)
    requires Run(t, cmd, now, 0) == Outcome(u, answer)
    ensures RunsTo(t, cmd, now, u, answer)
  {
  }

  lemma MatchEditRuns(t: Tables, tx: Tx, m: Match, edited: Match)
    requires HasReadMatch(t, tx, m, edited)
    ensures var written := EditedRow(tx.now, m, edited);
      Run(t, tx.cmd, tx.now, 0)
      == match EditRowError(tx.now, m, written)
         case Some(e) => Outcome(t, Err(e))
         case None => Outcome(PutMatch(t, tx.cmd.editedId, written), Ok(MatchReply(written)))
  {
  }

  lemma MatchRowSteps(t: Tables, clock: int, tx: Tx)
    requires tx.now == clock && tx.cmd.PatchMatch? && tx.pc.MatchBegun? && AloneAdmin(t, tx)
    ensures OnItsOwn(t, clock, PlanMatchRow(t, tx).tx)
  {
    hide Run, RunsTo, EditedRow, EditRowError, TeamsExist, HasScored, HasSettled, HasReadRound, HasResolved,
        BeforeRound,
      HasPassed, HasReadSeason;
    var id := tx.cmd.editedId;
    var written := EditedRow(tx.now, t.matches[id], tx.pc.editedMatch);
    MatchEditRuns(t, tx, tx.pc.m, tx.pc.editedMatch);
    match EditRowError(tx.now, t.matches[id], written)
    case Some(e) => Refuses(t, clock, tx, e);
    case None =>
      assert Overlay(t, PlanMatchRow(t, tx).tx.w) == PutMatch(t, id, written);
      RunsAs(t, tx.cmd, tx.now, PutMatch(t, id, written), Ok(MatchReply(written)));
  }

  lemma ReadSeasonSteps(t: Tables, clock: int, tx: Tx)
    requires tx.now == clock && tx.cmd.PatchSeason? && Idle(tx) && tx.pc.Start?
    ensures OnItsOwn(t, clock, PlanReadSeason(t, tx).tx)
  {
    if PlanReadSeason(t, tx).tx.pc.Done? {
      Refuses(t, clock, tx, PlanReadSeason(t, tx).tx.pc.answer.error);
    }
  }

  lemma SeasonEditRuns(t: Tables, tx: Tx, season: Season, edited: Season)
    requires HasReadSeason(t, tx, season, edited)
    ensures var written := Season(edited.status, season.version + 1);
      Run(t, tx.cmd, tx.now, 0)
      == if SeasonUpdateAllowed(t, tx.now, tx.cmd.seasonId, written)
         then Outcome(PutSeason(t, tx.cmd.seasonId, written), Ok(SeasonReply(written)))
         else Outcome(t, Err(RecordInUse))
  {
  }

  lemma SeasonRowPlan(t: Tables, tx: Tx, season: Season, edited: Season)
    requires HasReadSeason(t, tx, season, edited) && tx.pc == SeasonBegun(season, edited)
    ensures var id, written := tx.cmd.seasonId, Season(edited.status, season.version + 1);
      var next := PlanSeasonRow(t, tx);
      if SeasonUpdateAllowed(t, tx.now, id, written) then
        next.Go? && next.tx == tx.(pc := Ending(SeasonReply(written)), w := next.tx.w, locks := next.tx.locks)
        && Overlay(t, next.tx.w) == PutSeason(t, id, written)
      else next.Go? && next.tx == Refuse(tx, RecordInUse)
  {
    hide SeasonUpdateAllowed;
  }

  lemma SeasonRowSteps(t: Tables, clock: int, tx: Tx)
    requires tx.now == clock && tx.cmd.PatchSeason? && tx.pc.SeasonBegun? && AloneAdmin(t, tx)
    ensures OnItsOwn(t, clock, PlanSeasonRow(t, tx).tx)
  {
    hide Run, RunsTo, SeasonUpdateAllowed, PlanSeasonRow, HasScored, HasSettled, HasReadRound, HasResolved, BeforeRound,
      HasPassed, HasReadMatch;
    var id := tx.cmd.seasonId;
    var written := Season(tx.pc.editedSeason.status, t.seasons[id].version + 1);
    SeasonEditRuns(t, tx, tx.pc.season, tx.pc.editedSeason);
    SeasonRowPlan(t, tx, tx.pc.season, tx.pc.editedSeason);
    if SeasonUpdateAllowed(t, tx.now, id, written) {
      RunsAs(t, tx.cmd, tx.now, PutSeason(t, id, written), Ok(SeasonReply(written)));
    } else {
      Refuses(t, clock, tx, RecordInUse);
    }
  }

  // ---------- every step ----------

  lemma StartSteps(t: Tables, clock: int, tx: Tx)
    requires tx.now == clock && Idle(tx) && tx.pc.Start? && PlanStart(t, tx).Go?
    ensures OnItsOwn(t, clock, PlanStart(t, tx).tx)
  {
    hide Run, OnItsOwn, PlanClaim, PlanResolve, PlanReadRound, PlanReadMatch, PlanReadSeason;
    match tx.cmd
    case CreateRide(_, _, _) => ClaimSteps(t, clock, tx);
    case DecideRide(_, _, _, _) => ClaimSteps(t, clock, tx);
    case ResolveMatch(_, _, _, _, _) => ResolveSteps(t, clock, tx);
    case PatchRound(_, _, _, _, _) => ReadRoundSteps(t, clock, tx);
    case PatchMatch(_, _, _, _) => ReadMatchSteps(t, clock, tx);
    case PatchSeason(_, _, _) => ReadSeasonSteps(t, clock, tx);
  }

  lemma BeginSteps(t: Tables, clock: int, tx: Tx)
    requires OnItsOwn(t, clock, tx) && !IsRideCommand(tx.cmd)
        && (tx.pc.RoundRead? || tx.pc.MatchRead? || tx.pc.SeasonRead?)
    ensures OnItsOwn(t, clock, PlanBegin(clock, tx).tx)
  {
    assert tx.(now := clock) == tx;
  }

  lemma AdminSteps(t: Tables, clock: int, tx: Tx, pick: int)
    requires OnItsOwn(t, clock, tx) && !IsRideCommand(tx.cmd) && !tx.pc.Start? && PlanAdmin(t, clock, tx, pick).Go?
    ensures OnItsOwn(t, clock, PlanAdmin(t, clock, tx, pick).tx)
  {
    hide Run, RunsTo, PlanResolveRow, PlanSettle, PlanSettleRow, PlanDispatch, PlanAutoRow, PlanRoundRow,
      PlanRoundIndex, PlanRoundEnd, PlanMatchRow, PlanSeasonRow, HasScored, HasSettled, HasReadRound, HasResolved,
      BeforeRound, HasPassed, HasReadMatch, HasReadSeason;
    match tx.pc
    case Resolving(_) => ResolveRowSteps(t, clock, tx);
    case Scored => SettleSteps(t, clock, tx);
    case Settling(_, _) => SettleRowSteps(t, clock, tx, pick);
    case RoundBegun(_, _) => DispatchSteps(t, clock, tx);
    case AutoResolving(_, _, _) => AutoRowSteps(t, clock, tx, pick);
    case RoundReady(_, _) => RoundRowSteps(t, clock, tx);
    case RoundGated(_, _) => RoundIndexSteps(t, clock, tx);
    case RoundWritten(_, _) => RoundEndSteps(t, clock, tx);
    case MatchBegun(_, _) => MatchRowSteps(t, clock, tx);
    case SeasonBegun(_, _) => SeasonRowSteps(t, clock, tx);
    case RoundRead(_, _) => BeginSteps(t, clock, tx);
    case MatchRead(_, _) => BeginSteps(t, clock, tx);
    case SeasonRead(_, _) => BeginSteps(t, clock, tx);
    case _ =>
  }

  lemma EveryStep(t: Tables, clock: int, tx: Tx, pick: int)
    requires OnItsOwn(t, clock, tx) && Plan(t, clock, tx, pick).Go?
    ensures OnItsOwn(t, clock, Plan(t, clock, tx, pick).tx)
  {
    hide PlanStart, PlanRide, PlanAdmin;
    if tx.pc.Start? {
      hide OnItsOwn;
      StartSteps(t, clock, tx) by {
        assert OnItsOwn(t, clock, tx);
      }
    } else if IsRideCommand(tx.cmd) {
      RideSteps(t, clock, tx, pick);
    } else {
      AdminSteps(t, clock, tx, pick);
    }
  }

  lemma CommitRuns(t: Tables, clock: int, tx: Tx, pick: int)
    requires OnItsOwn(t, clock, tx) && Plan(t, clock, tx, pick).Commit?
    ensures RunsTo(t, tx.cmd, clock, Overlay(t, tx.w), Plan(t, clock, tx, pick).answer)
  {
    hide Run, RunsTo, HasScored, HasSettled, HasPlaced, HasReadRound, HasResolved, BeforeRound, HasPassed, Unclaimed,
      HasDecided, HasCreated, PlanStart, PlanResolveRow, PlanSettle, PlanDispatch, PlanAutoRow, PlanRoundRow,
      PlanRoundIndex, PlanRoundEnd, PlanMatchRow, PlanSeasonRow, PlanSave, PlanUpdateRow, PlanInsertRow, PlanReplay;
    OnlyLastStepsCommit(t, clock, tx, pick);
    if IsRideCommand(tx.cmd) {
      SavedRuns(t, clock, tx);
    } else if tx.cmd.ResolveMatch? {
      SettledRuns(t, tx);
    }
  }

  lemma OnlyLastStepsCommit(t: Tables, clock: int, tx: Tx, pick: int)
    requires OnItsOwn(t, clock, tx) && Plan(t, clock, tx, pick).Commit?
    ensures if IsRideCommand(tx.cmd) then tx.pc.Saved? && Plan(t, clock, tx, pick) == PlanRide(t, clock, tx, pick)
            else if tx.cmd.ResolveMatch? then
              tx.pc.Settling? && tx.pc.todo == {} && Plan(t, clock, tx, pick) == PlanSettleRow(t, tx, pick)
            else tx.pc.Ending?
  {
    hide RunsTo, HasScored, HasSettled, HasPlaced, HasReadRound, HasResolved, BeforeRound, HasPassed, Unclaimed,
        HasDecided,
      HasCreated, Overlay, RideUpdateAllowed, RoundGateError, UpdateRowError, EditRowError, RidePhase, UpdateGuard;
  }

  // ---------- the theorem ----------

  predicate Undisturbed(tid: int, events: seq<Event>) {
    forall i | 0 <= i < |events| :: events[i].Advance? && events[i].tid == tid
  }

  lemma UndisturbedStep(s: System, u: System, tid: int, pick: int)
    requires tid in s.txs && s.txs[tid].pc.Start? && tid in u.txs && u.txs[tid].cmd == s.txs[tid].cmd
    requires u.clock == s.clock
    requires if u.txs[tid].pc.Done? then RunsTo(s.db, s.txs[tid].cmd, s.clock, u.db, u.txs[tid].pc.answer)
             else u.db == s.db && OnItsOwn(s.db, s.clock, u.txs[tid])
    ensures var v, cmd := Next(u, Advance(tid, pick)), s.txs[tid].cmd;
      && tid in v.txs && v.txs[tid].cmd == cmd && v.clock == s.clock
      && (if v.txs[tid].pc.Done? then RunsTo(s.db, cmd, s.clock, v.db, v.txs[tid].pc.answer)
          else v.db == s.db && OnItsOwn(s.db, s.clock, v.txs[tid]))
  {
    hide Plan, OnItsOwn, RunsTo;
    var tx := u.txs[tid];
    DoneIsStuck(u.db, u.clock, tx, pick);
    match Plan(u.db, u.clock, tx, pick)
    case Stuck =>
    case Go(_, next) =>
      EveryStep(s.db, s.clock, tx, pick);
      StepKeepsCommand(u.db, u.clock, tx, pick);
      if next.pc.Done? {
        DoneHasRun(s.db, s.clock, next);
      }
    case Commit(_) => CommitRuns(s.db, s.clock, tx, pick);
  }

  lemma DoneIsStuck(t: Tables, clock: int, tx: Tx, pick: int)
    ensures tx.pc.Done? ==> Plan(t, clock, tx, pick).Stuck?
  {
  }

  lemma StepKeepsCommand(t: Tables, clock: int, tx: Tx, pick: int)
    requires Plan(t, clock, tx, pick).Go?
    ensures Plan(t, clock, tx, pick).tx.cmd == tx.cmd
  {
  }

  lemma BeginsOnItsOwn(t: Tables, clock: int, tx: Tx)
    requires tx.now == clock && tx.pc.Start? && Idle(tx)
    ensures OnItsOwn(t, clock, tx)
  {
  }

  lemma DoneHasRun(t: Tables, clock: int, tx: Tx)
    requires OnItsOwn(t, clock, tx) && tx.pc.Done?
    ensures RunsTo(t, tx.cmd, clock, t, tx.pc.answer)
  {
  }

  /** From its beginning to its end, with nothing else happening in between, a transaction
      leaves the tables its command leaves when it runs alone and answers what it answers:
      the row written, or the same refusal. */
  lemma {:induction false} UndisturbedIsRun(s: System, tid: int, cmd: Command, events: seq<Event>)
    requires tid in s.txs && s.txs[tid] == Tx(cmd, s.clock, Start, NOTHING, {}) && Undisturbed(tid, events)
    ensures var u := Play(s, events);
      && tid in u.txs && u.txs[tid].cmd == cmd && u.clock == s.clock
      && (if u.txs[tid].pc.Done? then RunsTo(s.db, cmd, s.clock, u.db, u.txs[tid].pc.answer)
          else u.db == s.db && OnItsOwn(s.db, s.clock, u.txs[tid]))
    decreases |events|
  {
    hide Plan, OnItsOwn, RunsTo;
    if events == [] {
      BeginsOnItsOwn(s.db, s.clock, s.txs[tid]);
    } else {
      var last := |events| - 1;
      UndisturbedIsRun(s, tid, cmd, events[..last]);
      UndisturbedStep(s, Play(s, events[..last]), tid, events[last].pick);
    }
  }

  // ---------- only locks hold a transaction up ----------

  /** An identity no ride has. */
  lemma FreshExists(ids: set<int>) returns (id: int)
    ensures id !in ids && forall k | k in ids :: k < id
    decreases |ids|
  {
    if ids == {} {
      id := 0;
    } else {
      var k := Pick(ids);
      var other := FreshExists(ids - {k});
      id := if k < other then other else k + 1;
      forall i | i in ids ensures i < id {
        assert i == k || i in ids - {k};
      }
    }
  }

  /** In every interleaving a transaction that has not ended has a next step, which at
      most waits for a lock. */
  lemma HasANextStep(t: Tables, clock: int, tx: Tx) returns (pick: int)
    requires TxOk(t, tx) && !tx.pc.Done?
    ensures !Plan(t, clock, tx, pick).Stuck?
  {
    hide Sound, WritesOk, AutoResolved, SettledRides, RideUpdateAllowed, UpdateGuard, RidePhase, DecisionOf,
        UpdateRowError,
      RoundGateError, EditRowError, PrepareRound, PrepareMatch, SeenRound, SeenMatch, TargetsInRound;
    pick := 0;
    if tx.pc.Inserting? {
      pick := FreshExists(t.rides.Keys);
    } else if tx.pc.Settling? && tx.pc.todo != {} {
      pick := Pick(tx.pc.todo);
    } else if tx.pc.AutoResolving? && tx.pc.targets != map[] {
      pick := Pick(tx.pc.targets.Keys);
    }
  }

  function Stage(pc: Pc): nat {
    match pc
    case Start => 9
    case ClaimLost => 8
    case Claimed => 8
    case RideRead(_) => 7
    case PhaseRead(_, _, _) => 6
    case Decided(_, _, _, _) => 5
    case Updating(_, _, _, _, _) => 4
    case Creating(_, _) => 5
    case Inserting(_, _, _) => 4
    case Written(_, _) => 3
    case Saved(_, _, _) => 2
    case Resolving(_) => 5
    case Scored => 4
    case Settling(_, _) => 3
    case RoundRead(_, _) => 8
    case RoundBegun(_, _) => 7
    case AutoResolving(_, _, _) => 6
    case RoundReady(_, _) => 5
    case RoundGated(_, _) => 4
    case RoundWritten(_, _) => 3
    case MatchRead(_, _) => 4
    case MatchBegun(_, _) => 3
    case SeasonRead(_, _) => 4
    case SeasonBegun(_, _) => 3
    case Ending(_) => 1
    case Done(_) => 0
  }

  function RowsLeft(pc: Pc): nat {
    match pc
    case Settling(_, todo) => |todo|
    case AutoResolving(_, _, targets) => |targets.Keys|
    case _ => 0
  }

  predicate GoesDown(before: Pc, after: Pc) {
    Stage(after) < Stage(before) || (Stage(after) == Stage(before) && RowsLeft(after) < RowsLeft(before))
  }

  lemma FewerTargets(targets: map<int, int>, pick: int)
    requires pick in targets
    ensures |(targets - {pick}).Keys| < |targets.Keys|
  {
    assert (targets - {pick}).Keys == targets.Keys - {pick};
  }

  lemma AutoRowNext(t: Tables, tx: Tx, pick: int)
    requires tx.pc.AutoResolving? && PlanAutoRow(t, tx, pick).Go?
    ensures var next := PlanAutoRow(t, tx, pick).tx.pc;
      next.RoundReady? || next.Done?
      || (pick in tx.pc.targets && next == AutoResolving(tx.pc.row, tx.pc.edited, tx.pc.targets - {pick}))
  {
  }

  lemma AutoRowGoesDown(t: Tables, tx: Tx, pick: int)
    requires tx.pc.AutoResolving? && PlanAutoRow(t, tx, pick).Go?
    ensures GoesDown(tx.pc, PlanAutoRow(t, tx, pick).tx.pc)
  {
    hide PlanAutoRow;
    AutoRowNext(t, tx, pick);
    if pick in tx.pc.targets {
      FewerTargets(tx.pc.targets, pick);
    }
  }

  lemma RideStepGoesDown(t: Tables, clock: int, tx: Tx, pick: int)
    requires PlanRide(t, clock, tx, pick).Go?
    ensures GoesDown(tx.pc, PlanRide(t, clock, tx, pick).tx.pc)
  {
    hide RidePhase, UpdateGuard, UpdateRowError, DecisionOf, Overlay, RoundOpenFor, InsertRowError, InsertRefusal;
  }

  lemma SettleRowGoesDown(t: Tables, tx: Tx, pick: int)
    requires tx.cmd.ResolveMatch? && tx.pc.Settling? && PlanSettleRow(t, tx, pick).Go?
    ensures GoesDown(tx.pc, PlanSettleRow(t, tx, pick).tx.pc)
  {
    hide RideUpdateAllowed, SettledRow, Overlay;
  }

  lemma AdminStepGoesDown(t: Tables, clock: int, tx: Tx, pick: int)
    requires PlanAdmin(t, clock, tx, pick).Go?
    ensures GoesDown(tx.pc, PlanAdmin(t, clock, tx, pick).tx.pc)
  {
    hide RoundGateError, MatchRowOk, ResolveGuard, EditRowError, SeasonUpdateAllowed, NumberTaken, Overlay,
        PlanSettleRow,
      PlanAutoRow, EditedRow, ResolvedRow;
    if tx.pc.AutoResolving? {
      AutoRowGoesDown(t, tx, pick);
    } else if tx.pc.Settling? && tx.cmd.ResolveMatch? {
      SettleRowGoesDown(t, tx, pick);
    }
  }

  lemma StartGoesDown(t: Tables, tx: Tx)
    requires tx.pc.Start? && PlanStart(t, tx).Go?
    ensures GoesDown(tx.pc, PlanStart(t, tx).tx.pc)
  {
    hide PrepareRound, PrepareMatch, PrepareSeason, ResolveGuard, TeamsExist;
  }

  lemma StepGoesDown(t: Tables, clock: int, tx: Tx, pick: int)
    requires Plan(t, clock, tx, pick).Go?
    ensures GoesDown(tx.pc, Plan(t, clock, tx, pick).tx.pc)
  {
    hide PlanStart, PlanRide, PlanAdmin, GoesDown;
    if tx.pc.Start? {
      StartGoesDown(t, tx);
    } else if IsRideCommand(tx.cmd) {
      RideStepGoesDown(t, clock, tx, pick);
    } else {
      AdminStepGoesDown(t, clock, tx, pick);
    }
  }

  ghost predicate NobodyHolds(s: System, tid: int) {
    forall a | a in s.txs && a != tid :: s.txs[a].locks == {}
  }

  /** With no lock in its way a transaction reaches its end by its own steps: together
      with the theorem above, it does exactly what its command does. */
  lemma Finishes(s: System, tid: int) returns (events: seq<Event>)
    requires SystemOk(s) && tid in s.txs && NobodyHolds(s, tid)
    ensures Undisturbed(tid, events)
    ensures tid in Play(s, events).txs && Play(s, events).txs[tid].pc.Done?
    decreases Stage(s.txs[tid].pc), RowsLeft(s.txs[tid].pc)
  {
    hide Plan, DbOk, TxOk, Overlay;
    events := [];
    if !s.txs[tid].pc.Done? {
      var pick := HasANextStep(s.db, s.clock, s.txs[tid]);
      var event := Advance(tid, pick);
      var rest := [];
      NextIsOk(s, event);
      if Plan(s.db, s.clock, s.txs[tid], pick).Go? {
        StepGoesDown(s.db, s.clock, s.txs[tid], pick);
        rest := Finishes(Next(s, event), tid);
      }
      events := [event] + rest;
      Steps.PlayAppends(s, [event], rest);
      assert Play(s, [event]) == Next(s, event) by {
        assert Play(s, [event][..0]) == s;
      }
    }
  }
}
