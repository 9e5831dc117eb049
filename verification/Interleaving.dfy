/** The commands as interleaved transactions under READ COMMITTED.

    One step is one read on the pool, the start of one statement, or the write of
    one row: taking the row's lock, re-checking the WHERE on the refreshed row,
    running the triggers and constraints and writing. A round's number enters the
    unique index in a step of its own, after the triggers have run. A statement whose
    WHERE looks at other tables keeps the snapshot it started with for them; triggers
    read the committed tables and the transaction's own writes afresh. A step that
    needs a lock another transaction holds does not happen until it is free. */
module Interleaving {
  import opened Model
  import opened Gates
  import opened Rides
  import opened Statements
  import opened Commands

  // ---------- locks ----------

  datatype Lock =
    | RideLock(id: int)
    | MatchLock(id: int)
    | RoundLock(id: int)
    | RoundShare(id: int)                        // FOR SHARE OF r
    | SeasonLock(id: int)
    | KeyLock(key: string)                       // the in-flight key an insert waits for
    | NumberSlot(seasonId: int, number: int)     // the unique index entry of a round number

  predicate Conflict(a: Lock, b: Lock) {
    || (a == b && !a.RoundShare?)
    || (a.RoundShare? && b == RoundLock(a.id))
    || (b.RoundShare? && a == RoundLock(b.id))
  }

  predicate Compatible(a: set<Lock>, b: set<Lock>) {
    forall x, y | x in a && y in b :: !Conflict(x, y)
  }

  // ---------- transactions ----------

  /** The rows a transaction wrote and did not commit yet. */
  datatype Writes = Writes(
    rides: map<int, Ride>,
    matches: map<int, Match>,
    rounds: map<int, Round>,
    seasons: map<int, Season>,
    keys: map<string, KeyRow>)

  const NOTHING: Writes := Writes(map[], map[], map[], map[], map[])

  /** What a transaction sees: the committed tables under its own writes. */
  function Overlay(t: Tables, w: Writes): Tables {
    t.(rides := t.rides + w.rides,
       matches := t.matches + w.matches,
       rounds := t.rounds + w.rounds,
       seasons := t.seasons + w.seasons,
       keys := t.keys + w.keys)
  }

  /** Where a transaction stands, with the values it has read so far. */
  datatype Pc =
    | Start
    | ClaimLost                                                        // reads the stored answer next
    | Claimed
    | RideRead(ride: Ride)
    | PhaseRead(ride: Ride, phase: RoundPhase, at: int)
    | Decided(ride: Ride, next: Ride, destination: int, at: int)       // starts the guarded UPDATE next
    | Updating(ride: Ride, next: Ride, destination: int, at: int, snapshot: Tables)
    | Creating(ride: Ride, at: int)                                    // starts the guarded INSERT next
    | Inserting(ride: Ride, at: int, roundId: int)
    | Written(id: int, at: int)                                        // marshals and saves next
    | Saved(id: int, at: int, response: Response)
    | Resolving(snapshot: Tables)
    | Scored                                                           // starts the settlement next
    | Settling(seen: set<int>, todo: set<int>)                         // the rides it saw, and those not reached yet
    | RoundRead(row: Round, edited: Round)                             // begins its transaction next
    | RoundBegun(row: Round, edited: Round)
    | AutoResolving(row: Round, edited: Round, targets: map<int, int>)   // rides, with the match they were joined on
    | RoundReady(row: Round, edited: Round)
    | RoundGated(row: Round, edited: Round)                            // passed the gates, enters the index next
    | RoundWritten(row: Round, edited: Round)
    | MatchRead(m: Match, editedMatch: Match)                          // starts its statement next
    | MatchBegun(m: Match, editedMatch: Match)
    | SeasonRead(season: Season, editedSeason: Season)
    | SeasonBegun(season: Season, editedSeason: Season)
    | Ending(reply: Reply)
    | Done(answer: Result<Reply>)

  /** `now` is the database clock at the start of the transaction. */
  datatype Tx = Tx(cmd: Command, now: int, pc: Pc, w: Writes, locks: set<Lock>)

  datatype Move =
    | Stuck
    | Go(need: set<Lock>, tx: Tx)        // happens once the needed locks are free
    | Commit(answer: Result<Reply>)

  /** The deferred rollback: writes and locks are gone. */
  function Refuse(tx: Tx, e: Error): Tx {
    tx.(pc := Done(Err(e)), w := NOTHING, locks := {})
  }

  function At(tx: Tx, pc: Pc): Move {
    Go({}, tx.(pc := pc))
  }

  function Fail(tx: Tx, e: Error): Move {
    Go({}, Refuse(tx, e))
  }

  /** The lock is taken and kept, whether or not the re-check lets the row be written. */
  function Take(tx: Tx, need: set<Lock>, pc: Pc): Tx {
    tx.(pc := pc, locks := tx.locks + need)
  }

  function WriteRide(tx: Tx, id: int, row: Ride): Tx {
    tx.(w := tx.w.(rides := tx.w.rides[id := row]))
  }

  function WriteMatch(tx: Tx, id: int, row: Match): Tx {
    tx.(w := tx.w.(matches := tx.w.matches[id := row]))
  }

  function WriteRoundRow(tx: Tx, id: int, row: Round): Tx {
    tx.(w := tx.w.(rounds := tx.w.rounds[id := row]))
  }

  function WriteSeason(tx: Tx, id: int, row: Season): Tx {
    tx.(w := tx.w.(seasons := tx.w.seasons[id := row]))
  }

  function WriteKey(tx: Tx, key: string, row: KeyRow): Tx {
    tx.(w := tx.w.(keys := tx.w.keys[key := row]))
  }

  // ---------- ride commands ----------

  /** INSERT ... ON CONFLICT DO NOTHING: waits for an in-flight claim of the key. */
  function PlanClaim(t: Tables, tx: Tx): Move
    requires IsRideCommand(tx.cmd)
  {
    var token := tx.cmd.token;
    if token.key in t.keys then At(tx, ClaimLost)
    else Go({KeyLock(token.key)}, WriteKey(Take(tx, {KeyLock(token.key)}, Claimed), token.key, ClaimRow(token)))
  }

  function PlanReplay(t: Tables, tx: Tx): Move
    requires IsRideCommand(tx.cmd)
  {
    var token := tx.cmd.token;
    if token.key !in t.keys then Fail(tx, IdempotencyConflict)
    else
      match StoredAnswer(t.keys[token.key], token)
      case Ok(response) => At(tx, Done(Ok(RideReply(response))))
      case Err(e) => Fail(tx, e)
  }

  /** The first read after the claim: a create reads its phase, a decision its ride. */
  function PlanClaimed(t: Tables, clock: int, tx: Tx): Move {
    match tx.cmd
    case CreateRide(input, _, _) =>
      (match RidePhase(t, clock, input.matchId)
       case Err(e) => Fail(tx, e)
       case Ok(phase) =>
         match CreateOf(input, phase)
         case Err(e) => Fail(tx, e)
         case Ok(ride) => At(tx, Creating(ride, clock)))
    case DecideRide(_, rideId, _, _) =>
      if rideId in t.rides then At(tx, RideRead(t.rides[rideId])) else Fail(tx, RecordNotFound)
    case _ => Stuck
  }

  function PlanPhase(t: Tables, clock: int, tx: Tx): Move
    requires tx.pc.RideRead?
  {
    match RidePhase(t, clock, tx.pc.ride.matchId)
    case Err(e) => Fail(tx, e)
    case Ok(phase) => At(tx, PhaseRead(tx.pc.ride, phase, clock))
  }

  /** The continuation's pick and the domain command. */
  function PlanDecide(t: Tables, tx: Tx): Move
    requires tx.pc.PhaseRead? && tx.cmd.DecideRide?
  {
    var ride := tx.pc.ride;
    match Destination(t, tx.cmd.decision, ride.teamId)
    case Err(e) => Fail(tx, e)
    case Ok(destination) =>
      match DecisionOf(tx.cmd.decision, ride, tx.pc.phase, destination)
      case Err(e) => Fail(tx, e)
      case Ok(next) => At(tx, Decided(ride, next, destination, tx.pc.at))
  }

  /** The guarded UPDATE starts: its snapshot decides whether there is a target row. */
  function PlanUpdate(t: Tables, tx: Tx): Move
    requires tx.pc.Decided? && tx.cmd.DecideRide?
  {
    var id := tx.cmd.rideId;
    if id !in t.rides || !UpdateGuard(t, t.rides[id], tx.pc.next.version, tx.pc.destination) then Fail(tx, RoundNotOpen)
    else At(tx, Updating(tx.pc.ride, tx.pc.next, tx.pc.destination, tx.pc.at, t))
  }

  /** Row lock, WHERE again with the refreshed ride over the old snapshot, gate, write. */
  function PlanUpdateRow(t: Tables, tx: Tx): Move
    requires tx.pc.Updating? && tx.cmd.DecideRide?
  {
    var id := tx.cmd.rideId;
    var need := {RideLock(id)};
    if id !in t.rides || !UpdateGuard(tx.pc.snapshot, t.rides[id], tx.pc.next.version, tx.pc.destination) then
      Go(need, Refuse(tx, RoundNotOpen))
    else
      var row := UpdatedRow(t.rides[id], tx.pc.next);
      match UpdateRowError(Overlay(t, tx.w), t.rides[id], row)
      case Some(e) => Go(need, Refuse(tx, e))
      case None => Go(need, WriteRide(Take(tx, need, Written(id, tx.pc.at)), id, row))
  }

  /** INSERT ... SELECT starts: its snapshot must show the round open. */
  function PlanInsert(t: Tables, tx: Tx): Move
    requires tx.pc.Creating?
  {
    var m := tx.pc.ride.matchId;
    if !RoundOpenFor(t, m) then Fail(tx, InsertRefusal(t, m))
    else At(tx, Inserting(tx.pc.ride, tx.pc.at, t.matches[m].roundId))
  }

  /** FOR SHARE on the round, its status again on the refreshed row, then the new ride
      under the identity `pick` drawn for it. */
  function PlanInsertRow(t: Tables, tx: Tx, pick: int): Move
    requires tx.pc.Inserting?
  {
    var r := tx.pc.roundId;
    if r !in t.rounds || t.rounds[r].status != RoundOpen then Go({RoundShare(r)}, Refuse(tx, RoundNotOpen))
    else if pick in t.rides then Stuck
    else
      var need := {RoundShare(r), RideLock(pick)};
      match InsertRowError(t, tx.pc.ride)
      case Some(e) => Go(need, Refuse(tx, e))
      case None => Go(need, WriteRide(Take(tx, need, Written(pick, tx.pc.at)), pick, tx.pc.ride.(version := 1)))
  }

  function PlanSave(tx: Tx): Move
    requires tx.pc.Written? && IsRideCommand(tx.cmd)
  {
    var token, id := tx.cmd.token, tx.pc.id;
    if id !in tx.w.rides || token.key !in tx.w.keys then Fail(tx, IdempotencyConflict)
    else
      match tx.cmd.marshal(id, tx.w.rides[id])
      case Err(e) => Fail(tx, e)
      case Ok(response) =>
        At(WriteKey(tx, token.key, tx.w.keys[token.key].(response := response)), Saved(id, tx.pc.at, response))
  }

  // ---------- match resolution ----------

  function PlanResolve(t: Tables, tx: Tx): Move
    requires tx.cmd.ResolveMatch?
  {
    var m := tx.cmd.matchId;
    if m !in t.matches || !ResolveGuard(t, tx.now, t.matches[m], tx.cmd.version) then Fail(tx, ResolveRefusal(t, m))
    else At(tx, Resolving(t))
  }

  function PlanResolveRow(t: Tables, tx: Tx): Move
    requires tx.pc.Resolving? && tx.cmd.ResolveMatch?
  {
    var m := tx.cmd.matchId;
    var need := {MatchLock(m)};
    if m !in t.matches || !ResolveGuard(tx.pc.snapshot, tx.now, t.matches[m], tx.cmd.version) then
      Go(need, Refuse(tx, ResolveRefusal(t, m)))
    else
      var row := ResolvedRow(tx.now, t.matches[m], tx.cmd.home, tx.cmd.away, tx.cmd.endedAt);
      if !MatchRowOk(row) then Go(need, Refuse(tx, ConstraintViolation))
      else Go(need, WriteMatch(Take(tx, need, Scored), m, row))
  }

  /** The settlement starts: its targets are the locked rides it sees on the match. */
  function PlanSettle(t: Tables, tx: Tx): Move
    requires tx.cmd.ResolveMatch?
  {
    var seen := set id | id in t.rides && Statements.OnMatch(t.rides[id], tx.cmd.matchId);
    At(tx, Settling(seen, seen))
  }

  function PlanSettleRow(t: Tables, tx: Tx, pick: int): Move
    requires tx.pc.Settling? && tx.cmd.ResolveMatch?
  {
    var m := tx.cmd.matchId;
    if m !in tx.w.matches then Stuck
    else if tx.pc.todo == {} then Commit(Ok(MatchReply(ResolveReply(tx.w.matches[m], tx.cmd.endedAt))))
    else if pick !in tx.pc.todo then Stuck
    else
      var need := {RideLock(pick)};
      var rest := Settling(tx.pc.seen, tx.pc.todo - {pick});
      if pick !in t.rides || !Statements.OnMatch(t.rides[pick], m) then Go(need, Take(tx, need, rest))
      else
        var row := SettledRow(tx.w.matches[m], t.rides[pick]);
        if !RideUpdateAllowed(Overlay(t, tx.w), t.rides[pick], row) then Go(need, Refuse(tx, InvalidTransition))
        else Go(need, WriteRide(Take(tx, need, rest), pick, row))
  }

  // ---------- admin edits: the read is on the pool, then the transaction begins ----------

  function PlanBegin(clock: int, tx: Tx): Move {
    var begun := tx.(now := clock);
    match tx.pc
    case RoundRead(row, edited) => At(begun, RoundBegun(row, edited))
    case MatchRead(m, edited) => At(begun, MatchBegun(m, edited))
    case SeasonRead(season, edited) => At(begun, SeasonBegun(season, edited))
    case _ => Stuck
  }

  // ---------- rounds ----------

  function PlanReadRound(t: Tables, tx: Tx): Move
    requires tx.cmd.PatchRound?
  {
    var id := tx.cmd.roundId;
    if id < 1 || id !in t.rounds then Fail(tx, RecordNotFound)
    else
      match PrepareRound(tx.cmd, t.rounds[id])
      case Err(e) => Fail(tx, e)
      case Ok(edited) => At(tx, RoundRead(t.rounds[id], edited))
  }

  /** The dispatch: Open flips the season first, Close resolves the rides first. */
  function PlanDispatch(t: Tables, tx: Tx): Move
    requires tx.pc.RoundBegun? && tx.cmd.PatchRound?
  {
    var row, edited := tx.pc.row, tx.pc.edited;
    var s := edited.seasonId;
    if IsOpening(row, edited) && SeasonAt(t, s, SeasonOpen) then
      var need := {SeasonLock(s)};
      Go(need, WriteSeason(Take(tx, need, RoundReady(row, edited)), s,
          Season(SeasonInProgress, t.seasons[s].version + 1)))
    else if IsClosing(row, edited) then
      var targets := map id | id in t.rides && Undecided(t, t.rides[id], tx.cmd.roundId) :: t.rides[id].matchId;
      At(tx, AutoResolving(row, edited, targets))
    else At(tx, RoundReady(row, edited))
  }

  /** One row of the auto-resolution; the join keeps the match it found the ride on. */
  function PlanAutoRow(t: Tables, tx: Tx, pick: int): Move
    requires tx.pc.AutoResolving?
  {
    var row, edited, targets := tx.pc.row, tx.pc.edited, tx.pc.targets;
    if targets == map[] then At(tx, RoundReady(row, edited))
    else if pick !in targets then Stuck
    else
      var need := {RideLock(pick)};
      var rest := AutoResolving(row, edited, targets - {pick});
      if pick !in t.rides || t.rides[pick].state != WonPending || t.rides[pick].matchId != targets[pick] then
        Go(need, Take(tx, need, rest))
      else
        var written := AutoRow(edited.number, t.rides[pick]);
        if !RideUpdateAllowed(Overlay(t, tx.w), t.rides[pick], written) then Go(need, Refuse(tx, InvalidTransition))
        else Go(need, WriteRide(Take(tx, need, rest), pick, written))
  }

  /** The version-guarded round write up to the index: row lock, the three gates, the
      CHECK. The old row version, and with it its index entry, is the transaction's now. */
  function PlanRoundRow(t: Tables, tx: Tx): Move
    requires tx.pc.RoundReady? && tx.cmd.PatchRound?
  {
    var id, edited := tx.cmd.roundId, tx.pc.edited;
    if id !in t.rounds || t.rounds[id].version != edited.version then Fail(tx, EditConflict)
    else
      var need := {RoundLock(id), NumberSlot(t.rounds[id].seasonId, t.rounds[id].number)};
      match RoundGateError(Overlay(t, tx.w), tx.now, id, t.rounds[id], RoundRowAfter(t.rounds[id], edited))
      case Some(e) => Go(need, Refuse(tx, e))
      case None => Go(need, Take(tx, need, RoundGated(tx.pc.row, edited)))
  }

  /** The entry of the new number: it waits for whoever holds the entry, and then the
      gates are not asked again. */
  function PlanRoundIndex(t: Tables, tx: Tx): Move
    requires tx.pc.RoundGated? && tx.cmd.PatchRound?
  {
    var id, row, edited := tx.cmd.roundId, tx.pc.row, tx.pc.edited;
    var need := {NumberSlot(row.seasonId, edited.number)};
    if NumberTaken(t.rounds, id, row.seasonId, edited.number) then Go(need, Refuse(tx, DuplicateRecord))
    else Go(need, WriteRoundRow(Take(tx, need, RoundWritten(row, edited)), id, RoundRowAfter(row, edited)))
  }

  /** A last round closes its season, then the transaction commits. */
  function PlanRoundEnd(t: Tables, tx: Tx): Move
    requires tx.pc.RoundWritten?
  {
    var row, edited := tx.pc.row, tx.pc.edited;
    var s := edited.seasonId;
    var reply := RoundReply(RoundRowAfter(row, edited));
    if IsClosing(row, edited) && edited.number == ROUNDS_PER_SEASON && SeasonAt(t, s, SeasonInProgress) then
      var need := {SeasonLock(s)};
      Go(need, WriteSeason(Take(tx, need, Ending(reply)), s, Season(SeasonClosed, t.seasons[s].version + 1)))
    else At(tx, Ending(reply))
  }

  // ---------- match and season edits ----------

  function PlanReadMatch(t: Tables, tx: Tx): Move
    requires tx.cmd.PatchMatch?
  {
    var id := tx.cmd.editedId;
    if id < 1 || id !in t.matches then Fail(tx, RecordNotFound)
    else
      match PrepareMatch(tx.cmd, t.matches[id])
      case Err(e) => Fail(tx, e)
      case Ok(edited) =>
        if TeamsExist(t, edited) then At(tx, MatchRead(t.matches[id], edited)) else Fail(tx, InvalidInput)
  }

  function PlanMatchRow(t: Tables, tx: Tx): Move
    requires tx.pc.MatchBegun? && tx.cmd.PatchMatch?
  {
    var id, edited := tx.cmd.editedId, tx.pc.editedMatch;
    if id !in t.matches || t.matches[id].version != edited.version then Fail(tx, EditConflict)
    else
      var need := {MatchLock(id)};
      var written := EditedRow(tx.now, t.matches[id], edited);
      match EditRowError(tx.now, t.matches[id], written)
      case Some(e) => Go(need, Refuse(tx, e))
      case None => Go(need, WriteMatch(Take(tx, need, Ending(MatchReply(written))), id, written))
  }

  function PlanReadSeason(t: Tables, tx: Tx): Move
    requires tx.cmd.PatchSeason?
  {
    var id := tx.cmd.seasonId;
    if id < 1 || id !in t.seasons then Fail(tx, RecordNotFound)
    else
      match PrepareSeason(tx.cmd, t.seasons[id])
      case Err(e) => Fail(tx, e)
      case Ok(edited) => At(tx, SeasonRead(t.seasons[id], edited))
  }

  function PlanSeasonRow(t: Tables, tx: Tx): Move
    requires tx.pc.SeasonBegun? && tx.cmd.PatchSeason?
  {
    var id, edited := tx.cmd.seasonId, tx.pc.editedSeason;
    if id !in t.seasons || t.seasons[id].version != edited.version then Fail(tx, EditConflict)
    else
      var need := {SeasonLock(id)};
      var written := Season(edited.status, t.seasons[id].version + 1);
      if !SeasonUpdateAllowed(t, tx.now, id, written) then Go(need, Refuse(tx, RecordInUse))
      else Go(need, WriteSeason(Take(tx, need, Ending(SeasonReply(written))), id, written))
  }

  // ---------- one step ----------

  function PlanStart(t: Tables, tx: Tx): Move {
    match tx.cmd
    case CreateRide(_, _, _) => PlanClaim(t, tx)
    case DecideRide(_, _, _, _) => PlanClaim(t, tx)
    case ResolveMatch(_, _, _, _, _) => PlanResolve(t, tx)
    case PatchRound(_, _, _, _, _) => PlanReadRound(t, tx)
    case PatchMatch(_, _, _, _) => PlanReadMatch(t, tx)
    case PatchSeason(_, _, _) => PlanReadSeason(t, tx)
  }

  function PlanRide(t: Tables, clock: int, tx: Tx, pick: int): Move {
    match tx.pc
    case ClaimLost => if IsRideCommand(tx.cmd) then PlanReplay(t, tx) else Stuck
    case Claimed => PlanClaimed(t, clock, tx)
    case RideRead(_) => PlanPhase(t, clock, tx)
    case PhaseRead(_, _, _) => if tx.cmd.DecideRide? then PlanDecide(t, tx) else Stuck
    case Decided(_, _, _, _) => if tx.cmd.DecideRide? then PlanUpdate(t, tx) else Stuck
    case Updating(_, _, _, _, _) => if tx.cmd.DecideRide? then PlanUpdateRow(t, tx) else Stuck
    case Creating(_, _) => PlanInsert(t, tx)
    case Inserting(_, _, _) => PlanInsertRow(t, tx, pick)
    case Written(_, _) => if IsRideCommand(tx.cmd) then PlanSave(tx) else Stuck
    case Saved(_, _, response) => Commit(Ok(RideReply(response)))
    case _ => Stuck
  }

  function PlanAdmin(t: Tables, clock: int, tx: Tx, pick: int): Move {
    match tx.pc
    case Resolving(_) => if tx.cmd.ResolveMatch? then PlanResolveRow(t, tx) else Stuck
    case Scored => if tx.cmd.ResolveMatch? then PlanSettle(t, tx) else Stuck
    case Settling(_, _) => if tx.cmd.ResolveMatch? then PlanSettleRow(t, tx, pick) else Stuck
    case RoundRead(_, _) => PlanBegin(clock, tx)
    case RoundBegun(_, _) => if tx.cmd.PatchRound? then PlanDispatch(t, tx) else Stuck
    case AutoResolving(_, _, _) => PlanAutoRow(t, tx, pick)
    case RoundReady(_, _) => if tx.cmd.PatchRound? then PlanRoundRow(t, tx) else Stuck
    case RoundGated(_, _) => if tx.cmd.PatchRound? then PlanRoundIndex(t, tx) else Stuck
    case RoundWritten(_, _) => PlanRoundEnd(t, tx)
    case MatchRead(_, _) => PlanBegin(clock, tx)
    case MatchBegun(_, _) => if tx.cmd.PatchMatch? then PlanMatchRow(t, tx) else Stuck
    case SeasonRead(_, _) => PlanBegin(clock, tx)
    case SeasonBegun(_, _) => if tx.cmd.PatchSeason? then PlanSeasonRow(t, tx) else Stuck
    case Ending(reply) => Commit(Ok(reply))
    case _ => Stuck
  }

  function Plan(t: Tables, clock: int, tx: Tx, pick: int): Move {
    if tx.pc.Start? then PlanStart(t, tx)
    else if IsRideCommand(tx.cmd) then PlanRide(t, clock, tx, pick)
    else PlanAdmin(t, clock, tx, pick)
  }

  // ---------- the system ----------

  /** One committed command, with the clock it read and the identity it drew. */
  datatype Entry = Entry(tid: int, cmd: Command, at: int, id: int, w: Writes, answer: Result<Reply>)

  datatype System = System(db: Tables, clock: int, txs: map<int, Tx>, log: seq<Entry>)

  datatype Event =
    | Tick(seconds: nat)
    | Begin(tid: int, cmd: Command)
    | Advance(tid: int, pick: int)
    | Cancel(tid: int)               // cancellation, deadlock, lost connection: a rollback

  predicate MayTake(s: System, tid: int, need: set<Lock>) {
    forall u | u in s.txs :: u != tid ==> Compatible(need, s.txs[u].locks)
  }

  function EntryOf(tid: int, tx: Tx, answer: Result<Reply>): Entry {
    if tx.pc.Saved? then Entry(tid, tx.cmd, tx.pc.at, tx.pc.id, tx.w, answer)
    else Entry(tid, tx.cmd, tx.now, 0, tx.w, answer)
  }

  function Finished(tx: Tx, answer: Result<Reply>): Tx {
    tx.(pc := Done(answer), w := NOTHING, locks := {})
  }

  function AdvanceTx(s: System, tid: int, pick: int): System
    requires tid in s.txs
  {
    var tx := s.txs[tid];
    match Plan(s.db, s.clock, tx, pick)
    case Stuck => s
    case Go(need, next) => if MayTake(s, tid, need) then s.(txs := s.txs[tid := next]) else s
    case Commit(answer) =>
      s.(db := Overlay(s.db, tx.w), txs := s.txs[tid := Finished(tx, answer)],
          log := s.log + [EntryOf(tid, tx, answer)])
  }

  function Next(s: System, event: Event): System {
    match event
    case Tick(seconds) => s.(clock := s.clock + seconds)
    case Begin(tid, cmd) => if tid in s.txs then s else s.(txs := s.txs[tid := Tx(cmd, s.clock, Start, NOTHING, {})])
    case Advance(tid, pick) => if tid in s.txs then AdvanceTx(s, tid, pick) else s
    case Cancel(tid) =>
      if tid in s.txs && !s.txs[tid].pc.Done? then s.(txs := s.txs[tid := Refuse(s.txs[tid], Aborted)]) else s
  }

  /** Every interleaving is a schedule of events, and every schedule is allowed. */
  function Play(s: System, events: seq<Event>): System
    decreases |events|
  {
    if events == [] then s else Next(Play(s, events[..|events| - 1]), events[|events| - 1])
  }

  predicate Initial(s: System) {
    s.txs == map[] && s.log == []
  }
}
