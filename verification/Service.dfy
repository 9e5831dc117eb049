/** The stores, the service and the handlers as they run: a transaction works on
    its own copy of the tables, and only Commit makes the copy the database.
    Every method is proved against the command it implements. */
module Services {
  import opened Collections
  import opened Model
  import opened Lifecycle
  import opened Gates
  import opened Rides
  import opened Statements
  import opened Commands

  /** The committed tables; the pool's statements read and write them directly. */
  class Database {
    var committed: Tables

    constructor (t: Tables)
      ensures committed == t
    {
      committed := t;
    }
  }

  /** All targets settled one by one, each allowed by the gate, is the set-based settlement. */
  lemma SettledRowByRow(was: Tables, now: Tables, matchId: int)
    requires matchId in was.matches && now == was.(rides := now.rides) && now.rides.Keys == was.rides.Keys
    requires forall id | id in was.rides ::
      now.rides[id]
      == if OnMatch(was.rides[id], matchId) then SettledRow(was.matches[matchId], was.rides[id]) else was.rides[id]
    requires forall id | id in was.rides :: OnMatch(was.rides[id], matchId) ==>
      RideUpdateAllowed(was, was.rides[id], SettledRow(was.matches[matchId], was.rides[id]))
    ensures SettleAll(was, matchId) == Ok(now)
  {
    hide RideUpdateAllowed, SettledRow;
    var all := SettleAll(was, matchId);
    assert all.Ok? && all.value.rides.Keys == was.rides.Keys;
    assert forall id | id in was.rides :: now.rides[id] == all.value.rides[id];
    assert all.value.rides == now.rides;
  }

  lemma ResolvedRowByRow(was: Tables, now: Tables, roundId: int, number: int)
    requires now == was.(rides := now.rides) && now.rides.Keys == was.rides.Keys
    requires forall id | id in was.rides ::
      now.rides[id] == if Undecided(was, was.rides[id], roundId) then AutoRow(number, was.rides[id]) else was.rides[id]
    requires forall id | id in was.rides :: Undecided(was, was.rides[id], roundId) ==>
      RideUpdateAllowed(was, was.rides[id], AutoRow(number, was.rides[id]))
    ensures AutoResolveAll(was, roundId, number) == Ok(now)
  {
    hide RideUpdateAllowed, AutoRow;
    var all := AutoResolveAll(was, roundId, number);
    assert all.Ok? && all.value.rides.Keys == was.rides.Keys;
    assert forall id | id in was.rides :: now.rides[id] == all.value.rides[id];
    assert all.value.rides == now.rides;
  }

  /** An open transaction. Dropping it without Commit is the deferred rollback. */
  class Tx {
    const db: Database
    var pending: Tables

    constructor (db: Database)
      ensures this.db == db && pending == db.committed
    {
      this.db := db;
      pending := db.committed;
    }

    method Commit()
      modifies db
      ensures db.committed == pending
    {
      db.committed := pending;
    }

    /** Claims the key, or answers with what the key already stores. */
    method Claim(token: Token) returns (claimed: bool, replay: Result<Response>)
      modifies this
      ensures claimed <==> token.key !in old(pending.keys)
      ensures claimed ==> pending == PutKey(old(pending), token.key, ClaimRow(token))
      ensures !claimed ==> pending == old(pending) && replay == StoredAnswer(pending.keys[token.key], token)
    {
      if token.key !in pending.keys {
        pending := pending.(keys := pending.keys[token.key := ClaimRow(token)]);
        return true, Err(Internal);
      }
      var row := pending.keys[token.key];
      if row.hash != token.hash {
        return false, Err(IdempotencyConflict);
      }
      return false, Ok(row.response);
    }

    method SaveResponse(token: Token, response: Response) returns (err: Option<Error>)
      modifies this
      ensures err == None ==> Save(old(pending), token, response) == Ok(pending)
      ensures err.Some? ==> Save(old(pending), token, response) == Err(err.value)
    {
      if token.key !in pending.keys {
        return Some(IdempotencyConflict);
      }
      pending := pending.(keys := pending.keys[token.key := pending.keys[token.key].(response := response)]);
      return None;
    }

    method InsertRide(id: int, ride: Ride) returns (err: Option<Error>)
      modifies this
      ensures err == None ==> InsertGuarded(old(pending), id, ride) == Ok(pending)
      ensures err.Some? ==> InsertGuarded(old(pending), id, ride) == Err(err.value)
    {
      if !RoundOpenFor(pending, ride.matchId) {
        return Some(InsertRefusal(pending, ride.matchId));
      }
      if id in pending.rides {
        return Some(Internal);
      }
      err := InsertRowError(pending, ride);
      if err == None {
        pending := pending.(rides := pending.rides[id := ride.(version := 1)]);
      }
    }

    method UpdateRide(id: int, next: Ride, destination: int) returns (err: Option<Error>)
      modifies this
      ensures err == None ==> UpdateGuarded(old(pending), id, next, destination) == Ok(pending)
      ensures err.Some? ==> UpdateGuarded(old(pending), id, next, destination) == Err(err.value)
    {
      if id !in pending.rides || !UpdateGuard(pending, pending.rides[id], next.version, destination) {
        return Some(RoundNotOpen);
      }
      var row := pending.rides[id];
      var written := UpdatedRow(row, next);
      err := UpdateRowError(pending, row, written);
      if err == None {
        pending := pending.(rides := pending.rides[id := written]);
      }
    }

    method Resolve(matchId: int, home: Option<int>, away: Option<int>, endedAt: int, version: int, now: int)
      returns (err: Option<Error>)
      modifies this
      ensures err == None ==> ResolveMatchRow(old(pending), now, matchId, home, away, endedAt, version) == Ok(pending)
      ensures err.Some? ==> ResolveMatchRow(old(pending), now, matchId, home, away, endedAt, version) == Err(err.value)
    {
      if matchId !in pending.matches || !ResolveGuard(pending, now, pending.matches[matchId], version) {
        return Some(ResolveRefusal(pending, matchId));
      }
      var row := ResolvedRow(now, pending.matches[matchId], home, away, endedAt);
      if !MatchRowOk(row) {
        return Some(ConstraintViolation);
      }
      pending := pending.(matches := pending.matches[matchId := row]);
      return None;
    }

    /** The settlement touches its target rows one by one, each under the gate. */
    method UpdateAllForMatch(matchId: int) returns (err: Option<Error>)
      modifies this
      ensures err == None ==> SettleAll(old(pending), matchId) == Ok(pending)
      ensures err.Some? ==> SettleAll(old(pending), matchId) == Err(err.value)
    {
      if matchId !in pending.matches {
        return None;
      }
      hide RideUpdateAllowed, SettledRow;
      var m := pending.matches[matchId];
      ghost var was := pending;
      var todo := set id | id in pending.rides && OnMatch(pending.rides[id], matchId);
      while todo != {}
        invariant todo <= was.rides.Keys
        invariant forall id | id in todo :: OnMatch(was.rides[id], matchId)
        invariant pending == was.(rides := pending.rides) && pending.rides.Keys == was.rides.Keys
        invariant forall id | id in was.rides ::
            pending.rides[id]
            == if OnMatch(was.rides[id], matchId) && id !in todo then SettledRow(m, was.rides[id]) else was.rides[id]
        invariant forall id | id in was.rides :: OnMatch(was.rides[id], matchId) && id !in todo ==>
            RideUpdateAllowed(was, was.rides[id], SettledRow(m, was.rides[id]))
        decreases todo
      {
        ghost var first := Pick(todo);
        var id :| id in todo;
        var row := pending.rides[id];
        var written := SettledRow(m, row);
        GateReadsMatches(was, pending, row, written);
        if !RideUpdateAllowed(pending, row, written) {
          assert !RideUpdateAllowed(was, was.rides[id], SettledRow(m, was.rides[id]));
          return Some(InvalidTransition);
        }
        pending := pending.(rides := pending.rides[id := written]);
        todo := todo - {id};
      }
      SettledRowByRow(was, pending, matchId);
      return None;
    }

    /** Auto-unlock or auto-burn of the closing round's undecided rides. */
    method AutoResolve(roundId: int, number: int) returns (err: Option<Error>)
      modifies this
      ensures err == None ==> AutoResolveAll(old(pending), roundId, number) == Ok(pending)
      ensures err.Some? ==> AutoResolveAll(old(pending), roundId, number) == Err(err.value)
    {
      hide RideUpdateAllowed, AutoRow;
      ghost var was := pending;
      var todo := set id | id in pending.rides && Undecided(pending, pending.rides[id], roundId);
      while todo != {}
        invariant todo <= was.rides.Keys
        invariant forall id | id in todo :: Undecided(was, was.rides[id], roundId)
        invariant pending == was.(rides := pending.rides) && pending.rides.Keys == was.rides.Keys
        invariant forall id | id in was.rides ::
            pending.rides[id]
            == if Undecided(was, was.rides[id], roundId) && id !in todo then AutoRow(number, was.rides[id])
                else was.rides[id]
        invariant forall id | id in was.rides :: Undecided(was, was.rides[id], roundId) && id !in todo ==>
            RideUpdateAllowed(was, was.rides[id], AutoRow(number, was.rides[id]))
        decreases todo
      {
        ghost var first := Pick(todo);
        var id :| id in todo;
        var row := pending.rides[id];
        var written := AutoRow(number, row);
        GateReadsMatches(was, pending, row, written);
        if !RideUpdateAllowed(pending, row, written) {
          assert !RideUpdateAllowed(was, was.rides[id], AutoRow(number, was.rides[id]));
          return Some(InvalidTransition);
        }
        pending := pending.(rides := pending.rides[id := written]);
        todo := todo - {id};
      }
      ResolvedRowByRow(was, pending, roundId, number);
      return None;
    }

    method UpdateRound(id: int, edited: Round, now: int) returns (err: Option<Error>)
      modifies this
      ensures err == None ==> UpdateRoundRow(old(pending), now, id, edited) == Ok(pending)
      ensures err.Some? ==> UpdateRoundRow(old(pending), now, id, edited) == Err(err.value)
    {
      if id !in pending.rounds || pending.rounds[id].version != edited.version {
        return Some(EditConflict);
      }
      var row := pending.rounds[id];
      var written := RoundRowAfter(row, edited);
      err := RoundRowError(pending, now, id, row, written);
      if err == None {
        pending := pending.(rounds := pending.rounds[id := written]);
      }
    }

    method FlipSeasonStatus(id: int, from: SeasonStatus, to: SeasonStatus)
      modifies this
      ensures pending == FlipSeason(old(pending), id, from, to)
    {
      if id in pending.seasons && pending.seasons[id].status == from {
        pending := pending.(seasons := pending.seasons[id := Season(to, pending.seasons[id].version + 1)]);
      }
    }
  }

  function RideAnswer(res: Result<Response>): Result<Reply> {
    match res
    case Ok(response) => Ok(RideReply(response))
    case Err(e) => Err(e)
  }

  function RoundAnswer(res: Result<Round>): Result<Reply> {
    match res
    case Ok(round) => Ok(RoundReply(round))
    case Err(e) => Err(e)
  }

  function MatchAnswer(res: Result<Match>): Result<Reply> {
    match res
    case Ok(m) => Ok(MatchReply(m))
    case Err(e) => Err(e)
  }

  class Service {
    const db: Database

    constructor (db: Database)
      ensures this.db == db
    {
      this.db := db;
    }

    /** Claim, phase gate, domain command, guarded insert, stored answer, commit. */
    method RideCreate(input: Ride, token: Token, marshal: Marshal, now: int, id: int) returns (res: Result<Response>)
      modifies db
      ensures Outcome(db.committed, RideAnswer(res)) == Run(old(db.committed),
          CreateRide(input, token, marshal), now, id)
    {
      var tx := new Tx(db);
      var claimed, replay := tx.Claim(token);
      if !claimed {
        return replay;
      }
      var phase := RidePhase(db.committed, now, input.matchId);
      if phase.Err? {
        return Err(phase.error);
      }
      var ride := new RideEntity(input);
      var err := ride.Create(phase.value);
      if err.Some? {
        return Err(err.value);
      }
      err := tx.InsertRide(id, ride.Row());
      if err.Some? {
        return Err(err.value);
      }
      res := FinishRide(tx, id, token, marshal);
    }

    /** The shared tail: marshal the written ride, store the answer, commit. */
    method FinishRide(tx: Tx, id: int, token: Token, marshal: Marshal) returns (res: Result<Response>)
      requires tx.db == db && id in tx.pending.rides
      modifies db, tx
      ensures match StoreAnswer(old(tx.pending), id, token, marshal)
              case Ok((after, response)) => db.committed == after && res == Ok(response)
              case Err(e) => db.committed == old(db.committed) && res == Err(e)
    {
      res := marshal(id, tx.pending.rides[id]);
      if res.Err? {
        return;
      }
      var err := tx.SaveResponse(token, res.value);
      if err.Some? {
        return Err(err.value);
      }
      tx.Commit();
    }

    /** Continuation: the pick of the next match is the destination of the write. */
    method RideLock(rideId: int, token: Token, marshal: Marshal, now: int) returns (res: Result<Response>)
      modifies db
      ensures Outcome(db.committed, RideAnswer(res)) == Run(old(db.committed),
          DecideRide(Continue, rideId, token, marshal), now, 0)
    {
      var tx := new Tx(db);
      var claimed, replay := tx.Claim(token);
      if !claimed {
        return replay;
      }
      if rideId !in db.committed.rides {
        return Err(RecordNotFound);
      }
      var ride := new RideEntity(db.committed.rides[rideId]);
      var phase := RidePhase(db.committed, now, ride.matchId);
      if phase.Err? {
        return Err(phase.error);
      }
      var nextMatch := NextForTeam(db.committed, ride.teamId);
      if nextMatch.Err? {
        return Err(nextMatch.error);
      }
      var err := ride.Lock(phase.value, nextMatch.value);
      if err.Some? {
        return Err(err.value);
      }
      err := tx.UpdateRide(rideId, ride.Row(), nextMatch.value);
      if err.Some? {
        return Err(err.value);
      }
      res := FinishRide(tx, rideId, token, marshal);
    }

    method RideBurn(rideId: int, token: Token, marshal: Marshal, now: int) returns (res: Result<Response>)
      modifies db
      ensures Outcome(db.committed, RideAnswer(res)) == Run(old(db.committed),
          DecideRide(Decision.Burn, rideId, token, marshal), now, 0)
    {
      var tx := new Tx(db);
      var claimed, replay := tx.Claim(token);
      if !claimed {
        return replay;
      }
      if rideId !in db.committed.rides {
        return Err(RecordNotFound);
      }
      var ride := new RideEntity(db.committed.rides[rideId]);
      var phase := RidePhase(db.committed, now, ride.matchId);
      if phase.Err? {
        return Err(phase.error);
      }
      var err := ride.Burn(phase.value);
      if err.Some? {
        return Err(err.value);
      }
      err := tx.UpdateRide(rideId, ride.Row(), 0);
      if err.Some? {
        return Err(err.value);
      }
      res := FinishRide(tx, rideId, token, marshal);
    }

    method RideUnlock(rideId: int, token: Token, marshal: Marshal, now: int) returns (res: Result<Response>)
      modifies db
      ensures Outcome(db.committed, RideAnswer(res)) == Run(old(db.committed),
          DecideRide(Decision.Unlock, rideId, token, marshal), now, 0)
    {
      var tx := new Tx(db);
      var claimed, replay := tx.Claim(token);
      if !claimed {
        return replay;
      }
      if rideId !in db.committed.rides {
        return Err(RecordNotFound);
      }
      var ride := new RideEntity(db.committed.rides[rideId]);
      var phase := RidePhase(db.committed, now, ride.matchId);
      if phase.Err? {
        return Err(phase.error);
      }
      var err := ride.Unlock(phase.value);
      if err.Some? {
        return Err(err.value);
      }
      err := tx.UpdateRide(rideId, ride.Row(), 0);
      if err.Some? {
        return Err(err.value);
      }
      res := FinishRide(tx, rideId, token, marshal);
    }

    /** The score write first, then every locked ride of the match, then commit. */
    method MatchResolve(matchId: int, home: Option<int>, away: Option<int>, endedAt: int, version: int, now: int)
      returns (res: Result<Match>)
      modifies db
      ensures Outcome(db.committed, MatchAnswer(res))
           == Run(old(db.committed), Command.ResolveMatch(matchId, home, away, endedAt, version), now, 0)
    {
      var tx := new Tx(db);
      var err := tx.Resolve(matchId, home, away, endedAt, version, now);
      if err.Some? {
        return Err(err.value);
      }
      var reply := ResolveReply(tx.pending.matches[matchId], endedAt);
      err := tx.UpdateAllForMatch(matchId);
      if err.Some? {
        return Err(err.value);
      }
      tx.Commit();
      return Ok(reply);
    }

    /** resolveMatchHandler: a refused request starts no transaction; `now` is the
        handler's clock, `at` the transaction's. */
    method ResolveMatch(matchId: int, home: Option<int>, away: Option<int>, endedAt: Option<int>, version: int,
        now: int, at: int)
      returns (res: Result<Match>)
      modifies db
      ensures ResolveValid(matchId, home, away, endedAt, now) ==>
        Outcome(db.committed, MatchAnswer(res))
        == Run(old(db.committed), Command.ResolveMatch(matchId, home, away, endedAt.value, version), at, 0)
      ensures !ResolveValid(matchId, home, away, endedAt, now) ==>
        res == Err(InvalidInput) && db.committed == old(db.committed)
    {
      var v := new Validator();
      ValidateResolveMatch(v, matchId, home, away, endedAt, now);
      if !v.Valid() {
        return Err(InvalidInput);
      }
      res := MatchResolve(matchId, home, away, endedAt.value, version, at);
    }

    // ---------- round store ----------

    method Open(id: int, edited: Round, now: int) returns (err: Option<Error>)
      modifies db
      ensures err == None ==> OpenRound(old(db.committed), id, edited, now) == Ok(db.committed)
      ensures err.Some? ==>
        OpenRound(old(db.committed), id, edited, now) == Err(err.value) && db.committed == old(db.committed)
    {
      var tx := new Tx(db);
      tx.FlipSeasonStatus(edited.seasonId, SeasonOpen, SeasonInProgress);
      err := tx.UpdateRound(id, edited, now);
      if err == None {
        tx.Commit();
      }
    }

    /** Rides first, then the status flip, then the season of a last round. */
    method Close(id: int, edited: Round, now: int) returns (err: Option<Error>)
      modifies db
      ensures err == None ==> CloseRound(old(db.committed), id, edited, now) == Ok(db.committed)
      ensures err.Some? ==>
        CloseRound(old(db.committed), id, edited, now) == Err(err.value) && db.committed == old(db.committed)
    {
      var tx := new Tx(db);
      err := tx.AutoResolve(id, edited.number);
      if err.Some? {
        return;
      }
      err := tx.UpdateRound(id, edited, now);
      if err.Some? {
        return;
      }
      if edited.number == ROUNDS_PER_SEASON {
        tx.FlipSeasonStatus(edited.seasonId, SeasonInProgress, SeasonClosed);
      }
      tx.Commit();
    }

    /** updateRoundHandler: read, overwrite, validate, dispatch under the version read. */
    method UpdateRound(cmd: Command, now: int) returns (res: Result<Round>)
      requires cmd.PatchRound?
      modifies db
      ensures Outcome(db.committed, RoundAnswer(res)) == Run(old(db.committed), cmd, now, 0)
    {
      if cmd.roundId < 1 || cmd.roundId !in db.committed.rounds {
        return Err(RecordNotFound);
      }
      var round := db.committed.rounds[cmd.roundId];
      if round.seasonId != cmd.inSeason {
        return Err(RecordNotFound);
      }
      var current := round;
      if cmd.expected.Some? && cmd.expected.value != round.version {
        return Err(EditConflict);
      }
      if cmd.number.Some? {
        round := round.(number := cmd.number.value);
      }
      if cmd.roundStatus.Some? {
        round := round.(status := cmd.roundStatus.value);
      }
      var v := new Validator();
      ValidateRoundUpdate(v, current, round);
      if !v.Valid() {
        return Err(InvalidInput);
      }
      var err;
      if current.status == RoundCreated && round.status == RoundOpen {
        err := Open(cmd.roundId, round, now);
      } else if current.status == RoundOpen && round.status == RoundClosed {
        err := Close(cmd.roundId, round, now);
      } else {
        var tx := new Tx(db);
        err := tx.UpdateRound(cmd.roundId, round, now);
        if err == None {
          tx.Commit();
        }
      }
      if err.Some? {
        return Err(err.value);
      }
      return Ok(RoundRowAfter(current, round));
    }

    /** The request's fields overwrite the row that was read, one after another. */
    method Overwrite(row: Match, input: MatchEdit) returns (m: Match)
      ensures m == Overwritten(row, input)
    {
      m := row;
      if input.startsAt.Some? {
        m := m.(startsAt := input.startsAt.value);
      }
      if input.homeTeamId.Some? {
        m := m.(homeTeamId := input.homeTeamId.value);
      }
      if input.awayTeamId.Some? {
        m := m.(awayTeamId := input.awayTeamId.value);
      }
      if input.status.Some? {
        m := m.(status := input.status.value);
      }
      if input.odds.Some? {
        m := m.(homeOdds := input.odds.value.0, awayOdds := input.odds.value.1);
      }
      if input.score.Some? {
        m := m.(homeScore := input.score.value.0, awayScore := input.score.value.1);
      }
    }

    /** MatchStore.Update: one version-guarded statement on the pool. */
    method EditMatch(id: int, edited: Match, now: int) returns (res: Result<Match>)
      modifies db
      ensures res.Ok? ==>
        UpdateMatchRow(old(db.committed), now, id, edited) == Ok(db.committed) && db.committed.matches[id] == res.value
      ensures res.Err? ==>
        UpdateMatchRow(old(db.committed), now, id, edited) == Err(res.error) && db.committed == old(db.committed)
    {
      if id !in db.committed.matches || db.committed.matches[id].version != edited.version {
        return Err(EditConflict);
      }
      var row := db.committed.matches[id];
      var written := EditedRow(now, row, edited);
      var err := EditRowError(now, row, written);
      if err.Some? {
        return Err(err.value);
      }
      db.committed := db.committed.(matches := db.committed.matches[id := written]);
      return Ok(written);
    }

    /** updateMatchHandler: read, overwrite, validate, check the teams, write under the version read. */
    method UpdateMatch(cmd: Command, now: int) returns (res: Result<Match>)
      requires cmd.PatchMatch?
      modifies db
      ensures Outcome(db.committed, MatchAnswer(res)) == Run(old(db.committed), cmd, now, 0)
    {
      if cmd.editedId < 1 || cmd.editedId !in db.committed.matches {
        return Err(RecordNotFound);
      }
      var m := db.committed.matches[cmd.editedId];
      if m.seasonId != cmd.inSeason {
        return Err(RecordNotFound);
      }
      if cmd.expected.Some? && cmd.expected.value != m.version {
        return Err(EditConflict);
      }
      var current := m;
      m := Overwrite(m, cmd.edit);
      var v := new Validator();
      ValidateMatchUpdate(v, current, m);
      if !v.Valid() {
        return Err(InvalidInput);
      }
      if m.homeTeamId !in db.committed.teams || m.awayTeamId !in db.committed.teams {
        return Err(InvalidInput);
      }
      res := EditMatch(cmd.editedId, m, now);
    }

    /** updateSeasonHandler: read, overwrite, validate, write under the version read. */
    method UpdateSeason(cmd: Command, now: int) returns (res: Result<Season>)
      requires cmd.PatchSeason?
      modifies db
      ensures Outcome(db.committed, if res.Ok? then Ok(SeasonReply(res.value)) else Err(res.error))
          == Run(old(db.committed), cmd, now, 0)
    {
      if cmd.seasonId < 1 || cmd.seasonId !in db.committed.seasons {
        return Err(RecordNotFound);
      }
      var current := db.committed.seasons[cmd.seasonId];
      if cmd.expected.Some? && cmd.expected.value != current.version {
        return Err(EditConflict);
      }
      var season := current;
      if cmd.seasonStatus.Some? {
        season := season.(status := cmd.seasonStatus.value);
      }
      var v := new Validator();
      ValidateSeasonUpdate(v, current, season);
      if !v.Valid() {
        return Err(InvalidInput);
      }
      var written := Season(season.status, current.version + 1);
      if !SeasonUpdateAllowed(db.committed, now, cmd.seasonId, written) {
        return Err(RecordInUse);
      }
      db.committed := db.committed.(seasons := db.committed.seasons[cmd.seasonId := written]);
      return Ok(written);
    }
  }
}
