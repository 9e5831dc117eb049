/** The course a command takes when nothing stops it: what a ride command reads, writes
    and commits, and a resolution from its beginning to its commit. */
module Courses {
  import opened Collections
  import opened Model
  import opened Phases
  import opened Gates
  import opened Rides
  import opened Statements
  import opened Commands
  import Facts
  import opened Interleaving
  import opened Safety
  import opened Stability
  import opened Steps
  import opened Stranding
  import opened LockedRides

  /** The rule lets the transaction begin with its command and take its steps. */
  ghost predicate Permits(rule: Rule, a: int, cmd: Command) {
    && (forall s: System :: a !in s.txs ==> rule(s, Begin(a, cmd)))
    && PermitsSteps(rule, a, cmd)
  }

  ghost predicate PermitsSteps(rule: Rule, a: int, cmd: Command) {
    forall s: System, pick :: a in s.txs && s.txs[a].cmd == cmd ==> rule(s, Advance(a, pick))
  }

  /** No other transaction holds anything but a key. */
  ghost predicate KeysOnly(u: System, tid: int) {
    forall a, lock | a in u.txs && a != tid && lock in u.txs[a].locks :: lock.KeyLock?
  }

  lemma KeysMayTake(u: System, tid: int, lock: Lock)
    requires KeysOnly(u, tid) && !lock.KeyLock?
    ensures MayTake(u, tid, {lock})
  {
    forall a, y | a in u.txs && a != tid && y in u.txs[a].locks ensures !Conflict(lock, y) {
      assert y.KeyLock?;
    }
  }

  // ---------- the resolution, whole ----------

  function ClosedMatch(t: Tables, now: int, r: Command): Match
    requires r.ResolveMatch? && r.matchId in t.matches
  {
    ResolvedRow(now, t.matches[r.matchId], r.home, r.away, r.endedAt)
  }

  function Resolution(r: Command, now: int, pc: Pc, closed: Match, rides: map<int, Ride>, locks: set<Lock>): Tx
    requires r.ResolveMatch?
  {
    Tx(r, now, pc, NOTHING.(matches := map[r.matchId := closed], rides := rides), locks)
  }

  lemma ResolutionScores(s: System, u: System, rule: Rule, a: int, r: Command)
    requires r.ResolveMatch? && Permits(rule, a, r) && Reaches(s, u, rule) && a !in u.txs && KeysOnly(u, a)
    requires MayYetResolve(u.db, r) && MatchRowOk(u.db.matches[r.matchId]) && u.db.matches[r.matchId].startsAt < u.clock
    ensures Reaches(s, With(u, a,
              Resolution(r, u.clock, Pc.Scored, ClosedMatch(u.db, u.clock, r), map[], {MatchLock(r.matchId)})), rule)
  {
    var start := Tx(r, u.clock, Start, NOTHING, {});
    ReachesNext(s, u, Begin(a, r), rule);
    Takes(s, u, rule, a, start, 0, {}, start.(pc := Resolving(u.db)));
    var scored := Resolution(r, u.clock, Pc.Scored, ClosedMatch(u.db, u.clock, r), map[], {MatchLock(r.matchId)});
    ScoreIsTaken(u.db, u.clock, r);
    KeysMayTake(u, a, MatchLock(r.matchId));
    Takes(s, u, rule, a, start.(pc := Resolving(u.db)), 0, {MatchLock(r.matchId)}, scored);
  }

  lemma ScoreIsTaken(t: Tables, now: int, r: Command)
    requires r.ResolveMatch? && MayYetResolve(t, r) && MatchRowOk(t.matches[r.matchId])
        && t.matches[r.matchId].startsAt < now
    ensures Plan(t, now, Tx(r, now, Resolving(t), NOTHING, {}), 0)
         == Go({MatchLock(r.matchId)}, Resolution(r, now, Pc.Scored, ClosedMatch(t, now, r), map[],
             {MatchLock(r.matchId)}))
  {
  }

  /** What the settlement still has to do can be done. */
  ghost predicate MaySettle(t: Tables, r: Command, closed: Match, todo: set<int>)
    requires r.ResolveMatch?
  {
    && closed.status == MatchClosed && MatchRowOk(closed)
    && forall id | id in todo ::
         && id in t.rides && OnMatch(t.rides[id], r.matchId)
         && (SettledState(closed, t.rides[id].teamId) == Lost ==> t.rides[id].acc == 0.0)
  }

  lemma GateSettles(t: Tables, r: Command, closed: Match, rides: map<int, Ride>, ride: Ride)
    requires r.ResolveMatch? && closed.status == MatchClosed && MatchRowOk(closed) && OnMatch(ride, r.matchId)
    requires SettledState(closed, ride.teamId) == Lost ==> ride.acc == 0.0
    ensures RideUpdateAllowed(Overlay(t, NOTHING.(matches := map[r.matchId := closed], rides := rides)), ride,
        SettledRow(closed, ride))
  {
    Facts.ThreeWinnersAgree(closed, ride.teamId);
  }

  lemma SettlesOne(s: System, u: System, rule: Rule, a: int, r: Command, closed: Match, seen: set<int>, todo: set<int>,
                   rides: map<int, Ride>, locks: set<Lock>, pick: int)
    requires r.ResolveMatch? && Permits(rule, a, r) && KeysOnly(u, a) && MaySettle(u.db, r, closed, todo)
        && pick in todo
    requires Reaches(s, With(u, a, Resolution(r, u.clock, Settling(seen, todo), closed, rides, locks)), rule)
    ensures var row := SettledRow(closed, u.db.rides[pick]);
      Reaches(s, With(u, a, Resolution(r, u.clock, Settling(seen, todo - {pick}), closed, rides[pick := row],
                                              locks + {RideLock(pick)})), rule)
  {
    hide Reaches, RideUpdateAllowed, MatchRowOk, SettledState;
    var row := SettledRow(closed, u.db.rides[pick]);
    var tx := Resolution(r, u.clock, Settling(seen, todo), closed, rides, locks);
    GateSettles(u.db, r, closed, rides, u.db.rides[pick]);
    KeysMayTake(u, a, RideLock(pick));
    Takes(s, u, rule, a, tx, pick, {RideLock(pick)},
          Resolution(r, u.clock, Settling(seen, todo - {pick}), closed, rides[pick := row], locks + {RideLock(pick)}));
  }

  /** The settlement reaches its rows in any order, one by one, to the last. */
  lemma SettlesAll(s: System, u: System, rule: Rule, a: int, r: Command, closed: Match, seen: set<int>, todo: set<int>,
                   rides: map<int, Ride>, locks: set<Lock>) returns (settled: map<int, Ride>, held: set<Lock>)
    requires r.ResolveMatch? && Permits(rule, a, r) && KeysOnly(u, a) && MaySettle(u.db, r, closed, todo)
    requires Reaches(s, With(u, a, Resolution(r, u.clock, Settling(seen, todo), closed, rides, locks)), rule)
    requires forall id | id in rides :: id in u.db.rides && OnMatch(u.db.rides[id], r.matchId)
    ensures Reaches(s, With(u, a, Resolution(r, u.clock, Settling(seen, {}), closed, settled, held)), rule)
    ensures forall id | id in settled :: id in u.db.rides && OnMatch(u.db.rides[id], r.matchId)
    decreases |todo|
  {
    if todo == {} {
      settled, held := rides, locks;
    } else {
      var pick := Pick(todo);
      SettlesOne(s, u, rule, a, r, closed, seen, todo, rides, locks, pick);
      settled, held := SettlesAll(s, u, rule, a, r, closed, seen, todo - {pick},
                                  rides[pick := SettledRow(closed, u.db.rides[pick])], locks + {RideLock(pick)});
    }
  }

  lemma ClosedMatchSettles(t: Tables, now: int, r: Command, seen: set<int>)
    requires r.ResolveMatch? && MayYetResolve(t, r) && MatchRowOk(t.matches[r.matchId])
        && t.matches[r.matchId].startsAt < now
    requires forall id | id in seen :: id in t.rides && OnMatch(t.rides[id], r.matchId)
    ensures MaySettle(t, r, ClosedMatch(t, now, r), seen)
  {
    forall id | id in seen
      ensures SettledState(ClosedMatch(t, now, r), t.rides[id].teamId)
          == SettledState(ScoredAs(t.matches[r.matchId], r), t.rides[id].teamId)
    {
    }
  }

  /** The resolution waits for nothing but keys' owners hold, settles whatever rides it
      sees, and commits: the match is ended, and no other ride is touched. */
  lemma ResolutionRuns(s: System, u: System, rule: Rule, a: int, r: Command) returns (v: System)
    requires r.ResolveMatch? && Permits(rule, a, r) && Reaches(s, u, rule) && a !in u.txs && KeysOnly(u, a)
    requires MayYetResolve(u.db, r) && MatchRowOk(u.db.matches[r.matchId]) && u.db.matches[r.matchId].startsAt < u.clock
    ensures Reaches(s, v, rule) && v.clock == u.clock
    ensures a in v.txs && v.txs == u.txs[a := v.txs[a]] && v.txs[a].locks == {} && v.txs[a].pc.Done?
    ensures v.db == u.db.(matches := u.db.matches[r.matchId := ClosedMatch(u.db, u.clock, r)], rides := v.db.rides)
    ensures v.db.rides.Keys == u.db.rides.Keys
    ensures forall id | id in u.db.rides && !OnMatch(u.db.rides[id], r.matchId) :: v.db.rides[id] == u.db.rides[id]
  {
    hide Reaches, MatchRowOk, MaySettle;
    var closed := ClosedMatch(u.db, u.clock, r);
    var locks := {MatchLock(r.matchId)};
    var seen := set id | id in u.db.rides && OnMatch(u.db.rides[id], r.matchId);
    ResolutionScores(s, u, rule, a, r);
    Takes(s, u, rule, a, Resolution(r, u.clock, Pc.Scored, closed, map[], locks), 0, {},
          Resolution(r, u.clock, Settling(seen, seen), closed, map[], locks));
    ClosedMatchSettles(u.db, u.clock, r, seen);
    var settled, held := SettlesAll(s, u, rule, a, r, closed, seen, seen, map[], locks);
    var last := Resolution(r, u.clock, Settling(seen, {}), closed, settled, held);
    var answer := Ok(MatchReply(ResolveReply(closed, r.endedAt)));
    Commits(s, u, rule, a, last, answer);
    v := Committed(u, a, last, answer);
    SettledTables(u.db, r, closed, settled);
  }

  lemma SettledTables(t: Tables, r: Command, closed: Match, settled: map<int, Ride>)
    requires r.ResolveMatch? && forall id | id in settled :: id in t.rides && OnMatch(t.rides[id], r.matchId)
    ensures var v := Overlay(t, NOTHING.(matches := map[r.matchId := closed], rides := settled));
      && v == t.(matches := t.matches[r.matchId := closed], rides := v.rides)
      && v.rides.Keys == t.rides.Keys
      && forall id | id in t.rides && !OnMatch(t.rides[id], r.matchId) :: v.rides[id] == t.rides[id]
  {
    var v := Overlay(t, NOTHING.(matches := map[r.matchId := closed], rides := settled));
    assert v.matches == t.matches[r.matchId := closed];
    assert v.rounds == t.rounds && v.seasons == t.seasons && v.keys == t.keys;
    forall id ensures id in v.rides <==> id in t.rides {
    }
  }

  // ---------- the command, up to what it reads of its match ----------

  function Claiming(c: Command, now: int, pc: Pc): Tx
    requires IsRideCommand(c)
  {
    Tx(c, now, pc, NOTHING.(keys := map[c.token.key := ClaimRow(c.token)]), {KeyLock(c.token.key)})
  }

  lemma Claims(s: System, u: System, rule: Rule, a: int, c: Command)
    requires IsRideCommand(c) && Permits(rule, a, c) && Reaches(s, u, rule) && a !in u.txs
    requires c.token.key !in u.db.keys && MayTake(u, a, {KeyLock(c.token.key)})
    ensures Reaches(s, With(u, a, Claiming(c, u.clock, Claimed)), rule)
  {
    hide Reaches;
    ReachesNext(s, u, Begin(a, c), rule);
    var start := Tx(c, u.clock, Start, NOTHING, {});
    assert Plan(u.db, u.clock, start, 0) == Go({KeyLock(c.token.key)}, Claiming(c, u.clock, Claimed));
    Takes(s, u, rule, a, start, 0, {KeyLock(c.token.key)}, Claiming(c, u.clock, Claimed));
  }

  /** A step of the claimed command that needs no lock. */
  lemma ReadsOn(s: System, u: System, rule: Rule, a: int, c: Command, now: int, pc: Pc, next: Pc)
    requires IsRideCommand(c) && PermitsSteps(rule, a, c) && Reaches(s, With(u, a, Claiming(c, now, pc)), rule)
    requires Plan(u.db, u.clock, Claiming(c, now, pc), 0) == At(Claiming(c, now, pc), next)
    ensures Reaches(s, With(u, a, Claiming(c, now, next)), rule)
  {
    hide Reaches, Plan;
    Takes(s, u, rule, a, Claiming(c, now, pc), 0, {}, Claiming(c, now, next));
  }

  /** The creation reads its phase while the match still takes rides. */
  lemma CreationReads(s: System, u: System, rule: Rule, a: int, c: Command)
    requires c.CreateRide? && Permits(rule, a, c) && Reaches(s, u, rule) && a !in u.txs
    requires c.token.key !in u.db.keys && MayTake(u, a, {KeyLock(c.token.key)})
    requires MayCreateOn(u.db, u.clock, c.ride, c.ride.matchId)
    ensures Reaches(s, With(u, a, Claiming(c, u.clock, Creating(CreateOf(c.ride, ActionPhase).value, u.clock))), rule)
  {
    Claims(s, u, rule, a, c);
    ReadsOn(s, u, rule, a, c, u.clock, Claimed, Creating(CreateOf(c.ride, ActionPhase).value, u.clock));
  }

  predicate MayContinueAt(t: Tables, clock: int, c: Command, m: int) {
    && c.DecideRide? && c.decision.Continue? && MayContinueTo(t, c.rideId, m)
    && PhaseOf(clock, t.matches[t.rides[c.rideId].matchId]) == DecisionPhase
  }

  function Locking(ride: Ride, m: int): Ride {
    ride.(state := Locked, matchId := m, streak := ride.streak + 1)
  }

  function Snapshotted(t: Tables, now: int, c: Command, m: int): Pc
    requires c.DecideRide? && c.rideId in t.rides
  {
    Updating(t.rides[c.rideId], Locking(t.rides[c.rideId], m), m, now, t)
  }

  lemma DecidesAt(t: Tables, clock: int, c: Command, m: int)
    requires MayContinueAt(t, clock, c, m)
    ensures Destination(t, c.decision, t.rides[c.rideId].teamId) == Ok(m)
    ensures DecisionOf(c.decision, t.rides[c.rideId], DecisionPhase, m) == Ok(Locking(t.rides[c.rideId], m))
    ensures UpdateGuard(t, t.rides[c.rideId], t.rides[c.rideId].version, m)
  {
    NextForTeamIs(t, t.rides[c.rideId].teamId, m);
  }

  /** The continuation reads, picks, decides and takes its statement's snapshot. */
  lemma ContinuationReads(s: System, u: System, rule: Rule, a: int, c: Command, m: int)
    requires MayContinueAt(u.db, u.clock, c, m) && Permits(rule, a, c) && Reaches(s, u, rule) && a !in u.txs
    requires c.token.key !in u.db.keys && MayTake(u, a, {KeyLock(c.token.key)})
    ensures Reaches(s, With(u, a, Claiming(c, u.clock, Snapshotted(u.db, u.clock, c, m))), rule)
  {
    hide Reaches;
    var ride, now := u.db.rides[c.rideId], u.clock;
    DecidesAt(u.db, now, c, m);
    Claims(s, u, rule, a, c);
    ReadsOn(s, u, rule, a, c, now, Claimed, RideRead(ride));
    ReadsOn(s, u, rule, a, c, now, RideRead(ride), PhaseRead(ride, DecisionPhase, now));
    ReadsOn(s, u, rule, a, c, now, PhaseRead(ride, DecisionPhase, now), Decided(ride, Locking(ride, m), m, now));
    ReadsOn(s, u, rule, a, c, now, Decided(ride, Locking(ride, m), m, now), Snapshotted(u.db, now, c, m));
  }

  // ---------- a bound command, to its commit ----------

  /** One step of a transaction that is alone. */
  lemma Moves(s: System, u: System, rule: Rule, a: int, pick: int, next: Tx) returns (v: System)
    requires Reaches(s, u, rule) && SystemOk(u) && Alone(u, a) && a in u.txs && PermitsSteps(rule, a, u.txs[a].cmd)
    requires Plan(u.db, u.clock, u.txs[a], pick).Go? && Plan(u.db, u.clock, u.txs[a], pick).tx == next
    ensures Reaches(s, v, rule) && SystemOk(v) && Alone(v, a) && v == With(u, a, next) && next.cmd == u.txs[a].cmd
  {
    hide Plan, Reaches, TxOk, DbOk, TxOk;
    var need := Plan(u.db, u.clock, u.txs[a], pick).need;
    AloneMayTake(u, a, need);
    ReachesNext(s, u, Advance(a, pick), rule);
    NextIsOk(u, Advance(a, pick));
    assert TxOk(u.db, u.txs[a]);
    MoveIsGood(u.db, u.clock, u.txs[a], pick);
    v := Next(u, Advance(a, pick));
  }

  /** The ride that came to be locked on the match, and the entry that logged it. */
  ghost predicate LandedOn(u: System, w: System, a: int, m: int, id: int, e: Entry)
    requires a in u.txs
  {
    && w.clock == u.clock && w.db.matches == u.db.matches && w.log == u.log + [e]
    && id in w.db.rides && OnMatch(w.db.rides[id], m)
    && e.cmd == u.txs[a].cmd && e.answer.Ok?
  }

  lemma SavedLands(s: System, u: System, rule: Rule, a: int, m: int) returns (w: System, id: int, e: Entry)
    requires Reaches(s, u, rule) && SystemOk(u) && Alone(u, a) && a in u.txs && PermitsSteps(rule, a, u.txs[a].cmd)
    requires Bound(u.db, u.txs[a], m) && u.txs[a].pc.Saved?
    ensures Reaches(s, w, rule) && LandedOn(u, w, a, m, id, e) && e.at == u.txs[a].pc.at
  {
    hide Reaches;
    var tx := u.txs[a];
    assert TxOk(u.db, tx);
    assert RideWritten(tx, tx.pc.id, tx.pc.response);
    assert With(u, a, tx) == u;
    Commits(s, u, rule, a, tx, Ok(RideReply(tx.pc.response)));
    w, id, e := Committed(u, a, tx, Ok(RideReply(tx.pc.response))), tx.pc.id,
      EntryOf(a, tx, Ok(RideReply(tx.pc.response)));
    assert w.db.matches == u.db.matches;
  }

  lemma WrittenLands(s: System, u: System, rule: Rule, a: int, m: int) returns (w: System, id: int, e: Entry)
    requires Reaches(s, u, rule) && SystemOk(u) && Alone(u, a) && a in u.txs && PermitsSteps(rule, a, u.txs[a].cmd)
    requires Bound(u.db, u.txs[a], m) && u.txs[a].pc.Written?
    ensures Reaches(s, w, rule) && LandedOn(u, w, a, m, id, e) && e.at == u.txs[a].pc.at
  {
    hide Reaches, PermitsSteps, SystemOk;
    var tx := u.txs[a];
    WrittenIsKeyed(u, a);
    var next := PlanSave(tx).tx;
    assert Bound(u.db, next, m);
    var v := Moves(s, u, rule, a, 0, next);
    w, id, e := SavedLands(s, v, rule, a, m);
  }

  lemma WrittenIsKeyed(u: System, a: int)
    requires SystemOk(u) && a in u.txs && IsRideCommand(u.txs[a].cmd) && u.txs[a].pc.Written?
    ensures RideWritten(u.txs[a], u.txs[a].pc.id, PLACEHOLDER)
  {
    assert TxOk(u.db, u.txs[a]);
  }

  lemma UpdatingLands(s: System, u: System, rule: Rule, a: int, m: int) returns (w: System, id: int, e: Entry)
    requires Reaches(s, u, rule) && SystemOk(u) && Alone(u, a) && a in u.txs && PermitsSteps(rule, a, u.txs[a].cmd)
    requires Bound(u.db, u.txs[a], m) && u.txs[a].pc.Updating?
    ensures Reaches(s, w, rule) && LandedOn(u, w, a, m, id, e) && e.at == u.txs[a].pc.at
  {
    hide Reaches, PermitsSteps, SystemOk;
    var tx := u.txs[a];
    UpdatingIsDecided(u, a);
    var next := PlanUpdateRow(u.db, tx).tx;
    assert Bound(u.db, next, m);
    var v := Moves(s, u, rule, a, 0, next);
    w, id, e := WrittenLands(s, v, rule, a, m);
  }

  lemma UpdatingIsDecided(u: System, a: int)
    requires SystemOk(u) && a in u.txs && u.txs[a].cmd.DecideRide? && u.txs[a].pc.Updating?
    ensures DecisionMade(u.db, u.txs[a], u.txs[a].pc.ride, u.txs[a].pc.next, u.txs[a].pc.destination)
  {
    assert TxOk(u.db, u.txs[a]);
  }

  lemma DecidedLands(s: System, u: System, rule: Rule, a: int, m: int) returns (w: System, id: int, e: Entry)
    requires Reaches(s, u, rule) && SystemOk(u) && Alone(u, a) && a in u.txs && PermitsSteps(rule, a, u.txs[a].cmd)
    requires Bound(u.db, u.txs[a], m) && u.txs[a].pc.Decided?
    ensures Reaches(s, w, rule) && LandedOn(u, w, a, m, id, e) && e.at == u.txs[a].pc.at
  {
    hide Reaches, PermitsSteps, SystemOk;
    var next := PlanUpdate(u.db, u.txs[a]).tx;
    assert Bound(u.db, next, m);
    var v := Moves(s, u, rule, a, 0, next);
    w, id, e := UpdatingLands(s, v, rule, a, m);
  }

  lemma InsertingLands(s: System, u: System, rule: Rule, a: int, m: int) returns (w: System, id: int, e: Entry)
    requires Reaches(s, u, rule) && SystemOk(u) && Alone(u, a) && a in u.txs && PermitsSteps(rule, a, u.txs[a].cmd)
    requires Bound(u.db, u.txs[a], m) && u.txs[a].pc.Inserting?
    ensures Reaches(s, w, rule) && LandedOn(u, w, a, m, id, e) && e.at == u.txs[a].pc.at
  {
    hide Reaches, PermitsSteps, SystemOk;
    var tx := u.txs[a];
    var pick :| pick !in u.db.rides && tx.cmd.marshal(pick, tx.pc.ride.(version := 1)).Ok?;
    InsertingIsLocked(u, a);
    var next := PlanInsertRow(u.db, tx, pick).tx;
    assert Bound(u.db, next, m);
    var v := Moves(s, u, rule, a, pick, next);
    w, id, e := WrittenLands(s, v, rule, a, m);
  }

  lemma InsertingIsLocked(u: System, a: int)
    requires SystemOk(u) && a in u.txs && IsRideCommand(u.txs[a].cmd) && u.txs[a].pc.Inserting?
    ensures u.txs[a].cmd.CreateRide? && CreateOf(u.txs[a].cmd.ride, ActionPhase) == Ok(u.txs[a].pc.ride)
  {
    assert TxOk(u.db, u.txs[a]);
  }

  lemma CreatingLands(s: System, u: System, rule: Rule, a: int, m: int) returns (w: System, id: int, e: Entry)
    requires Reaches(s, u, rule) && SystemOk(u) && Alone(u, a) && a in u.txs && PermitsSteps(rule, a, u.txs[a].cmd)
    requires Bound(u.db, u.txs[a], m) && u.txs[a].pc.Creating?
    ensures Reaches(s, w, rule) && LandedOn(u, w, a, m, id, e) && e.at == u.txs[a].pc.at
  {
    hide Reaches, PermitsSteps, SystemOk, WouldInsert;
    var next := PlanInsert(u.db, u.txs[a]).tx;
    assert Bound(u.db, next, m);
    var v := Moves(s, u, rule, a, 0, next);
    w, id, e := InsertingLands(s, v, rule, a, m);
  }

  /** A bound command that is alone commits its ride, locked on the match, ended or not:
      the re-check looks at the ride and the rounds only. */
  lemma BoundLands(s: System, u: System, rule: Rule, a: int, m: int) returns (w: System, id: int, e: Entry)
    requires Reaches(s, u, rule) && SystemOk(u) && Alone(u, a) && a in u.txs && PermitsSteps(rule, a, u.txs[a].cmd)
    requires Bound(u.db, u.txs[a], m)
    ensures Reaches(s, w, rule) && LandedOn(u, w, a, m, id, e) && e.at == u.txs[a].pc.at
  {
    hide Reaches, PermitsSteps, SystemOk, LandedOn, WouldInsert, WouldUpdate;
    match u.txs[a].pc
    case Decided(_, _, _, _) => w, id, e := DecidedLands(s, u, rule, a, m);
    case Updating(_, _, _, _, _) => w, id, e := UpdatingLands(s, u, rule, a, m);
    case Creating(_, _) => w, id, e := CreatingLands(s, u, rule, a, m);
    case Inserting(_, _, _) => w, id, e := InsertingLands(s, u, rule, a, m);
    case Written(_, _) => w, id, e := WrittenLands(s, u, rule, a, m);
    case Saved(_, _, _) => w, id, e := SavedLands(s, u, rule, a, m);
    case _ => assert false;
  }

  ghost predicate PermitsTicks(rule: Rule) {
    forall s: System, seconds :: rule(s, Tick(seconds))
  }

  lemma Waits(s: System, u: System, rule: Rule, until: int) returns (v: System)
    requires Reaches(s, u, rule) && PermitsTicks(rule)
    ensures Reaches(s, v, rule) && v == u.(clock := if u.clock < until then until else u.clock)
  {
    var seconds := if u.clock < until then until - u.clock else 0;
    ReachesNext(s, u, Tick(seconds), rule);
    v := Next(u, Tick(seconds));
  }
}
