/** Why other edits are not harmless: schedules with an edit of a start, of a team and of
    a season's status that are no run of their commands one by one. */
module Edits {
  import opened Model
  import opened Phases
  import opened Gates
  import opened Rides
  import opened Statements
  import opened Commands
  import opened Interleaving
  import opened Safety
  import opened Stability
  import opened Steps
  import opened Overtaking
  import opened Stranding
  import opened LockedRides
  import opened Courses
  import opened Race
  import opened Reachable
  import Layers
  import SeasonLaw
  import Rules
  import opened Serializability

  /** Two commands begin. */
  ghost function Only(c: Command, e: Command): Rule {
    (s: System, event: Event) => event.Begin? ==> event.cmd == c || event.cmd == e
  }

  /** Some schedule of the two is no run of its commands one by one. */
  ghost predicate MayDiffer(s: System, c: Command, e: Command) {
    exists u :: Reaches(s, u, Only(c, e)) && !IsReplayed(s.db, u)
  }

  const COMMAND: int := 1
  const EDIT: int := 2

  lemma OnlyPermits(c: Command, e: Command)
    ensures Permits(Only(c, e), COMMAND, c) && Permits(Only(c, e), EDIT, e) && Lenient(Only(c, e))
  {
  }

  // ---------- an edit beside the command ----------

  /** The system after an edit that ran from its beginning to its commit: its effect is the
      command's, and it holds nothing. */
  ghost predicate EditRan(u: System, v: System, e: Command) {
    && v.clock == u.clock && v.db == Run(u.db, e, u.clock, 0).t
    && EDIT in v.txs && v.txs == u.txs[EDIT := v.txs[EDIT]] && v.txs[EDIT].pc.Done? && v.txs[EDIT].locks == {}
    && exists w, answer :: v.log == u.log + [Entry(EDIT, e, u.clock, 0, w, answer)]
  }

  function Editing(e: Command, now: int, pc: Pc, w: Writes, locks: set<Lock>): Tx {
    Tx(e, now, pc, w, locks)
  }

  lemma EditReads(s: System, u: System, rule: Rule, e: Command, read: Pc, begun: Pc)
    requires !IsRideCommand(e) && Permits(rule, EDIT, e) && Reaches(s, u, rule) && EDIT !in u.txs
    requires Plan(u.db, u.clock, Editing(e, u.clock, Start, NOTHING, {}), 0)
        == Go({}, Editing(e, u.clock, read, NOTHING, {}))
    requires Plan(u.db, u.clock, Editing(e, u.clock, read, NOTHING, {}), 0)
        == Go({}, Editing(e, u.clock, begun, NOTHING, {}))
    ensures Reaches(s, With(u, EDIT, Editing(e, u.clock, begun, NOTHING, {})), rule)
  {
    hide Reaches, Plan;
    ReachesNext(s, u, Begin(EDIT, e), rule);
    Takes(s, u, rule, EDIT, Editing(e, u.clock, Start, NOTHING, {}), 0, {}, Editing(e, u.clock, read, NOTHING, {}));
    Takes(s, u, rule, EDIT, Editing(e, u.clock, read, NOTHING, {}), 0, {}, Editing(e, u.clock, begun, NOTHING, {}));
  }

  lemma EditCommits(s: System, u: System, rule: Rule, e: Command, begun: Pc, w: Writes, lock: Lock, reply: Reply)
    returns (v: System)
    requires !IsRideCommand(e) && Permits(rule, EDIT, e) && MayTake(u, EDIT, {lock})
    requires Reaches(s, With(u, EDIT, Editing(e, u.clock, begun, NOTHING, {})), rule)
    requires Plan(u.db, u.clock, Editing(e, u.clock, begun, NOTHING, {}), 0)
        == Go({lock}, Editing(e, u.clock, Ending(reply), w, {lock}))
    requires Overlay(u.db, w) == Run(u.db, e, u.clock, 0).t
    ensures Reaches(s, v, rule) && EditRan(u, v, e)
  {
    hide Reaches, Run, Overlay;
    var last := Editing(e, u.clock, Ending(reply), w, {lock});
    EndingCommits(u.db, u.clock, last, reply);
    hide Plan;
    Takes(s, u, rule, EDIT, Editing(e, u.clock, begun, NOTHING, {}), 0, {lock}, last);
    Commits(s, u, rule, EDIT, last, Ok(reply));
    v := Committed(u, EDIT, last, Ok(reply));
  }

  lemma EndingCommits(t: Tables, clock: int, tx: Tx, reply: Reply)
    requires !IsRideCommand(tx.cmd) && tx.pc == Ending(reply)
    ensures Plan(t, clock, tx, 0) == Commit(Ok(reply))
  {
  }

  /** What a match edit that runs alone at this moment writes. */
  ghost predicate MayEditMatch(t: Tables, now: int, e: Command, edited: Match) {
    && e.PatchMatch? && 1 <= e.editedId && e.editedId in t.matches
         && PrepareMatch(e, t.matches[e.editedId]) == Ok(edited)
    && TeamsExist(t, edited)
    && EditRowError(now, t.matches[e.editedId], EditedRow(now, t.matches[e.editedId], edited)).None?
  }

  lemma MatchEditReads(t: Tables, now: int, e: Command, edited: Match)
    requires MayEditMatch(t, now, e, edited)
    ensures var m := t.matches[e.editedId];
      && Plan(t, now, Editing(e, now, Start, NOTHING, {}), 0)
           == Go({}, Editing(e, now, MatchRead(m, edited), NOTHING, {}))
      && Plan(t, now, Editing(e, now, MatchRead(m, edited), NOTHING, {}), 0)
           == Go({}, Editing(e, now, MatchBegun(m, edited), NOTHING, {}))
  {
    hide EditRowError, PrepareMatch, EditedRow;
  }

  lemma MatchEditWrites(t: Tables, now: int, e: Command, edited: Match)
    requires MayEditMatch(t, now, e, edited)
    ensures var m, written := t.matches[e.editedId], EditedRow(now, t.matches[e.editedId], edited);
      && Plan(t, now, Editing(e, now, MatchBegun(m, edited), NOTHING, {}), 0)
           == Go({MatchLock(e.editedId)}, Editing(e, now, Ending(MatchReply(written)),
                NOTHING.(matches := map[e.editedId := written]), {MatchLock(e.editedId)}))
      && Overlay(t, NOTHING.(matches := map[e.editedId := written])) == PutMatch(t, e.editedId, written)
  {
    EditKeepsVersion(e, t.matches[e.editedId]);
    hide EditRowError, PrepareMatch, EditedRow, TeamsExist;
    var written := EditedRow(now, t.matches[e.editedId], edited);
    assert NOTHING.matches[e.editedId := written] == map[e.editedId := written];
  }

  lemma MatchEditAlone(t: Tables, now: int, e: Command, edited: Match)
    requires MayEditMatch(t, now, e, edited)
    ensures Run(t, e, now, 0).t == PutMatch(t, e.editedId, EditedRow(now, t.matches[e.editedId], edited))
  {
    EditKeepsVersion(e, t.matches[e.editedId]);
    hide EditRowError, PrepareMatch, EditedRow, TeamsExist;
  }

  lemma EditKeepsVersion(e: Command, m: Match)
    requires e.PatchMatch? && PrepareMatch(e, m).Ok?
    ensures PrepareMatch(e, m).value.version == m.version
  {
  }

  /** The match edit, beside transactions that hold keys only. */
  lemma MatchEditRuns(s: System, u: System, rule: Rule, e: Command, edited: Match) returns (v: System)
    requires MayEditMatch(u.db, u.clock, e, edited)
    requires Permits(rule, EDIT, e) && Reaches(s, u, rule) && EDIT !in u.txs && KeysOnly(u, EDIT)
    ensures Reaches(s, v, rule) && EditRan(u, v, e)
    ensures v.db == PutMatch(u.db, e.editedId, EditedRow(u.clock, u.db.matches[e.editedId], edited))
  {
    hide Reaches, Plan, Overlay, EditedRow, KeysOnly, MayTake, PutMatch, Run, Permits;
    var m, now, lock := u.db.matches[e.editedId], u.clock, MatchLock(e.editedId);
    var written := EditedRow(now, m, edited);
    MatchEditReads(u.db, now, e, edited);
    MatchEditWrites(u.db, now, e, edited);
    MatchEditAlone(u.db, now, e, edited);
    EditReads(s, u, rule, e, MatchRead(m, edited), MatchBegun(m, edited));
    KeysMayTake(u, EDIT, lock);
    v := EditCommits(s, u, rule, e, MatchBegun(m, edited), NOTHING.(matches := map[e.editedId := written]), lock,
        MatchReply(written));
  }

  ghost predicate MayEditSeason(t: Tables, now: int, e: Command, edited: Season) {
    && e.PatchSeason? && 1 <= e.seasonId && e.seasonId in t.seasons
    && PrepareSeason(e, t.seasons[e.seasonId]) == Ok(edited)
    && SeasonUpdateAllowed(t, now, e.seasonId, EditedSeason(t.seasons[e.seasonId], edited))
  }

  function EditedSeason(season: Season, edited: Season): Season {
    Season(edited.status, season.version + 1)
  }

  lemma SeasonEditPlans(t: Tables, now: int, e: Command, edited: Season)
    requires MayEditSeason(t, now, e, edited)
    ensures var season, written := t.seasons[e.seasonId], EditedSeason(t.seasons[e.seasonId], edited);
      && Plan(t, now, Editing(e, now, Start, NOTHING, {}), 0)
           == Go({}, Editing(e, now, SeasonRead(season, edited), NOTHING, {}))
      && Plan(t, now, Editing(e, now, SeasonRead(season, edited), NOTHING, {}), 0)
           == Go({}, Editing(e, now, SeasonBegun(season, edited), NOTHING, {}))
      && Plan(t, now, Editing(e, now, SeasonBegun(season, edited), NOTHING, {}), 0)
           == Go({SeasonLock(e.seasonId)}, Editing(e, now, Ending(SeasonReply(written)),
                NOTHING.(seasons := map[e.seasonId := written]), {SeasonLock(e.seasonId)}))
      && Run(t, e, now, 0).t == PutSeason(t, e.seasonId, written)
      && Overlay(t, NOTHING.(seasons := map[e.seasonId := written])) == PutSeason(t, e.seasonId, written)
  {
    hide SeasonUpdateAllowed;
    var written := EditedSeason(t.seasons[e.seasonId], edited);
    assert NOTHING.seasons[e.seasonId := written] == map[e.seasonId := written];
  }

  /** The season edit, beside transactions that do not hold the season. */
  lemma SeasonEditRuns(s: System, u: System, rule: Rule, e: Command, edited: Season) returns (v: System)
    requires MayEditSeason(u.db, u.clock, e, edited) && MayTake(u, EDIT, {SeasonLock(e.seasonId)})
    requires Permits(rule, EDIT, e) && Reaches(s, u, rule) && EDIT !in u.txs
    ensures Reaches(s, v, rule) && EditRan(u, v, e)
    ensures v.db == PutSeason(u.db, e.seasonId, EditedSeason(u.db.seasons[e.seasonId], edited))
  {
    hide Reaches, Plan, Overlay, EditedSeason, MayTake, PutSeason, Run, Permits, SeasonUpdateAllowed;
    var season, now, lock := u.db.seasons[e.seasonId], u.clock, SeasonLock(e.seasonId);
    var written := EditedSeason(season, edited);
    SeasonEditPlans(u.db, now, e, edited);
    EditReads(s, u, rule, e, SeasonRead(season, edited), SeasonBegun(season, edited));
    v := EditCommits(s, u, rule, e, SeasonBegun(season, edited), NOTHING.(seasons := map[e.seasonId := written]), lock,
        SeasonReply(written));
  }

  /** The edit's entry alone replays to the tables it left. */
  lemma OneEntryReplays(s: System, u: System, v: System, e: Command)
    requires u.db == s.db && u.log == [] && EditRan(u, v, e)
    ensures |v.log| == 1 && Replay(s.db, v.log) == v.db
  {
    assert v.log[..0] == [];
    assert Replay(s.db, v.log[..0]) == s.db;
  }

  /** A success after the edit that the command alone would not have. */
  lemma LastAnswerDiffers(s: System, v: System, w: System, entry: Entry)
    requires |v.log| == 1 && Replay(s.db, v.log) == v.db && w.log == v.log + [entry] && entry.answer.Ok?
    requires Run(v.db, entry.cmd, entry.at, entry.id).answer.Err?
    ensures !IsReplayed(s.db, w)
  {
    assert w.log[..1] == v.log && w.log[1] == entry;
  }

  /** The bound command goes on to its commit, and answers a success it would not have
      alone after the edit. */
  lemma CommandDiffers(s: System, u: System, v: System, c: Command, e: Command, m: int)
    requires SystemOk(s) && Reaches(s, v, Only(c, e)) && u.db == s.db && u.log == [] && EditRan(u, v, e)
    requires Alone(v, COMMAND) && COMMAND in v.txs && v.txs[COMMAND].cmd == c && Bound(v.db, v.txs[COMMAND], m)
    requires forall id :: Run(v.db, c, v.txs[COMMAND].pc.at, id).answer.Err?
    ensures MayDiffer(s, c, e)
  {
    hide Reaches, Bound, IsReplayed, Run, SystemOk;
    ReachedIsOk(s, v, Only(c, e));
    OnlyPermits(c, e);
    var w, id, entry := BoundLands(s, v, Only(c, e), COMMAND, m);
    OneEntryReplays(s, u, v, e);
    LastAnswerDiffers(s, v, w, entry);
  }

  // ---------- a creation, and another start ----------

  /** A creation that reads its phase, the edit, and the creation's commit. */
  lemma CreationDiffers(s: System, c: Command, e: Command, edited: Match, id: int)
    requires Initial(s) && SystemOk(s) && c.CreateRide? && c.token.key !in s.db.keys
    requires MayCreateOn(s.db, s.clock, c.ride, c.ride.matchId) && MayEditMatch(s.db, s.clock, e, edited)
    requires id !in s.db.rides && c.marshal(id, Rules.CreatedRow(c.ride)).Ok?
    requires var t := PutMatch(s.db, e.editedId, EditedRow(s.clock, s.db.matches[e.editedId], edited));
      RoundOpenFor(t, c.ride.matchId) && forall id :: Run(t, c, s.clock, id).answer.Err?
    ensures MayDiffer(s, c, e)
  {
    hide Reaches, Permits, Bound, Run, MayEditMatch, EditedRow, MayDiffer, Plan;
    var rule := Only(c, e);
    OnlyPermits(c, e);
    ReachesItself(s, rule);
    CreationReads(s, s, rule, COMMAND, c);
    var u := With(s, COMMAND, Claiming(c, s.clock, Creating(CreateOf(c.ride, ActionPhase).value, s.clock)));
    var v := MatchEditRuns(s, u, rule, e, edited);
    CreationIsBound(v.db, s.clock, c, id);
    CommandDiffers(s, u, v, c, e, c.ride.matchId);
  }

  const LATER_START: MatchEdit := MatchEdit(Some(1000), None, None, None, None, None)

  /** A creation has read its action phase; the match is given a start within the hour; the
      creation commits. Alone after the edit it is refused. */
  lemma StartEditIsHarmful(s: System, c: Command)
    requires Initial(s) && s.clock == 100 && s.db == TwoMatches(AHEAD)
    requires c.CreateRide? && c.ride == WAITING && forall id, ride :: c.marshal(id, ride).Ok?
    ensures Inv(s.db, 100) && MayDiffer(s, c, PatchMatch(2, 7, None, LATER_START))
  {
    CreationExists(c);
    LaterStartIsAllowed();
    LateCreationIsRefused(c);
    Layers.SteadyIsOk(s.db, s.clock);
    assert 7 !in s.db.rides;
    hide MayEditMatch, EditedRow, Run, MayDiffer, DbOk, Inv;
    CreationDiffers(s, c, PatchMatch(2, 7, None, LATER_START), AHEAD.(startsAt := 1000), 7);
  }

  lemma LaterStartIsAllowed()
    ensures MayEditMatch(TwoMatches(AHEAD), 100, PatchMatch(2, 7, None, LATER_START), AHEAD.(startsAt := 1000))
  {
  }

  lemma LateCreationIsRefused(c: Command)
    requires c.CreateRide? && c.ride == WAITING
    ensures var t := PutMatch(TwoMatches(AHEAD), 2, EditedRow(100, AHEAD, AHEAD.(startsAt := 1000)));
      RoundOpenFor(t, 2) && forall id :: Run(t, c, 100, id).answer.Err?
  {
    var t := PutMatch(TwoMatches(AHEAD), 2, EditedRow(100, AHEAD, AHEAD.(startsAt := 1000)));
    assert RidePhase(t, 100, 2) == Ok(MatchPhase);
  }

  // ---------- a continuation, and another team ----------

  /** A continuation that picks its match, the edit, and the continuation's commit. */
  lemma ContinuationDiffers(s: System, c: Command, e: Command, edited: Match, m: int)
    requires Initial(s) && SystemOk(s) && MayContinueAt(s.db, s.clock, c, m) && c.token.key !in s.db.keys
    requires MayEditMatch(s.db, s.clock, e, edited) && RideRowOk(s.db.rides[c.rideId])
    requires c.marshal(c.rideId, Continued(s.db.rides[c.rideId], m)).Ok?
    requires var t := PutMatch(s.db, e.editedId, EditedRow(s.clock, s.db.matches[e.editedId], edited));
      forall id :: Run(t, c, s.clock, id).answer.Err?
    ensures MayDiffer(s, c, e)
  {
    hide Reaches, Permits, Bound, Run, MayEditMatch, EditedRow, MayDiffer, Plan, IsNext, PhaseOf;
    var rule := Only(c, e);
    OnlyPermits(c, e);
    ReachesItself(s, rule);
    ContinuationReads(s, s, rule, COMMAND, c, m);
    var u := With(s, COMMAND, Claiming(c, s.clock, Snapshotted(s.db, s.clock, c, m)));
    var v := MatchEditRuns(s, u, rule, e, edited);
    ContinuationIsBound(s.db, v.db, s.clock, c, m);
    CommandDiffers(s, u, v, c, e, m);
  }

  const OTHER_HOME: MatchEdit := MatchEdit(None, Some(11), None, None, None, None)

  /** A continuation has picked its next match; the match is given another home team; the
      continuation commits. Alone after the edit it finds no match. */
  lemma TeamEditIsHarmful(s: System, c: Command)
    requires Initial(s) && s.clock >= 100 + DECISION_PHASE_LAG && s.db == TwoMatches(RUNNING)
    requires c.DecideRide? && c.decision.Continue? && c.rideId == 5 && forall id, ride :: c.marshal(id, ride).Ok?
    ensures Inv(s.db, s.clock) && MayDiffer(s, c, PatchMatch(2, 7, None, OTHER_HOME))
  {
    ContinuationExists(s.clock, c);
    OtherHomeIsAllowed(s.clock);
    TeamlessContinuationIsRefused(c, s.clock);
    Layers.SteadyIsOk(s.db, s.clock);
    assert MayContinueAt(s.db, s.clock, c, 2);
    hide MayEditMatch, EditedRow, Run, MayDiffer, DbOk, Inv, MayContinueAt;
    ContinuationDiffers(s, c, PatchMatch(2, 7, None, OTHER_HOME), RUNNING.(homeTeamId := 11), 2);
  }

  lemma OtherHomeIsAllowed(now: int)
    requires now >= 200
    ensures MayEditMatch(TwoMatches(RUNNING), now, PatchMatch(2, 7, None, OTHER_HOME), RUNNING.(homeTeamId := 11))
  {
  }

  lemma TeamlessContinuationIsRefused(c: Command, now: int)
    requires c.DecideRide? && c.decision.Continue? && c.rideId == 5
    ensures var t := PutMatch(TwoMatches(RUNNING), 2, EditedRow(now, RUNNING, RUNNING.(homeTeamId := 11)));
      forall id :: Run(t, c, now, id).answer.Err?
  {
    var t := PutMatch(TwoMatches(RUNNING), 2, EditedRow(now, RUNNING, RUNNING.(homeTeamId := 11)));
    NoNextMeansNoCandidate(t, 10);
    assert forall m | m in t.matches :: !Upcoming(t, 10, m);
  }

  // ---------- another season status ----------

  const OPEN_FIRST: Command := PatchRound(1, 7, None, None, Some(RoundOpen))
  const CLOSE_SEASON: Command := PatchSeason(7, None, Some(SeasonClosed))

  /** A round is being opened and has passed its gates; its season is closed by an edit;
      the round commits. Alone after the edit the progress gate refuses it. */
  lemma SeasonEditIsHarmful(s: System)
    requires Initial(s) && TwoRounds(s.db, FIRST)
    ensures DbOk(s.db) && MayDiffer(s, OPEN_FIRST, CLOSE_SEASON)
  {
    hide Reaches, Permits, IsReplayed, Plan;
    var rule, edited := Only(OPEN_FIRST, CLOSE_SEASON), FIRST.(status := RoundOpen);
    var locks := {RoundLock(1), NumberSlot(7, 1)};
    TwoRoundsAreFine(s.db);
    OnlyPermits(OPEN_FIRST, CLOSE_SEASON);
    ReachesItself(s, rule);
    PatchPassesGates(s, s, rule, COMMAND, OPEN_FIRST, edited);
    var gated := Patching(OPEN_FIRST, s.clock, RoundGated(FIRST, edited), map[], locks);
    var u := With(s, COMMAND, gated);
    var v := SeasonEditRuns(s, u, rule, CLOSE_SEASON, Season(SeasonClosed, s.db.seasons[7].version));
    assert With(v, COMMAND, gated) == v;
    PatchEntersIndex(s, v, rule, COMMAND, OPEN_FIRST, edited, s.clock, locks);
    var written := RoundRowAfter(FIRST, edited);
    var last := Patching(OPEN_FIRST, s.clock, Ending(RoundReply(written)), map[1 := written],
        locks + {NumberSlot(7, 1)});
    EndingCommits(v.db, v.clock, last, RoundReply(written));
    Commits(s, v, rule, COMMAND, last, Ok(RoundReply(written)));
    var w := Committed(v, COMMAND, last, Ok(RoundReply(written)));
    OneEntryReplays(s, u, v, CLOSE_SEASON);
    OpeningUnderClosedSeasonIsRefused(v.db, s.clock);
    LastAnswerDiffers(s, v, w, EntryOf(COMMAND, last, Ok(RoundReply(written))));
  }

  lemma OpeningUnderClosedSeasonIsRefused(t: Tables, now: int)
    requires SeasonAt(t, 7, SeasonClosed) && 1 in t.rounds && t.rounds[1] == FIRST
    ensures forall id :: Run(t, OPEN_FIRST, now, id).answer.Err?
  {
  }

  // ---------- a season that is opened too late ----------

  const OPEN_SEASON: Command := PatchSeason(7, None, Some(SeasonOpen))

  predicate SeasonNotOpenYet(t: Tables) {
    SeasonAt(t, 7, SeasonCreated) && t.rounds == map[1 := FIRST, 2 := FIFTH] && t.matches == map[] && t.rides == map[]
  }

  function Ready(now: int): Tx {
    Patching(OPEN_FIRST, now, RoundReady(FIRST, FIRST.(status := RoundOpen)), map[], {})
  }

  /** A round is being opened and has found no open season to start; its season, created
      until then, is opened by an edit. */
  lemma SeasonOpensTooLate(s: System) returns (v: System)
    requires Initial(s) && SeasonNotOpenYet(s.db)
    ensures Reaches(s, v, Only(OPEN_FIRST, OPEN_SEASON)) && v.clock == s.clock
    ensures v.db == s.db.(seasons := v.db.seasons) && SeasonAt(v.db, 7, SeasonOpen)
    ensures COMMAND in v.txs && v.txs[COMMAND] == Ready(s.clock)
    ensures forall need :: MayTake(v, COMMAND, need)
  {
    hide Reaches, Permits, Plan;
    var rule := Only(OPEN_FIRST, OPEN_SEASON);
    OnlyPermits(OPEN_FIRST, OPEN_SEASON);
    ReachesItself(s, rule);
    PatchIsReady(s, s, rule, COMMAND, OPEN_FIRST, FIRST.(status := RoundOpen));
    v := SeasonEditRuns(s, With(s, COMMAND, Ready(s.clock)), rule, OPEN_SEASON,
        Season(SeasonOpen, s.db.seasons[7].version));
  }

  /** The round then passes its gates and commits. Its season is left open, not in
      progress, which no run of whole commands does. */
  lemma OpeningCanMissItsSeason(s: System)
    requires Initial(s) && SeasonNotOpenYet(s.db)
    ensures DbOk(s.db) && SeasonLaw.RoundsFollowSeasons(s.db) && SeasonLaw.OpenInProgress(s.db)
    ensures exists u ::
      Reaches(s, u, Only(OPEN_FIRST, OPEN_SEASON)) && 1 in u.db.rounds && 7 in u.db.seasons
      && u.db.rounds[1].status == RoundOpen && u.db.seasons[7].status == SeasonOpen
  {
    hide Reaches, Permits, Plan, MayTake;
    var rule, edited := Only(OPEN_FIRST, OPEN_SEASON), FIRST.(status := RoundOpen);
    var locks := {RoundLock(1), NumberSlot(7, 1)};
    OnlyPermits(OPEN_FIRST, OPEN_SEASON);
    var v := SeasonOpensTooLate(s);
    assert With(v, COMMAND, Ready(s.clock)) == v;
    OpenSeasonPasses(v.db, v.clock);
    ReadyPassesGates(s, v, rule, COMMAND, OPEN_FIRST, edited);
    PatchEntersIndex(s, v, rule, COMMAND, OPEN_FIRST, edited, s.clock, locks);
    var written := RoundRowAfter(FIRST, edited);
    var last := Patching(OPEN_FIRST, s.clock, Ending(RoundReply(written)), map[1 := written],
        locks + {NumberSlot(7, 1)});
    EndingCommits(v.db, v.clock, last, RoundReply(written));
    Commits(s, v, rule, COMMAND, last, Ok(RoundReply(written)));
    var after := Committed(v, COMMAND, last, Ok(RoundReply(written))).db;
    assert after.rounds[1] == written && after.seasons[7].status == SeasonOpen;
  }

  lemma OpenSeasonPasses(t: Tables, now: int)
    requires t.rounds == map[1 := FIRST, 2 := FIFTH] && t.matches == map[] && SeasonAt(t, 7, SeasonOpen)
    ensures var edited := FIRST.(status := RoundOpen);
      && RoundGateError(t, now, 1, FIRST, RoundRowAfter(FIRST, edited)).None?
      && !NumberTaken(t.rounds, 1, 7, 1)
  {
  }
}
