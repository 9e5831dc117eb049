/** What a ride command, a round update or a harmless edit will commit on stays true
    under any other such commit, as long as no awaited round number is taken away. */
module SerialCommits {
  import opened Model
  import opened Lifecycle
  import opened Gates
  import opened Statements
  import opened Commands
  import opened Interleaving
  import opened Safety
  import opened Stability
  import opened Sequence
  import opened RoundOrder
  import opened SerialSteps

  // ---------- another serial commit changes none of it ----------

  /** A commit with its facts, beside u. */
  ghost predicate SerialCommit(t: Tables, tx: Tx, u: Tx) {
    && DbOk(t) && TxOk(t, tx) && TxSerial(t, tx) && TxOk(t, u) && TxSerial(t, u)
    && Compatible(tx.locks, u.locks)
  }

  lemma FixturesStay(t: Tables, w: Writes)
    requires Modest(t, w)
    ensures SameFixtures(t, Overlay(t, w))
  {
  }

  /** A round may move up; it closes only with all its matches ended. */
  lemma RoundAfterCommit(t: Tables, w: Writes, r: int)
    requires DbOk(t) && WritesOk(t, w) && r in t.rounds
    ensures var u := Overlay(t, w);
      && r in u.rounds && RoundRank(t.rounds[r].status) <= RoundRank(u.rounds[r].status)
      && (u.rounds[r].status == RoundClosed && t.rounds[r].status != RoundClosed ==> AllMatchesClosed(t, r))
  {
  }

  /** A match that has not ended keeps a round that is not closed. */
  lemma UpcomingIsStable(t: Tables, w: Writes, teamId: int, m: int)
    requires DbOk(t) && WritesOk(t, w) && SameFixtures(t, Overlay(t, w))
    ensures Upcoming(Overlay(t, w), teamId, m) <==> Upcoming(t, teamId, m)
  {
    if m in t.matches {
      RoundAfterCommit(t, w, t.matches[m].roundId);
    }
  }

  lemma PickIsStable(t: Tables, w: Writes, decision: Decision, teamId: int, destination: int)
    requires DbOk(t) && WritesOk(t, w) && SameFixtures(t, Overlay(t, w)) && Picked(t, decision, teamId, destination)
    ensures Picked(Overlay(t, w), decision, teamId, destination)
  {
    hide DbOk, WritesOk, Upcoming, Overlay;
    forall m ensures Upcoming(Overlay(t, w), teamId, m) <==> Upcoming(t, teamId, m) {
      UpcomingIsStable(t, w, teamId, m);
    }
  }

  lemma PhaseIsStable(t: Tables, w: Writes, matchId: int, at: int, phase: RoundPhase)
    requires DbOk(t) && WritesOk(t, w) && SameFixtures(t, Overlay(t, w)) && PhaseSeen(t, matchId, at, phase)
    ensures PhaseSeen(Overlay(t, w), matchId, at, phase)
  {
    RoundAfterCommit(t, w, t.matches[matchId].roundId);
  }

  /** The share lock keeps the created ride's round as it is. */
  lemma CreateReadyIsStable(t: Tables, tx: Tx, u: Tx, id: int, at: int)
    requires SerialCommit(t, tx, u) && u.cmd.CreateRide? && CreateReady(t, u, id, at)
    ensures CreateReady(Overlay(t, tx.w), u, id, at)
  {
    LocksKeepApart(tx, u);
    FixturesStay(t, tx.w);
    var r := t.matches[u.cmd.ride.matchId].roundId;
    assert r !in tx.w.rounds by {
      if r in tx.w.rounds {
        assert Conflict(RoundLock(r), RoundShare(r));
      }
    }
    assert id in u.w.rides;
  }

  lemma CloserHoldsUndecided(t: Tables, w: Writes, r: int, id: int)
    requires DbOk(t) && WritesOk(t, w) && r in t.rounds && r in w.rounds && w.rounds[r].status == RoundClosed
    requires id in t.rides && Undecided(t, t.rides[id], r)
    ensures id in w.rides
  {
  }

  /** The row lock keeps the decided ride's round open: closing it would need the ride. */
  lemma DecideReadyIsStable(t: Tables, tx: Tx, u: Tx, id: int, at: int)
    requires SerialCommit(t, tx, u) && u.cmd.DecideRide? && DecideReady(t, u, id, at)
    ensures DecideReady(Overlay(t, tx.w), u, id, at)
  {
    LocksKeepApart(tx, u);
    FixturesStay(t, tx.w);
    var t' := Overlay(t, tx.w);
    var ride := t.rides[id];
    assert id !in tx.w.rides && t'.rides[id] == ride;
    var destination := if u.cmd.decision.Continue? then u.w.rides[id].matchId else 0;
    PickIsStable(t, tx.w, u.cmd.decision, ride.teamId, destination);
    PhaseIsStable(t, tx.w, ride.matchId, at, DecisionPhase);
    var r := t.matches[ride.matchId].roundId;
    assert ride.state == WonPending && Undecided(t, ride, r);
    if r in tx.w.rounds && tx.w.rounds[r].status == RoundClosed {
      CloserHoldsUndecided(t, tx.w, r, id);
      assert false;
    }
    RoundAfterCommit(t, tx.w, r);
    assert RoundOpenFor(t', ride.matchId);
  }

  lemma WriteReadyIsStable(t: Tables, tx: Tx, u: Tx, id: int, at: int)
    requires SerialCommit(t, tx, u) && IsRideCommand(u.cmd) && WriteReady(t, u, id, at)
    ensures WriteReady(Overlay(t, tx.w), u, id, at)
  {
    if u.cmd.CreateRide? {
      CreateReadyIsStable(t, tx, u, id, at);
    } else {
      DecideReadyIsStable(t, tx, u, id, at);
    }
  }

  lemma DecisionSeenIsStable(t: Tables, w: Writes, decision: Decision, ride: Ride, destination: int, at: int)
    requires DbOk(t) && WritesOk(t, w) && SameFixtures(t, Overlay(t, w))
    requires PhaseSeen(t, ride.matchId, at, DecisionPhase) && Picked(t, decision, ride.teamId, destination)
    ensures PhaseSeen(Overlay(t, w), ride.matchId, at, DecisionPhase)
        && Picked(Overlay(t, w), decision, ride.teamId, destination)
  {
    PhaseIsStable(t, w, ride.matchId, at, DecisionPhase);
    PickIsStable(t, w, decision, ride.teamId, destination);
  }

  lemma SerialCommitWrites(t: Tables, tx: Tx, u: Tx)
    requires SerialCommit(t, tx, u)
    ensures DbOk(t) && WritesOk(t, tx.w) && Modest(t, tx.w) && SameFixtures(t, Overlay(t, tx.w))
    ensures Serial(u.cmd) && PcSerial(t, u) && Modest(t, u.w) && Apart(tx.w, u.w)
  {
    LocksKeepApart(tx, u);
    FixturesStay(t, tx.w);
  }

  lemma DecidingIsStable(t: Tables, w: Writes, u: Tx)
    requires DbOk(t) && WritesOk(t, w) && SameFixtures(t, Overlay(t, w)) && IsRideCommand(u.cmd) && RideSerial(t, u)
    requires u.pc.PhaseRead? || u.pc.Decided? || u.pc.Updating?
    ensures RideSerial(Overlay(t, w), u)
  {
    hide DbOk, WritesOk, SameFixtures, PhaseSeen, Picked, Overlay;
    match u.pc
    case PhaseRead(ride, phase, at) => PhaseIsStable(t, w, ride.matchId, at, phase);
    case Decided(ride, _, destination, at) => DecisionSeenIsStable(t, w, u.cmd.decision, ride, destination, at);
    case Updating(ride, _, destination, at, _) => DecisionSeenIsStable(t, w, u.cmd.decision, ride, destination, at);
  }

  lemma CreatingIsStable(t: Tables, v: Tables, u: Tx)
    requires SameFixtures(t, v) && IsRideCommand(u.cmd) && RideSerial(t, u) && (u.pc.Creating? || u.pc.Inserting?)
    ensures RideSerial(v, u)
  {
    hide SameFixtures, ActionSeen;
    ActionIsStable(t, v, u.pc.ride.matchId, u.pc.at);
    ActionNamesMatch(t, u.pc.ride.matchId, u.pc.at);
  }

  lemma ActionNamesMatch(t: Tables, matchId: int, at: int)
    requires ActionSeen(t, matchId, at)
    ensures matchId in t.matches
  {
  }

  lemma WrittenIsStable(t: Tables, tx: Tx, u: Tx)
    requires SerialCommit(t, tx, u) && IsRideCommand(u.cmd) && RideSerial(t, u) && (u.pc.Written? || u.pc.Saved?)
    ensures RideSerial(Overlay(t, tx.w), u)
  {
    hide SerialCommit, WriteReady, Overlay;
    WriteReadyIsStable(t, tx, u, u.pc.id, u.pc.at);
  }

  lemma RideSerialIsStable(t: Tables, tx: Tx, u: Tx)
    requires SerialCommit(t, tx, u) && IsRideCommand(u.cmd)
    ensures RideSerial(Overlay(t, tx.w), u)
  {
    hide TxOk, DbOk, WritesOk, TxSerial, SameFixtures, PhaseSeen, Picked, ActionSeen, WriteReady;
    SerialCommitWrites(t, tx, u);
    match u.pc
    case PhaseRead(_, _, _) => DecidingIsStable(t, tx.w, u);
    case Decided(_, _, _, _) => DecidingIsStable(t, tx.w, u);
    case Updating(_, _, _, _, _) => DecidingIsStable(t, tx.w, u);
    case Creating(_, _) => CreatingIsStable(t, Overlay(t, tx.w), u);
    case Inserting(_, _, _) => CreatingIsStable(t, Overlay(t, tx.w), u);
    case Written(_, _) => WrittenIsStable(t, tx, u);
    case Saved(_, _, _) => WrittenIsStable(t, tx, u);
    case _ =>
  }

  lemma ActionIsStable(t: Tables, u: Tables, matchId: int, at: int)
    requires SameFixtures(t, u) && ActionSeen(t, matchId, at)
    ensures ActionSeen(u, matchId, at) && u.matches[matchId].roundId == t.matches[matchId].roundId
  {
  }

  // ---------- rounds of one season ----------

  predicate Progresses(row: Round, edited: Round) {
    IsProgress(row, RoundRowAfter(row, edited))
  }

  /** What a commit does to the rounds and seasons: nothing a round update looks at, or one
      round under gates that still hold, with the seasons it flips. */
  ghost predicate RoundLanding(t: Tables, tx: Tx) {
    && TxOrder(t, tx) && !tx.pc.RoundGated? && SameFixtures(t, Overlay(t, tx.w))
    && forall s | s in tx.w.seasons ::
         && s in t.seasons
         && (|| tx.w.seasons[s].status == t.seasons[s].status
             || (tx.w.rounds != map[] && SeasonMoved(t, tx, s)))
  }

  /** The season a progress write moves is its own; it closes with its last round only. */
  predicate SeasonMoved(t: Tables, tx: Tx, s: int)
    requires s in tx.w.seasons
  {
    && tx.cmd.PatchRound? && tx.cmd.roundId in tx.w.rounds && tx.cmd.roundId in t.rounds
    && var row, written := t.rounds[tx.cmd.roundId], tx.w.rounds[tx.cmd.roundId];
       && s == written.seasonId && IsProgress(row, written)
       && (|| tx.w.seasons[s].status == SeasonInProgress
           || (tx.w.seasons[s].status == SeasonClosed && written.status == RoundClosed))
  }

  lemma FreezeIsStable(t: Tables, u: Tables, now: int, id: int, written: Round)
    requires SameFixtures(t, u) && RoundFreezeAllows(t, now, id, written)
    ensures RoundFreezeAllows(u, now, id, written)
  {
  }

  /** A live season stays live for a round held under its gates. */
  lemma HeldSeasonStaysLive(t: Tables, a: Tx, b: set<Lock>, j: int, y: Round)
    requires RoundLanding(t, a) && HeldRound(t.rounds, b, j, y) && Compatible(a.locks, b)
    requires HeldProgress(t.rounds, j, y) && SeasonLive(t, y.seasonId)
    ensures SeasonLive(Overlay(t, a.w), y.seasonId)
  {
    var s := y.seasonId;
    if s in a.w.seasons && a.w.seasons[s].status != t.seasons[s].status {
      OneProgressPerSeason(t.rounds, a.locks, b, a.cmd.roundId, j, a.w.rounds[a.cmd.roundId], y);
    }
  }

  lemma HeldRoundIsStable(t: Tables, tx: Tx, b: set<Lock>, j: int, y: Round)
    requires RoundLanding(t, tx) && Compatible(tx.locks, b) && HeldRound(t.rounds, b, j, y)
    ensures HeldRound(Overlay(t, tx.w).rounds, b, j, y) && Overlay(t, tx.w).rounds[j] == t.rounds[j]
  {
    hide SameFixtures, HighestClosedIs, NumberTaken, RoundRowOk, SeasonMoved;
    if tx.w.rounds == map[] {
      assert Overlay(t, tx.w).rounds == t.rounds;
    } else {
      var i := tx.cmd.roundId;
      HeldStays(t.rounds, tx.locks, b, i, j, tx.w.rounds[i], y);
      SlotIsHeldOnce(tx.locks, b, RoundLock(i));
      assert Overlay(t, tx.w).rounds == t.rounds[i := tx.w.rounds[i]];
    }
  }

  lemma HeldIsStable(t: Tables, tx: Tx, u: Tx, j: int, row: Round, edited: Round)
    requires RoundLanding(t, tx) && Compatible(tx.locks, u.locks) && RoundHeld(t, u, j, row, edited)
    ensures RoundHeld(Overlay(t, tx.w), u, j, row, edited)
  {
    var y := RoundRowAfter(row, edited);
    HeldNamesRound(t, u, j, y);
    hide RoundFreezeAllows, SameFixtures, HeldRound, Overlay, SeasonLive, Compatible;
    FreezeIsStable(t, Overlay(t, tx.w), u.now, j, y);
    HeldRoundIsStable(t, tx, u.locks, j, y);
    if Progresses(row, edited) {
      HeldSeasonStaysLive(t, tx, u.locks, j, y);
    }
  }

  lemma HeldNamesRound(t: Tables, u: Tx, j: int, y: Round)
    requires HeldRound(t.rounds, u.locks, j, y)
    ensures j in t.rounds
  {
  }

  /** Past the gates, too: a season that closes closes with the number asked for. */
  lemma PassedSeasonStays(t: Tables, a: Tx, s: int, n: int)
    requires RoundLanding(t, a) && Verdict(t.rounds, s, n) && !GivesUp(t.rounds, a.w.rounds, s, n)
    requires NumberClosed(t.rounds, s, n) || SeasonLive(t, s)
    ensures NumberClosed(Overlay(t, a.w).rounds, s, n) || SeasonLive(Overlay(t, a.w), s)
  {
    var rounds, after := t.rounds, Overlay(t, a.w).rounds;
    if a.w.rounds == map[] {
      assert after == rounds;
    } else {
      var i := a.cmd.roundId;
      var x := a.w.rounds[i];
      assert after == rounds[i := x];
      if NumberClosed(rounds, s, n) {
        OthersStayClosed(rounds, i, x, s, n);
      } else if s in a.w.seasons && a.w.seasons[s].status == SeasonClosed && t.seasons[s].status != SeasonClosed {
        HighestIsUnique(rounds, s, n - 1, x.number - 1);
        assert ClosedIn(after, s, i);
      }
    }
  }

  lemma PassedIsStable(t: Tables, tx: Tx, u: Tx, j: int, row: Round, edited: Round)
    requires RoundLanding(t, tx) && Compatible(tx.locks, u.locks) && RoundPassed(t, u, j, row, edited)
    requires Progresses(row, edited) ==> !GivesUp(t.rounds, tx.w.rounds, row.seasonId, edited.number)
    ensures RoundPassed(Overlay(t, tx.w), u, j, row, edited)
  {
    hide RoundFreezeAllows, SameFixtures, Verdict, GivesUp, NumberClosed;
    var y := RoundRowAfter(row, edited);
    FreezeIsStable(t, Overlay(t, tx.w), u.now, j, y);
    if Progresses(row, edited) {
      PassedSeasonStays(t, tx, row.seasonId, edited.number);
    }
    if tx.w.rounds == map[] {
      assert Overlay(t, tx.w).rounds == t.rounds;
    } else {
      var i := tx.cmd.roundId;
      GatedStays(t.rounds, tx.locks, u.locks, i, tx.w.rounds[i], j, row, y);
      assert tx.w.rounds == map[i := tx.w.rounds[i]];
      assert Overlay(t, tx.w).rounds == t.rounds[i := tx.w.rounds[i]];
    }
  }

  /** A season an opening has flipped is locked; one it found not open stays not open. */
  lemma OpeningSeasonsStay(t: Tables, w: Writes, v: Writes, row: Round, edited: Round)
    requires Modest(t, w) && w.seasons.Keys !! v.seasons.Keys && v.seasons == OpeningSeasons(t, row, edited)
    ensures v.seasons == OpeningSeasons(Overlay(t, w), row, edited)
  {
  }

  /** What the committing round update holds, at the point it commits. */
  predicate RoundCommits(t: Tables, tx: Tx, i: int, row: Round, edited: Round) {
    && RoundHeld(t, tx, i, row, edited)
    && tx.w.seasons == FinalSeasons(t, row, edited)
  }

  /** The last round's season is locked by the closing transaction, or not in progress and
      left so: only another progress write of the season could start it. */
  lemma ClosingSeasonStays(t: Tables, tx: Tx, u: Tx, j: int, row: Round, edited: Round)
    requires RoundLanding(t, tx) && Compatible(tx.locks, u.locks) && tx.w.seasons.Keys !! u.w.seasons.Keys
    requires RoundCommits(t, u, j, row, edited) && IsClosing(row, edited)
    ensures u.w.seasons == FinalSeasons(Overlay(t, tx.w), row, edited)
  {
    var s, y := edited.seasonId, RoundRowAfter(row, edited);
    if s in tx.w.seasons && tx.w.seasons[s].status != t.seasons[s].status {
      OneProgressPerSeason(t.rounds, tx.locks, u.locks, tx.cmd.roundId, j, tx.w.rounds[tx.cmd.roundId], y);
    }
  }

  lemma AutoResolvedIsStable(t: Tables, tx: Tx, u: Tx, roundId: int, number: int)
    requires SameFixtures(t, Overlay(t, tx.w)) && Apart(tx.w, u.w) && AutoResolved(t, u, roundId, number)
    ensures AutoResolved(Overlay(t, tx.w), u, roundId, number)
  {
  }

  /** What tx is when it commits: a ride command, or an admin command at its end. */
  ghost predicate Committing(t: Tables, tx: Tx) {
    if IsRideCommand(tx.cmd) then tx.pc.Saved? else tx.pc.Ending?
  }

  lemma RideLands(t: Tables, tx: Tx)
    requires TxOk(t, tx) && TxSerial(t, tx) && IsRideCommand(tx.cmd) && tx.pc.Saved?
    ensures RoundLanding(t, tx)
  {
    FixturesStay(t, tx.w);
  }

  lemma RoundLands(t: Tables, tx: Tx)
    requires TxSerial(t, tx) && tx.cmd.PatchRound? && tx.pc.Ending?
    ensures RoundLanding(t, tx)
  {
    FixturesStay(t, tx.w);
  }

  lemma EditLands(t: Tables, tx: Tx)
    requires TxSerial(t, tx) && Harmless(tx.cmd) && tx.pc.Ending?
    ensures RoundLanding(t, tx)
  {
    FixturesStay(t, tx.w);
  }

  lemma CommitLands(t: Tables, tx: Tx)
    requires TxOk(t, tx) && TxSerial(t, tx) && Committing(t, tx)
    ensures RoundLanding(t, tx)
  {
    if IsRideCommand(tx.cmd) {
      RideLands(t, tx);
    } else if tx.cmd.PatchRound? {
      RoundLands(t, tx);
    } else {
      EditLands(t, tx);
    }
  }

  lemma EndingIsStable(t: Tables, tx: Tx, u: Tx)
    requires RoundLanding(t, tx) && Compatible(tx.locks, u.locks) && Apart(tx.w, u.w) && Modest(t, tx.w)
    requires u.cmd.PatchRound? && u.pc.Ending? && RoundSerial(t, u)
    ensures RoundSerial(Overlay(t, tx.w), u)
  {
    hide HeldRound, RoundFreezeAllows, RoundLanding, Apart, Modest, FinalSeasons;
    var j := u.cmd.roundId;
    var row := t.rounds[j];
    var edited := PrepareRound(u.cmd, row).value;
    HeldIsStable(t, tx, u, j, row, edited);
    FinalIsStable(t, tx, u, j, row, edited);
    LandingKeepsFixtures(t, tx);
    AutoResolvedIsStable(t, tx, u, j, edited.number);
    assert Overlay(t, tx.w).rounds[j] == row;
  }

  lemma LandingKeepsFixtures(t: Tables, tx: Tx)
    requires RoundLanding(t, tx)
    ensures SameFixtures(t, Overlay(t, tx.w))
  {
  }

  lemma FinalIsStable(t: Tables, tx: Tx, u: Tx, j: int, row: Round, edited: Round)
    requires RoundLanding(t, tx) && Compatible(tx.locks, u.locks) && Apart(tx.w, u.w) && Modest(t, tx.w)
    requires RoundCommits(t, u, j, row, edited)
    ensures u.w.seasons == FinalSeasons(Overlay(t, tx.w), row, edited)
  {
    hide RoundLanding, RoundHeld, Modest;
    if IsClosing(row, edited) {
      ClosingSeasonStays(t, tx, u, j, row, edited);
    } else {
      OpeningSeasonsStay(t, tx.w, u.w, row, edited);
    }
  }

  lemma RoundSerialIsStable(t: Tables, tx: Tx, u: Tx)
    requires RoundLanding(t, tx) && Compatible(tx.locks, u.locks) && Apart(tx.w, u.w) && Modest(t, tx.w)
    requires u.cmd.PatchRound? && RoundSerial(t, u) && !TakesAway(t, tx, u)
    ensures RoundSerial(Overlay(t, tx.w), u)
  {
    hide RoundLanding, Apart, Modest, RoundHeld, RoundPassed, OpeningSeasons, GivesUp;
    match u.pc
    case RoundReady(row, edited) => SeasonsApart(tx.w, u.w); OpeningSeasonsStay(t, tx.w, u.w, row, edited);
    case RoundGated(row, edited) =>
      SeasonsApart(tx.w, u.w);
      OpeningSeasonsStay(t, tx.w, u.w, row, edited);
      PassedIsStable(t, tx, u, u.cmd.roundId, row, edited);
    case RoundWritten(row, edited) =>
      SeasonsApart(tx.w, u.w);
      OpeningSeasonsStay(t, tx.w, u.w, row, edited);
      HeldIsStable(t, tx, u, u.cmd.roundId, row, edited);
    case Ending(_) => EndingIsStable(t, tx, u);
    case _ =>
  }

  lemma SeasonsApart(w: Writes, v: Writes)
    requires Apart(w, v)
    ensures w.seasons.Keys !! v.seasons.Keys
  {
  }

  /** An edit holds the row it writes; the clock it was checked at is its own. */
  lemma EditSerialIsStable(t: Tables, w: Writes, u: Tx)
    requires Harmless(u.cmd) && PcSerial(t, u) && Apart(w, u.w) && SameFixtures(t, Overlay(t, w))
    ensures PcSerial(Overlay(t, w), u)
  {
  }

  lemma ModestIsStable(t: Tables, w: Writes, v: Writes)
    requires Modest(t, v) && Apart(w, v)
    ensures Modest(Overlay(t, w), v)
  {
  }

  lemma SerialIsStable(t: Tables, tx: Tx, u: Tx)
    requires SerialCommit(t, tx, u) && Committing(t, tx) && !TakesAway(t, tx, u)
    ensures TxSerial(Overlay(t, tx.w), u)
  {
    hide TxOk, DbOk, TxSerial, WritesOk, Committing, TakesAway, SameFixtures;
    SerialCommitWrites(t, tx, u);
    CommitLands(t, tx);
    ModestIsStable(t, tx.w, u.w);
    if IsRideCommand(u.cmd) {
      RideSerialIsStable(t, tx, u);
    } else if u.cmd.PatchRound? {
      RoundSerialIsStable(t, tx, u);
    } else {
      EditSerialIsStable(t, tx.w, u);
    }
    SerialFromParts(Overlay(t, tx.w), u);
  }

  lemma SerialFromParts(t: Tables, tx: Tx)
    requires Serial(tx.cmd) && Modest(t, tx.w) && PcSerial(t, tx)
    ensures TxSerial(t, tx)
  {
  }
}
