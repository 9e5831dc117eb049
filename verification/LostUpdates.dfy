/** No update is lost: a command whose row was written after it read it never commits,
    and it learns so by the error of its statement. Nor does a creation in a round that closed. */
module LostUpdates {
  import opened Model
  import opened Commands
  import opened Interleaving
  import opened Safety
  import opened Stability
  import Steps
  import Histories

  predicate RoundIsOld(t: Tables, tx: Tx, row: Round) {
    tx.cmd.PatchRound? && tx.cmd.roundId in t.rounds && row.version < t.rounds[tx.cmd.roundId].version
  }

  predicate MatchIsOld(t: Tables, tx: Tx, m: Match) {
    tx.cmd.PatchMatch? && tx.cmd.editedId in t.matches && m.version < t.matches[tx.cmd.editedId].version
  }

  predicate SeasonIsOld(t: Tables, tx: Tx, season: Season) {
    tx.cmd.PatchSeason? && tx.cmd.seasonId in t.seasons && season.version < t.seasons[tx.cmd.seasonId].version
  }

  predicate RideIsOld(t: Tables, tx: Tx, ride: Ride) {
    tx.cmd.DecideRide? && tx.cmd.rideId in t.rides && ride.version < t.rides[tx.cmd.rideId].version
  }

  predicate ResolvesOld(t: Tables, tx: Tx) {
    tx.cmd.ResolveMatch? && tx.cmd.matchId in t.matches && tx.cmd.version < t.matches[tx.cmd.matchId].version
  }

  predicate RoundIsClosed(t: Tables, r: int) {
    r in t.rounds && t.rounds[r].status == RoundClosed
  }

  predicate CreatesInClosed(t: Tables, tx: Tx, matchId: int) {
    tx.cmd.CreateRide? && matchId in t.matches && RoundIsClosed(t, t.matches[matchId].roundId)
  }

  /** A lost race answers what a round that is not open answers, or an edit conflict. */
  function LostRace(cmd: Command): Error {
    if IsRideCommand(cmd) then RoundNotOpen else EditConflict
  }

  /** The row the command read is not the committed one any more, the version it resolves
      is gone, the round it creates in is closed, or it was refused for that. */
  predicate Outdated(t: Tables, tx: Tx) {
    match tx.pc
    case Start => ResolvesOld(t, tx)
    case Resolving(_) => ResolvesOld(t, tx)
    case Creating(ride, _) => CreatesInClosed(t, tx, ride.matchId)
    case Inserting(_, _, r) => tx.cmd.CreateRide? && RoundIsClosed(t, r)
    case Decided(_, next, _, _) => RideIsOld(t, tx, next)
    case Updating(_, next, _, _, _) => RideIsOld(t, tx, next)
    case RoundRead(row, edited) => RoundIsOld(t, tx, row) && edited.version == row.version
    case RoundBegun(row, edited) => RoundIsOld(t, tx, row) && edited.version == row.version
    case AutoResolving(row, edited, _) => RoundIsOld(t, tx, row) && edited.version == row.version
    case RoundReady(row, edited) => RoundIsOld(t, tx, row) && edited.version == row.version
    case MatchRead(m, edited) => MatchIsOld(t, tx, m) && edited.version == m.version
    case MatchBegun(m, edited) => MatchIsOld(t, tx, m) && edited.version == m.version
    case SeasonRead(season, edited) => SeasonIsOld(t, tx, season) && edited.version == season.version
    case SeasonBegun(season, edited) => SeasonIsOld(t, tx, season) && edited.version == season.version
    case Done(answer) => answer == Err(Aborted) || answer == Err(LostRace(tx.cmd))
    case _ => false
  }

  ghost predicate StaysOutdated(t: Tables, tx: Tx, move: Move) {
    !move.Commit? && (move.Go? ==> Outdated(t, move.tx) && move.tx.cmd == tx.cmd)
  }

  lemma OutdatedRideStep(t: Tables, clock: int, tx: Tx, pick: int)
    requires Outdated(t, tx) && IsRideCommand(tx.cmd)
    ensures StaysOutdated(t, tx, PlanRide(t, clock, tx, pick))
  {
  }

  lemma OutdatedAutoRow(t: Tables, tx: Tx, pick: int)
    requires Outdated(t, tx) && tx.pc.AutoResolving?
    ensures StaysOutdated(t, tx, PlanAutoRow(t, tx, pick))
  {
  }

  lemma OutdatedAdminStep(t: Tables, clock: int, tx: Tx, pick: int)
    requires Outdated(t, tx) && !IsRideCommand(tx.cmd)
    ensures StaysOutdated(t, tx, PlanAdmin(t, clock, tx, pick))
  {
    if tx.pc.AutoResolving? {
      hide PlanAutoRow;
      OutdatedAutoRow(t, tx, pick);
    }
  }

  lemma OutdatedStep(t: Tables, clock: int, tx: Tx, pick: int)
    requires Outdated(t, tx)
    ensures StaysOutdated(t, tx, Plan(t, clock, tx, pick))
  {
    hide PlanRide, PlanAdmin;
    if IsRideCommand(tx.cmd) {
      OutdatedRideStep(t, clock, tx, pick);
    } else if !tx.pc.Start? {
      OutdatedAdminStep(t, clock, tx, pick);
    }
  }

  lemma OutdatedStays(t: Tables, u: Tables, tx: Tx)
    requires Grows(t, u) && Outdated(t, tx)
    ensures Outdated(u, tx)
  {
  }

  lemma NextStaysOutdated(s: System, event: Event, a: int)
    requires SystemOk(s) && a in s.txs && Outdated(s.db, s.txs[a])
    ensures a in Next(s, event).txs && Outdated(Next(s, event).db, Next(s, event).txs[a])
  {
    hide Plan, DbOk, TxOk, Outdated, Grows;
    NextGrows(s, event);
    OutdatedStays(s.db, Next(s, event).db, s.txs[a]);
    if event.Advance? && event.tid == a {
      OutdatedStep(s.db, s.clock, s.txs[a], event.pick);
    } else if event.Cancel? && event.tid == a {
      CancelledIsOutdated(s.db, s.txs[a]);
    }
  }

  lemma CancelledIsOutdated(t: Tables, tx: Tx)
    ensures Outdated(t, Refuse(tx, Aborted))
  {
  }

  lemma {:induction false} PlayStaysOutdated(s: System, events: seq<Event>, a: int)
    requires SystemOk(s) && a in s.txs && Outdated(s.db, s.txs[a])
    ensures a in Play(s, events).txs && Outdated(Play(s, events).db, Play(s, events).txs[a])
    decreases |events|
  {
    if events != [] {
      PlayStaysOutdated(s, events[..|events| - 1], a);
      ScheduleIsOk(s, events[..|events| - 1]);
      NextStaysOutdated(Play(s, events[..|events| - 1]), events[|events| - 1], a);
    }
  }

  /** In every interleaving, once the row a decision or an edit has read is overwritten, the
      version a resolution names is gone or the round a creation goes into is closed, no
      continuation commits the command, and if it ends it answers the lost race, unless it
      was cancelled. */
  lemma NoUpdateIsLost(s: System, events: seq<Event>, more: seq<Event>, a: int)
    requires Initial(s) && DbOk(s.db)
    requires a in Play(s, events).txs && Outdated(Play(s, events).db, Play(s, events).txs[a])
    ensures var u := Play(s, events + more);
      && a in u.txs
      && (u.txs[a].pc.Done? ==>
            u.txs[a].pc.answer == Err(Aborted)
            || u.txs[a].pc.answer == Err(if IsRideCommand(u.txs[a].cmd) then RoundNotOpen else EditConflict))
      && (forall i | 0 <= i < |u.log| :: u.log[i].tid != a)
  {
    Steps.PlayAppends(s, events, more);
    ScheduleIsOk(s, events);
    PlayStaysOutdated(Play(s, events), more, a);
    Histories.LogIsOk(s, events + more);
    var u := Play(s, events + more);
    forall i | 0 <= i < |u.log| ensures u.log[i].tid != a {
      assert Histories.EntryOk(u.db, u.log[i]);
    }
  }
}
