/** No round gets ahead of its season: while a season is still created none of its rounds
    is open or closed, in every run of commands and in every interleaving of them. That an
    opening also starts its season holds in every run, and in interleavings but for one
    kind of step. */
module SeasonLaw {
  import opened Model
  import opened Statements
  import opened Commands
  import opened Reachable
  import Patches
  import opened Interleaving
  import opened Safety
  import opened Stability
  import opened Steps
  import opened RoundOrder

  predicate HasBegun(t: Tables, seasonId: int) {
    seasonId in t.seasons && t.seasons[seasonId].status != SeasonCreated
  }

  /** No round of a season that is still created is open or closed. */
  predicate RoundsFollowSeasons(t: Tables) {
    forall r | r in t.rounds && t.rounds[r].status != RoundCreated :: HasBegun(t, t.rounds[r].seasonId)
  }

  /** An open round's season is in progress or closed. */
  predicate OpenInProgress(t: Tables) {
    forall r | r in t.rounds && t.rounds[r].status == RoundOpen ::
      && t.rounds[r].seasonId in t.seasons
      && (t.seasons[t.rounds[r].seasonId].status == SeasonInProgress
          || t.seasons[t.rounds[r].seasonId].status == SeasonClosed)
  }

  // ---------- runs ----------

  lemma RoundPatchKeepsLaw(t: Tables, cmd: Command, now: int)
    requires RoundsFollowSeasons(t) && OpenInProgress(t) && cmd.PatchRound?
    ensures var u := Run(t, cmd, now, 0).t; RoundsFollowSeasons(u) && OpenInProgress(u)
  {
    hide Run;
    Patches.PatchRoundExactly(t, cmd, now);
  }

  lemma SeasonPatchKeepsLaw(t: Tables, cmd: Command, now: int)
    requires RoundsFollowSeasons(t) && OpenInProgress(t) && cmd.PatchSeason?
    ensures var u := Run(t, cmd, now, 0).t; RoundsFollowSeasons(u) && OpenInProgress(u)
  {
    hide Run;
    Patches.PatchSeasonExactly(t, cmd, now);
  }

  lemma OthersLeaveRounds(t: Tables, cmd: Command, now: int, id: int)
    requires !cmd.PatchRound? && !cmd.PatchSeason?
    ensures Run(t, cmd, now, id).t.rounds == t.rounds && Run(t, cmd, now, id).t.seasons == t.seasons
  {
  }

  lemma PatchesDrawNothing(t: Tables, cmd: Command, now: int, id: int)
    requires cmd.PatchRound? || cmd.PatchSeason?
    ensures Run(t, cmd, now, id) == Run(t, cmd, now, 0)
  {
  }

  lemma StepKeepsLaw(t: Tables, action: Action)
    requires RoundsFollowSeasons(t) && OpenInProgress(t)
    ensures RoundsFollowSeasons(Step(t, action)) && OpenInProgress(Step(t, action))
  {
    hide Run;
    if action.Do? {
      if action.cmd.PatchRound? || action.cmd.PatchSeason? {
        PatchesDrawNothing(t, action.cmd, action.now, action.id);
      }
      if action.cmd.PatchRound? {
        RoundPatchKeepsLaw(t, action.cmd, action.now);
      } else if action.cmd.PatchSeason? {
        SeasonPatchKeepsLaw(t, action.cmd, action.now);
      } else {
        OthersLeaveRounds(t, action.cmd, action.now, action.id);
      }
    }
  }

  /** In every run from a fresh deployment an open round's season is in progress or
      closed, and a closed round's season is past created. */
  lemma {:induction false} RunsFollowSeasons(t: Tables, actions: seq<Action>)
    requires Fresh(t)
    ensures RoundsFollowSeasons(Exec(t, actions)) && OpenInProgress(Exec(t, actions))
    decreases |actions|
  {
    if actions != [] {
      RunsFollowSeasons(t, actions[..|actions| - 1]);
      StepKeepsLaw(Exec(t, actions[..|actions| - 1]), actions[|actions| - 1]);
    }
  }

  // ---------- interleavings ----------

  /** The season of a round the transaction wrote, or may write, has begun, as it sees it. */
  predicate TxFollows(t: Tables, tx: Tx) {
    && (forall r | r in tx.w.rounds && tx.w.rounds[r].status != RoundCreated ::
          HasBegun(Overlay(t, tx.w), tx.w.rounds[r].seasonId))
    && (tx.pc.RoundGated? && tx.pc.edited.status != RoundCreated ==> HasBegun(Overlay(t, tx.w), tx.pc.row.seasonId))
  }

  ghost predicate SystemFollows(s: System) {
    RoundsFollowSeasons(s.db) && forall a | a in s.txs :: TxFollows(s.db, s.txs[a])
  }

  lemma BegunStays(t: Tables, w: Writes, s: int)
    requires Legal(t, w) && HasBegun(t, s)
    ensures HasBegun(Overlay(t, w), s)
  {
  }

  /** The gate lets no round past created while its season is not live; one that is past
      created already stays under a season that has begun. */
  lemma GateFollows(t: Tables, tx: Tx)
    requires TxOk(t, tx) && RoundsFollowSeasons(t) && tx.cmd.PatchRound? && tx.pc.RoundReady?
    requires PlanRoundRow(t, tx).Go?
    ensures TxFollows(t, PlanRoundRow(t, tx).tx)
  {
    var id, edited := tx.cmd.roundId, tx.pc.edited;
    assert RoundPrepared(t, tx, tx.pc.row, edited) && tx.w.rounds == map[];
    if t.rounds[id].version == edited.version {
      var row := t.rounds[id];
      assert row == tx.pc.row;
      if row.status != RoundCreated {
        BegunStays(t, tx.w, row.seasonId);
      }
    }
  }

  lemma IndexFollows(t: Tables, tx: Tx)
    requires TxFollows(t, tx) && tx.cmd.PatchRound? && tx.pc.RoundGated? && tx.w.rounds == map[]
    ensures TxFollows(t, PlanRoundIndex(t, tx).tx)
  {
  }

  lemma EndFollows(t: Tables, tx: Tx)
    requires TxFollows(t, tx) && tx.cmd.PatchRound? && tx.pc.RoundWritten? && PlanRoundEnd(t, tx).Go?
    ensures TxFollows(t, PlanRoundEnd(t, tx).tx)
  {
  }

  lemma OnlyRoundPatchesHoldRounds(t: Tables, clock: int, tx: Tx, pick: int)
    requires TxOk(t, tx) && tx.w.rounds != map[] && Plan(t, clock, tx, pick).Go?
    ensures tx.cmd.PatchRound? && tx.pc.RoundWritten?
  {
  }

  lemma WritesNoRoundFollows(t: Tables, tx: Tx, next: Tx)
    requires tx.w.rounds == map[] && WritesNoRound(tx, next)
    ensures TxFollows(t, next)
  {
  }

  lemma MoveFollows(t: Tables, clock: int, tx: Tx, pick: int)
    requires TxOk(t, tx) && RoundsFollowSeasons(t) && TxFollows(t, tx) && Plan(t, clock, tx, pick).Go?
    ensures TxFollows(t, Plan(t, clock, tx, pick).tx)
  {
    hide TxOk, TxFollows, RoundsFollowSeasons, WritesNoRound;
    if tx.w.rounds != map[] {
      OnlyRoundPatchesHoldRounds(t, clock, tx, pick);
      EndFollows(t, tx);
    } else if tx.pc.RoundReady? || tx.pc.RoundGated? {
      RoundMoveFollows(t, clock, tx, pick);
    } else {
      OtherMovesWriteNoRound(t, clock, tx, pick);
      WritesNoRoundFollows(t, tx, Plan(t, clock, tx, pick).tx);
    }
  }

  lemma RoundMoveFollows(t: Tables, clock: int, tx: Tx, pick: int)
    requires TxOk(t, tx) && RoundsFollowSeasons(t) && TxFollows(t, tx) && Plan(t, clock, tx, pick).Go?
    requires (tx.pc.RoundReady? || tx.pc.RoundGated?) && tx.w.rounds == map[]
    ensures TxFollows(t, Plan(t, clock, tx, pick).tx)
  {
    if tx.pc.RoundReady? {
      GateFollows(t, tx);
    } else {
      IndexFollows(t, tx);
    }
  }

  /** Neither takes a season row the other wrote, and seasons only move forward. */
  lemma FollowingIsStable(t: Tables, tx: Tx, u: Tx)
    requires TxOk(t, tx) && TxOk(t, u) && Compatible(tx.locks, u.locks) && TxFollows(t, u)
    ensures TxFollows(Overlay(t, tx.w), u)
  {
    LocksKeepApart(tx, u);
    forall s | HasBegun(Overlay(t, u.w), s) ensures HasBegun(Overlay(Overlay(t, tx.w), u.w), s) {
      BothBegin(t, tx.w, u.w, s);
    }
  }

  lemma BothBegin(t: Tables, w: Writes, v: Writes, s: int)
    requires Legal(t, w) && HasBegun(Overlay(t, v), s)
    ensures HasBegun(Overlay(Overlay(t, w), v), s)
  {
  }

  lemma CommitFollows(t: Tables, tx: Tx)
    requires TxOk(t, tx) && TxFollows(t, tx) && RoundsFollowSeasons(t)
    ensures RoundsFollowSeasons(Overlay(t, tx.w))
  {
    var u := Overlay(t, tx.w);
    forall r | r in u.rounds && u.rounds[r].status != RoundCreated ensures HasBegun(u, u.rounds[r].seasonId) {
      if r !in tx.w.rounds {
        BegunStays(t, tx.w, u.rounds[r].seasonId);
      }
    }
  }

  lemma FinishedFollows(t: Tables, tx: Tx, answer: Result<Reply>)
    ensures TxFollows(t, Finished(tx, answer))
  {
  }

  lemma AdvanceFollows(s: System, tid: int, pick: int)
    requires SystemOk(s) && SystemFollows(s) && tid in s.txs
    ensures SystemFollows(AdvanceTx(s, tid, pick))
  {
    hide TxOk, TxFollows, RoundsFollowSeasons;
    var tx := s.txs[tid];
    match Plan(s.db, s.clock, tx, pick)
    case Stuck =>
    case Go(_, _) => MoveFollows(s.db, s.clock, tx, pick);
    case Commit(answer) =>
      CommitFollows(s.db, tx);
      FinishedFollows(Overlay(s.db, tx.w), tx, answer);
      forall u | u in s.txs && u != tid ensures TxFollows(Overlay(s.db, tx.w), s.txs[u]) {
        FollowingIsStable(s.db, tx, s.txs[u]);
      }
  }

  lemma NextFollows(s: System, event: Event)
    requires SystemOk(s) && SystemFollows(s)
    ensures SystemFollows(Next(s, event))
  {
    if event.Advance? && event.tid in s.txs {
      AdvanceFollows(s, event.tid, event.pick);
    }
  }

  lemma {:induction false} SchedulesKeepFollowing(s: System, events: seq<Event>)
    requires SystemOk(s) && SystemFollows(s)
    ensures SystemFollows(Play(s, events))
    decreases |events|
  {
    hide Next, SystemOk, SystemFollows;
    if events != [] {
      var last := |events| - 1;
      ScheduleIsOk(s, events[..last]);
      SchedulesKeepFollowing(s, events[..last]);
      NextFollows(Play(s, events[..last]), events[last]);
    }
  }

  /** In every interleaving of all commands no round of a season that is still created is
      open or closed, though the season may be edited between the flip and the gate. */
  lemma SchedulesFollowSeasons(s: System, events: seq<Event>)
    requires Initial(s) && DbOk(s.db) && RoundsFollowSeasons(s.db)
    ensures RoundsFollowSeasons(Play(s, events).db)
  {
    SchedulesKeepFollowing(s, events);
  }

  // ---------- the opening that misses its season ----------

  predicate IsUnderWay(t: Tables, seasonId: int) {
    seasonId in t.seasons
    && (t.seasons[seasonId].status == SeasonInProgress || t.seasons[seasonId].status == SeasonClosed)
  }

  /** The step enters an opened round in the index under a season that is open: when the
      opening looked for an open season to start there was none yet. */
  ghost predicate MissesSeason(s: System, event: Event) {
    && event.Advance? && event.tid in s.txs
    && var tx, next := s.txs[event.tid], AdvanceTx(s, event.tid, event.pick).txs[event.tid];
       && tx.pc.RoundGated? && next.pc.RoundWritten? && IsOpening(tx.pc.row, tx.pc.edited)
       && SeasonAt(Overlay(s.db, tx.w), tx.pc.row.seasonId, SeasonOpen)
  }

  ghost function KeepsSeasons(): Rule {
    (s: System, event: Event) => !MissesSeason(s, event)
  }

  predicate TxStarts(t: Tables, tx: Tx) {
    forall r | r in tx.w.rounds && tx.w.rounds[r].status == RoundOpen ::
      IsUnderWay(Overlay(t, tx.w), tx.w.rounds[r].seasonId)
  }

  ghost predicate SystemStarts(s: System) {
    OpenInProgress(s.db) && forall a | a in s.txs :: TxStarts(s.db, s.txs[a])
  }

  lemma UnderWayStays(t: Tables, w: Writes, s: int)
    requires Legal(t, w) && IsUnderWay(t, s)
    ensures IsUnderWay(Overlay(t, w), s)
  {
  }

  /** A season that has begun and is not open is under way; an open round's is already. */
  lemma IndexStarts(t: Tables, tx: Tx)
    requires TxOk(t, tx) && OpenInProgress(t) && TxFollows(t, tx) && tx.cmd.PatchRound? && tx.pc.RoundGated?
    requires IsOpening(tx.pc.row, tx.pc.edited) && PlanRoundIndex(t, tx).tx.pc.RoundWritten? ==>
      !SeasonAt(Overlay(t, tx.w), tx.pc.row.seasonId, SeasonOpen)
    ensures TxStarts(t, PlanRoundIndex(t, tx).tx)
  {
    assert GatedPc(t, tx);
    if tx.pc.row.status == RoundOpen {
      UnderWayStays(t, tx.w, tx.pc.row.seasonId);
    }
  }

  lemma GateStarts(t: Tables, tx: Tx)
    requires tx.cmd.PatchRound? && tx.pc.RoundReady? && tx.w.rounds == map[] && PlanRoundRow(t, tx).Go?
    ensures TxStarts(t, PlanRoundRow(t, tx).tx)
  {
  }

  lemma EndStarts(t: Tables, tx: Tx)
    requires TxStarts(t, tx) && tx.cmd.PatchRound? && tx.pc.RoundWritten? && PlanRoundEnd(t, tx).Go?
    ensures TxStarts(t, PlanRoundEnd(t, tx).tx)
  {
  }

  lemma WritesNoRoundStarts(t: Tables, tx: Tx, next: Tx)
    requires tx.w.rounds == map[] && WritesNoRound(tx, next)
    ensures TxStarts(t, next)
  {
  }

  lemma RoundWorkIsOnRounds(t: Tables, tx: Tx)
    requires TxOk(t, tx) && (tx.pc.RoundReady? || tx.pc.RoundGated?)
    ensures tx.cmd.PatchRound?
  {
  }

  lemma MoveStarts(t: Tables, clock: int, tx: Tx, pick: int)
    requires TxOk(t, tx) && OpenInProgress(t) && TxFollows(t, tx) && TxStarts(t, tx) && Plan(t, clock, tx, pick).Go?
    requires tx.pc.RoundGated? && IsOpening(tx.pc.row, tx.pc.edited) && Plan(t, clock, tx, pick).tx.pc.RoundWritten? ==>
      !SeasonAt(Overlay(t, tx.w), tx.pc.row.seasonId, SeasonOpen)
    ensures TxStarts(t, Plan(t, clock, tx, pick).tx)
  {
    hide TxOk, TxFollows, TxStarts, OpenInProgress, WritesNoRound;
    if tx.w.rounds != map[] {
      OnlyRoundPatchesHoldRounds(t, clock, tx, pick);
      EndStarts(t, tx);
    } else if tx.pc.RoundReady? || tx.pc.RoundGated? {
      RoundWorkIsOnRounds(t, tx);
      RoundMoveStarts(t, clock, tx, pick);
    } else {
      OtherMovesWriteNoRound(t, clock, tx, pick);
      WritesNoRoundStarts(t, tx, Plan(t, clock, tx, pick).tx);
    }
  }

  lemma RoundMoveStarts(t: Tables, clock: int, tx: Tx, pick: int)
    requires TxOk(t, tx) && OpenInProgress(t) && TxFollows(t, tx) && Plan(t, clock, tx, pick).Go?
    requires tx.cmd.PatchRound? && (tx.pc.RoundReady? || tx.pc.RoundGated?) && tx.w.rounds == map[]
    requires tx.pc.RoundGated? && IsOpening(tx.pc.row, tx.pc.edited) && Plan(t, clock, tx, pick).tx.pc.RoundWritten? ==>
      !SeasonAt(Overlay(t, tx.w), tx.pc.row.seasonId, SeasonOpen)
    ensures TxStarts(t, Plan(t, clock, tx, pick).tx)
  {
    if tx.pc.RoundReady? {
      GateStarts(t, tx);
    } else {
      IndexStarts(t, tx);
    }
  }

  lemma StartingIsStable(t: Tables, tx: Tx, u: Tx)
    requires TxOk(t, tx) && TxOk(t, u) && Compatible(tx.locks, u.locks) && TxStarts(t, u)
    ensures TxStarts(Overlay(t, tx.w), u)
  {
    LocksKeepApart(tx, u);
    forall s | IsUnderWay(Overlay(t, u.w), s) ensures IsUnderWay(Overlay(Overlay(t, tx.w), u.w), s) {
      BothUnderWay(t, tx.w, u.w, s);
    }
  }

  lemma BothUnderWay(t: Tables, w: Writes, v: Writes, s: int)
    requires Legal(t, w) && IsUnderWay(Overlay(t, v), s)
    ensures IsUnderWay(Overlay(Overlay(t, w), v), s)
  {
  }

  lemma CommitStarts(t: Tables, tx: Tx)
    requires TxOk(t, tx) && TxStarts(t, tx) && OpenInProgress(t)
    ensures OpenInProgress(Overlay(t, tx.w))
  {
    var u := Overlay(t, tx.w);
    forall r | r in u.rounds && u.rounds[r].status == RoundOpen ensures IsUnderWay(u, u.rounds[r].seasonId) {
      if r !in tx.w.rounds {
        UnderWayStays(t, tx.w, u.rounds[r].seasonId);
      }
    }
  }

  lemma FinishedStarts(t: Tables, tx: Tx, answer: Result<Reply>)
    ensures TxStarts(t, Finished(tx, answer))
  {
  }

  lemma AdvanceStarts(s: System, tid: int, pick: int)
    requires SystemOk(s) && SystemFollows(s) && SystemStarts(s) && tid in s.txs && !MissesSeason(s, Advance(tid, pick))
    ensures SystemStarts(AdvanceTx(s, tid, pick))
  {
    hide TxOk, TxFollows, TxStarts, OpenInProgress;
    var tx := s.txs[tid];
    match Plan(s.db, s.clock, tx, pick)
    case Stuck =>
    case Go(need, _) =>
      if MayTake(s, tid, need) {
        MoveStarts(s.db, s.clock, tx, pick);
      }
    case Commit(answer) =>
      CommitStarts(s.db, tx);
      FinishedStarts(Overlay(s.db, tx.w), tx, answer);
      forall u | u in s.txs && u != tid ensures TxStarts(Overlay(s.db, tx.w), s.txs[u]) {
        StartingIsStable(s.db, tx, s.txs[u]);
      }
  }

  lemma NextStarts(s: System, event: Event)
    requires SystemOk(s) && SystemFollows(s) && SystemStarts(s) && !MissesSeason(s, event)
    ensures SystemStarts(Next(s, event))
  {
    if event.Advance? && event.tid in s.txs {
      AdvanceStarts(s, event.tid, event.pick);
    }
  }

  lemma {:induction false} SchedulesKeepStarting(s: System, events: seq<Event>)
    requires SystemOk(s) && SystemFollows(s) && SystemStarts(s) && Follows(s, events, KeepsSeasons())
    ensures SystemOk(Play(s, events)) && SystemFollows(Play(s, events)) && SystemStarts(Play(s, events))
    decreases |events|
  {
    hide Next, SystemOk, SystemFollows, SystemStarts, MissesSeason;
    ScheduleIsOk(s, events);
    SchedulesKeepFollowing(s, events);
    if events != [] {
      var last := |events| - 1;
      FollowsBefore(s, events, KeepsSeasons());
      SchedulesKeepStarting(s, events[..last]);
      NextStarts(Play(s, events[..last]), events[last]);
    }
  }

  // ---------- and the exact step ----------

  /** Some continuation of the system that misses no further season leaves a round open
      under a season that is not under way. */
  ghost predicate MayLag(s: System) {
    exists u :: Reaches(s, u, KeepsSeasons()) && !OpenInProgress(u.db)
  }

  /** Where a missed season leaves the opening: only its commit is left. */
  ghost predicate Missed(t: Tables, tx: Tx) {
    && tx.cmd.PatchRound? && tx.pc.RoundWritten? && IsOpening(tx.pc.row, tx.pc.edited)
    && tx.cmd.roundId in tx.w.rounds && tx.w.rounds[tx.cmd.roundId] == RoundRowAfter(tx.pc.row, tx.pc.edited)
    && SeasonAt(Overlay(t, tx.w), tx.pc.row.seasonId, SeasonOpen)
  }

  lemma MissLeaves(s: System, event: Event)
    requires SystemOk(s) && MissesSeason(s, event)
    ensures event.tid in Next(s, event).txs && Next(s, event).db == s.db
    ensures Missed(s.db, Next(s, event).txs[event.tid])
  {
    var tx := s.txs[event.tid];
    assert TxOk(s.db, tx);
    RoundWorkIsOnRounds(s.db, tx);
  }

  lemma MissedEnds(t: Tables, clock: int, tx: Tx)
    requires Missed(t, tx)
    ensures var last := tx.(pc := Ending(RoundReply(RoundRowAfter(tx.pc.row, tx.pc.edited))));
      && Plan(t, clock, tx, 0) == Go({}, last)
      && Plan(t, clock, last, 0) == Commit(Ok(last.pc.reply))
  {
  }

  lemma MissedLags(t: Tables, tx: Tx)
    requires Missed(t, tx)
    ensures !OpenInProgress(Overlay(t, tx.w))
  {
    var u := Overlay(t, tx.w);
    assert tx.cmd.roundId in u.rounds && u.rounds[tx.cmd.roundId].status == RoundOpen;
  }

  lemma OtherStepsMissNothing(s: System, tid: int, pick: int)
    requires tid in s.txs && !s.txs[tid].pc.RoundGated?
    ensures KeepsSeasons()(s, Advance(tid, pick))
  {
  }

  lemma MissedSeasonLags(s: System, event: Event)
    requires SystemOk(s) && MissesSeason(s, event)
    ensures MayLag(Next(s, event))
  {
    var tid, rule, v := event.tid, KeepsSeasons(), Next(s, event);
    hide Reaches, SystemOk, MissesSeason, Missed, Plan, Next, Overlay;
    NextIsOk(s, event);
    MissLeaves(s, event);
    ReachesItself(v, rule);
    DoneHoldsNothing(v);
    CancelsMissNothing();
    var alone := OthersGiveUp(v, v, rule, tid, set a | a in v.txs && a != tid);
    var tx := alone.txs[tid];
    assert v.txs[tid] == tx && Missed(alone.db, tx);
    MissedCommits(v, alone, tid, tx);
  }

  lemma CancelsMissNothing()
    ensures AllowsCancels(KeepsSeasons())
  {
  }

  lemma MissedCommits(v: System, alone: System, tid: int, tx: Tx)
    requires Reaches(v, alone, KeepsSeasons()) && tid in alone.txs && alone.txs[tid] == tx && Missed(alone.db, tx)
    ensures MayLag(v)
  {
    hide Reaches, MissesSeason, Plan, Overlay;
    var rule := KeepsSeasons();
    var reply := RoundReply(RoundRowAfter(tx.pc.row, tx.pc.edited));
    var last := tx.(pc := Ending(reply));
    MissedEnds(alone.db, alone.clock, tx);
    assert With(alone, tid, tx) == alone;
    OtherStepsMissNothing(alone, tid, 0);
    Takes(v, alone, rule, tid, tx, 0, {}, last);
    OtherStepsMissNothing(With(alone, tid, last), tid, 0);
    Commits(v, alone, rule, tid, last, Ok(reply));
    MissedLags(alone.db, tx);
    assert Committed(alone, tid, last, Ok(reply)).db == Overlay(alone.db, tx.w);
  }

  /** After any schedule that missed no season, a step misses one if and only if some
      continuation that misses no further one commits a round open under a season that is
      not in progress. So in every schedule without such a step an open round's season is
      in progress or closed. */
  lemma {:induction false} SeasonExactly(s: System, events: seq<Event>, event: Event)
    requires Initial(s) && DbOk(s.db) && RoundsFollowSeasons(s.db) && OpenInProgress(s.db)
    requires Follows(s, events, KeepsSeasons())
    ensures OpenInProgress(Play(s, events).db)
    ensures MissesSeason(Play(s, events), event) <==> MayLag(Next(Play(s, events), event))
  {
    hide MissesSeason, Next, Reaches;
    SchedulesKeepStarting(s, events);
    var u := Play(s, events);
    if MissesSeason(u, event) {
      MissedSeasonLags(u, event);
    } else {
      NextIsOk(u, event);
      NextFollows(u, event);
      NextStarts(u, event);
      var v := Next(u, event);
      forall x | Reaches(v, x, KeepsSeasons()) ensures OpenInProgress(x.db) {
        ReachedStarts(v, x);
      }
    }
  }

  lemma ReachedStarts(s: System, u: System)
    requires SystemOk(s) && SystemFollows(s) && SystemStarts(s) && Reaches(s, u, KeepsSeasons())
    ensures OpenInProgress(u.db)
  {
    var events :| Follows(s, events, KeepsSeasons()) && Play(s, events) == u;
    SchedulesKeepStarting(s, events);
  }
}
