/** The order of a season's rounds: what the progress gate keeps, and the one
    accepted write after which the closed numbers have a gap. */
module Sequence {
  import opened Model
  import opened Lifecycle
  import opened Gates
  import opened Statements
  import opened Commands
  import opened Reachable

  predicate OpenIn(rounds: map<int, Round>, seasonId: int, r: int) {
    r in rounds && rounds[r].seasonId == seasonId && rounds[r].status == RoundOpen
  }

  predicate NumbersUnique(rounds: map<int, Round>) {
    && (forall r | r in rounds :: RoundRowOk(rounds[r]))
    && (forall r, q | r in rounds && q in rounds ::
          r != q && rounds[r].seasonId == rounds[q].seasonId ==> rounds[r].number != rounds[q].number)
  }

  /** An open round's number is one more than its season's greatest closed number. */
  predicate OpenFollowsClosed(rounds: map<int, Round>) {
    forall r | r in rounds :: rounds[r].status == RoundOpen ==>
        HighestClosedIs(rounds, rounds[r].seasonId, rounds[r].number - 1)
  }

  predicate InSequence(rounds: map<int, Round>) {
    NumbersUnique(rounds) && OpenFollowsClosed(rounds)
  }

  lemma HighestIsUnique(rounds: map<int, Round>, seasonId: int, a: int, b: int)
    requires HighestClosedIs(rounds, seasonId, a) && HighestClosedIs(rounds, seasonId, b)
    ensures a == b
  {
  }

  /** At most one round of a season is open. */
  lemma OneOpenRound(rounds: map<int, Round>, seasonId: int, r: int, q: int)
    requires InSequence(rounds) && OpenIn(rounds, seasonId, r) && OpenIn(rounds, seasonId, q)
    ensures r == q
  {
  }

  /** What the progress gate and the unique index leave of a round write: whatever
      season, clock and rides they were asked about. */
  predicate WriteFits(rounds: map<int, Round>, id: int, written: Round) {
    && id in rounds && written.seasonId == rounds[id].seasonId
    && RoundRank(rounds[id].status) <= RoundRank(written.status)
    && RoundRowOk(written) && !NumberTaken(rounds, id, written.seasonId, written.number)
    && (IsProgress(rounds[id], written) ==> HighestClosedIs(rounds, written.seasonId, written.number - 1))
  }

  /** Every accepted write of a round keeps the sequence. */
  lemma WriteKeepsSequence(rounds: map<int, Round>, id: int, written: Round)
    requires InSequence(rounds) && WriteFits(rounds, id, written)
    ensures InSequence(rounds[id := written])
  {
    var after := rounds[id := written];
    forall r | r in after && after[r].status == RoundOpen
      ensures HighestClosedIs(after, after[r].seasonId, after[r].number - 1)
    {
      if r != id {
        OtherOpenKeeps(rounds, id, written, r);
      } else {
        OwnOpenKeeps(rounds, id, written);
      }
    }
  }

  lemma OwnOpenKeeps(rounds: map<int, Round>, id: int, written: Round)
    requires InSequence(rounds) && WriteFits(rounds, id, written) && written.status == RoundOpen
    ensures HighestClosedIs(rounds[id := written], written.seasonId, written.number - 1)
  {
    assert forall q :: ClosedIn(rounds, written.seasonId, q) <==> ClosedIn(rounds[id := written], written.seasonId, q);
  }

  /** While a round is open, no other round of its season can progress: it would
      need the open round's own number. */
  lemma OtherOpenKeeps(rounds: map<int, Round>, id: int, written: Round, r: int)
    requires InSequence(rounds) && WriteFits(rounds, id, written)
    requires r in rounds && r != id && rounds[r].status == RoundOpen
    ensures HighestClosedIs(rounds[id := written], rounds[r].seasonId, rounds[r].number - 1)
  {
    var after, s, n := rounds[id := written], rounds[r].seasonId, rounds[r].number - 1;
    if rounds[id].seasonId == s && IsProgress(rounds[id], written) {
      HighestIsUnique(rounds, s, n, written.number - 1);
    } else {
      assert forall q :: ClosedIn(rounds, s, q) <==> ClosedIn(after, s, q);
      assert forall q | ClosedIn(rounds, s, q) :: rounds[q].number == after[q].number;
    }
  }

  /** Every accepted round statement keeps the sequence. */
  lemma RoundWriteKeepsSequence(t: Tables, now: int, id: int, edited: Round)
    requires InSequence(t.rounds) && UpdateRoundRow(t, now, id, edited).Ok?
    requires RoundRank(t.rounds[id].status) <= RoundRank(edited.status)
    ensures InSequence(UpdateRoundRow(t, now, id, edited).value.rounds)
  {
    WriteKeepsSequence(t.rounds, id, RoundRowAfter(t.rounds[id], edited));
  }

  lemma PatchRoundKeepsSequence(t: Tables, cmd: Command, now: int)
    requires InSequence(t.rounds) && cmd.PatchRound?
    ensures InSequence(Run(t, cmd, now, 0).t.rounds)
  {
    var o := Run(t, cmd, now, 0);
    if o.answer.Ok? {
      var row := t.rounds[cmd.roundId];
      var edited := PrepareRound(cmd, row).value;
      var before := BeforeRoundWrite(t, cmd.roundId, row, edited);
      RoundWriteKeepsSequence(before, now, cmd.roundId, edited);
    }
  }

  /** The tables the round write itself runs on: the season flipped, or the rides resolved. */
  function BeforeRoundWrite(t: Tables, id: int, row: Round, edited: Round): (u: Tables)
    ensures u.rounds == t.rounds
  {
    if IsOpening(row, edited) then FlipSeason(t, edited.seasonId, SeasonOpen, SeasonInProgress)
    else if IsClosing(row, edited) && AutoResolveAll(t, id, edited.number).Ok?
        then AutoResolveAll(t, id, edited.number).value
    else t
  }

  lemma AddRoundKeepsSequence(t: Tables, round: Round, id: int)
    requires InSequence(t.rounds) && NewRoundValid(t, round, id)
    ensures InSequence(PutRound(t, id, round).rounds)
    ensures Contiguous(t.rounds) ==> Contiguous(PutRound(t, id, round).rounds)
  {
    var u := PutRound(t, id, round);
    assert forall s, q :: ClosedIn(t.rounds, s, q) <==> ClosedIn(u.rounds, s, q);
    forall r | r in t.rounds && t.rounds[r].status == RoundOpen
      ensures HighestClosedIs(u.rounds, t.rounds[r].seasonId, t.rounds[r].number - 1)
    {
      assert forall q | ClosedIn(t.rounds, t.rounds[r].seasonId, q) :: t.rounds[q].number == u.rounds[q].number;
    }
    if Contiguous(t.rounds) {
      forall r, j | r in u.rounds && u.rounds[r].status == RoundClosed && 1 <= j < u.rounds[r].number
        ensures NumberClosed(u.rounds, u.rounds[r].seasonId, j)
      {
        assert NumberClosed(t.rounds, t.rounds[r].seasonId, j);
        var q :| q in t.rounds && ClosedIn(t.rounds, t.rounds[r].seasonId, q) && t.rounds[q].number == j;
        assert ClosedIn(u.rounds, u.rounds[r].seasonId, q);
      }
    }
  }

  // ---------- the closed numbers are 1..k ----------

  predicate NumberClosed(rounds: map<int, Round>, seasonId: int, j: int) {
    exists q | q in rounds :: ClosedIn(rounds, seasonId, q) && rounds[q].number == j
  }

  /** Below every closed number, every number is closed too. */
  ghost predicate Contiguous(rounds: map<int, Round>) {
    forall r, j | r in rounds && rounds[r].status == RoundClosed && 1 <= j < rounds[r].number ::
      NumberClosed(rounds, rounds[r].seasonId, j)
  }

  predicate RenumbersClosed(t: Tables, cmd: Command) {
    && cmd.PatchRound? && cmd.roundId in t.rounds
    && t.rounds[cmd.roundId].status == RoundClosed
    && cmd.number.Some? && cmd.number.value != t.rounds[cmd.roundId].number
  }

  /** An accepted patch leaves the closed numbers without a gap if and only if it
      does not give a closed round another number. */
  lemma GapIffClosedRenumbered(t: Tables, cmd: Command, now: int)
    requires InSequence(t.rounds) && Contiguous(t.rounds) && cmd.PatchRound?
    requires Run(t, cmd, now, 0).answer.Ok?
    ensures Contiguous(Run(t, cmd, now, 0).t.rounds) <==> !RenumbersClosed(t, cmd)
  {
    var u := Run(t, cmd, now, 0).t;
    var id := cmd.roundId;
    var row := t.rounds[id];
    var edited := PrepareRound(cmd, row).value;
    var before := BeforeRoundWrite(t, id, row, edited);
    var written := UpdateRoundRow(before, now, id, edited).value;
    assert written.rounds == u.rounds;
    if RenumbersClosed(t, cmd) {
      OldNumberIsGone(before, now, id, edited);
    } else {
      WriteKeepsContiguous(before, now, id, edited);
    }
  }

  lemma OldNumberIsGone(t: Tables, now: int, id: int, edited: Round)
    requires InSequence(t.rounds) && UpdateRoundRow(t, now, id, edited).Ok?
    requires t.rounds[id].status == RoundClosed && edited.status == RoundClosed && edited.number != t.rounds[id].number
    ensures !Contiguous(UpdateRoundRow(t, now, id, edited).value.rounds)
  {
    var u := UpdateRoundRow(t, now, id, edited).value;
    var s, n := t.rounds[id].seasonId, t.rounds[id].number;
    assert IsProgress(t.rounds[id], u.rounds[id]);
    assert ClosedIn(t.rounds, s, id);
    assert n < edited.number;
    assert !NumberClosed(u.rounds, s, n);
  }

  lemma WriteKeepsContiguous(t: Tables, now: int, id: int, edited: Round)
    requires InSequence(t.rounds) && Contiguous(t.rounds) && UpdateRoundRow(t, now, id, edited).Ok?
    requires RoundRank(t.rounds[id].status) <= RoundRank(edited.status)
    requires t.rounds[id].status == RoundClosed ==> edited.number == t.rounds[id].number
    ensures Contiguous(UpdateRoundRow(t, now, id, edited).value.rounds)
  {
    var u := UpdateRoundRow(t, now, id, edited).value;
    var s := t.rounds[id].seasonId;
    forall r, j | r in u.rounds && u.rounds[r].status == RoundClosed && 1 <= j < u.rounds[r].number
      ensures NumberClosed(u.rounds, u.rounds[r].seasonId, j)
    {
      var closed := r;
      if r == id && t.rounds[id].status != RoundClosed {
        assert HighestClosedIs(t.rounds, s, edited.number - 1);
        var q :| q in t.rounds && ClosedIn(t.rounds, s, q) && t.rounds[q].number == edited.number - 1;
        closed := q;
      }
      if j == t.rounds[closed].number {
        assert ClosedIn(u.rounds, u.rounds[r].seasonId, closed);
      } else {
        assert NumberClosed(t.rounds, u.rounds[r].seasonId, j);
        var q :| q in t.rounds && ClosedIn(t.rounds, u.rounds[r].seasonId, q) && t.rounds[q].number == j;
        assert ClosedIn(u.rounds, u.rounds[r].seasonId, q);
      }
    }
  }

  lemma AcceptedPatchFits(t: Tables, cmd: Command, now: int)
    requires cmd.PatchRound? && Run(t, cmd, now, 0).answer.Ok?
    ensures cmd.roundId in t.rounds && cmd.roundId in Run(t, cmd, now, 0).t.rounds
    ensures WriteFits(t.rounds, cmd.roundId, Run(t, cmd, now, 0).t.rounds[cmd.roundId])
  {
    var row := t.rounds[cmd.roundId];
    var edited := PrepareRound(cmd, row).value;
    var before := BeforeRoundWrite(t, cmd.roundId, row, edited);
    assert UpdateRoundRow(before, now, cmd.roundId, edited).Ok?;
  }

  lemma BelowHighestAllClosed(rounds: map<int, Round>, seasonId: int, n: int, j: int)
    requires Contiguous(rounds) && HighestClosedIs(rounds, seasonId, n) && 1 <= j <= n
    ensures NumberClosed(rounds, seasonId, j)
  {
    var q :| q in rounds && ClosedIn(rounds, seasonId, q) && rounds[q].number == n;
  }

  /** A patch that closes a round finds every smaller number closed already: the
      season's last round closes only after all the others. */
  lemma ClosingNeedsAllBefore(t: Tables, cmd: Command, now: int, j: int)
    requires InSequence(t.rounds) && Contiguous(t.rounds) && cmd.PatchRound?
    requires Run(t, cmd, now, 0).answer.Ok?
    requires t.rounds[cmd.roundId].status != RoundClosed
    requires Run(t, cmd, now, 0).t.rounds[cmd.roundId].status == RoundClosed
    requires 1 <= j < Run(t, cmd, now, 0).t.rounds[cmd.roundId].number
    ensures NumberClosed(t.rounds, t.rounds[cmd.roundId].seasonId, j)
  {
    hide Run, Contiguous, InSequence, HighestClosedIs, NumberClosed;
    AcceptedPatchFits(t, cmd, now);
    var written := Run(t, cmd, now, 0).t.rounds[cmd.roundId];
    BelowHighestAllClosed(t.rounds, written.seasonId, written.number - 1, j);
  }

  // ---------- runs ----------

  lemma OnlyRoundPatchesWriteRounds(t: Tables, cmd: Command, now: int, id: int)
    requires !cmd.PatchRound?
    ensures Run(t, cmd, now, id).t.rounds == t.rounds
  {
  }

  lemma StepKeepsSequence(t: Tables, action: Action)
    requires InSequence(t.rounds)
    ensures InSequence(Step(t, action).rounds)
    ensures Contiguous(t.rounds) && (action.Do? ==> !RenumbersClosed(t, action.cmd)) ==>
        Contiguous(Step(t, action).rounds)
  {
    match action
    case AddRound(round, now, id) =>
      if NewRoundValid(t, round, id) {
        AddRoundKeepsSequence(t, round, id);
      }
    case AddMatch(m, now, id) =>
    case Do(cmd, now, id) =>
      if cmd.PatchRound? {
        PatchRoundKeepsSequence(t, cmd, now);
        if Contiguous(t.rounds) && Run(t, cmd, now, 0).answer.Ok? {
          GapIffClosedRenumbered(t, cmd, now);
        }
      } else {
        assert Step(t, action).rounds == t.rounds by {
          OnlyRoundPatchesWriteRounds(t, cmd, now, id);
        }
      }
  }

  predicate NeverRenumbersClosed(t: Tables, actions: seq<Action>) {
    forall i | 0 <= i < |actions| :: actions[i].Do? ==> !RenumbersClosed(Exec(t, actions[..i]), actions[i].cmd)
  }

  /** Every run keeps each season in sequence; a run that never renumbers a closed
      round keeps the closed numbers 1..k as well. */
  lemma {:induction false} RunsKeepSequence(t: Tables, actions: seq<Action>)
    requires t.rounds == map[]
    ensures InSequence(Exec(t, actions).rounds)
    ensures NeverRenumbersClosed(t, actions) ==> Contiguous(Exec(t, actions).rounds)
    decreases |actions|
  {
    if actions != [] {
      var last := |actions| - 1;
      RunsKeepSequence(t, actions[..last]);
      StepKeepsSequence(Exec(t, actions[..last]), actions[last]);
      if NeverRenumbersClosed(t, actions) {
        forall i | 0 <= i < last ensures actions[..last][..i] == actions[..i] {
        }
        assert NeverRenumbersClosed(t, actions[..last]);
      }
    }
  }

  const ADD_ROUND_1: Action := AddRound(Round(7, 1, RoundCreated, 1), 0, 1)
  const CLOSE_ROUND_1: Action := Do(PatchRound(1, 7, None, None, Some(RoundClosed)), 0, 0)
  const RENUMBER_ROUND_1: Action := Do(PatchRound(1, 7, None, Some(2), None), 0, 0)

  /** A run that opens the gap: round 1 is closed and then renumbered 2. */
  lemma ClosedRoundCanBeRenumbered(t: Tables)
    requires Fresh(t) && SeasonAt(t, 7, SeasonInProgress)
    ensures !Contiguous(Exec(t, [ADD_ROUND_1] + [CLOSE_ROUND_1] + [RENUMBER_ROUND_1]).rounds)
  {
    ExecSnoc(t, [], ADD_ROUND_1);
    assert [] + [ADD_ROUND_1] == [ADD_ROUND_1];
    var t1 := Exec(t, [ADD_ROUND_1]);
    assert t1 == Step(t, ADD_ROUND_1);
    AddFirst(t);
    CloseFirst(t1, CLOSE_ROUND_1);
    ExecSnoc(t, [ADD_ROUND_1], CLOSE_ROUND_1);
    var t2 := Exec(t, [ADD_ROUND_1] + [CLOSE_ROUND_1]);
    RenumberFirst(t2, RENUMBER_ROUND_1);
    ExecSnoc(t, [ADD_ROUND_1] + [CLOSE_ROUND_1], RENUMBER_ROUND_1);
    OnlyTwoIsAGap(Step(t2, RENUMBER_ROUND_1).rounds);
  }

  lemma AddFirst(t: Tables)
    requires Fresh(t) && SeasonAt(t, 7, SeasonInProgress)
    ensures Step(t, ADD_ROUND_1) == t.(rounds := map[1 := Round(7, 1, RoundCreated, 1)])
  {
  }

  lemma OnlyTwoIsAGap(rounds: map<int, Round>)
    requires rounds == map[1 := Round(7, 2, RoundClosed, 3)]
    ensures !Contiguous(rounds)
  {
    assert !NumberClosed(rounds, 7, 1);
    assert rounds[1].status == RoundClosed && 1 <= 1 < rounds[1].number;
  }

  lemma CloseFirst(t: Tables, close: Action)
    requires t.rounds == map[1 := Round(7, 1, RoundCreated, 1)] && t.matches == map[] && t.rides == map[]
    requires SeasonAt(t, 7, SeasonInProgress)
    requires close == Do(PatchRound(1, 7, None, None, Some(RoundClosed)), 0, 0)
    ensures Step(t, close) == t.(rounds := map[1 := Round(7, 1, RoundClosed, 2)])
  {
  }

  lemma RenumberFirst(t: Tables, renumber: Action)
    requires t.rounds == map[1 := Round(7, 1, RoundClosed, 2)] && SeasonAt(t, 7, SeasonInProgress)
    requires renumber == Do(PatchRound(1, 7, None, Some(2), None), 0, 0)
    ensures Step(t, renumber) == t.(rounds := map[1 := Round(7, 2, RoundClosed, 3)])
  {
  }
}
