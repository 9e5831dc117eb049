/** What the patches of a round, a match and a season answer and write, and which rounds
    and matches are added, exactly. */
module Patches {
  import opened Model
  import opened Lifecycle
  import opened Gates
  import opened Statements
  import opened Commands
  import opened Rules
  import Facts
  import opened Reachable

  // ---------- rounds ----------

  /** The tables after an accepted round patch. */
  function RoundPatched(t: Tables, cmd: Command): Tables
    requires cmd.PatchRound? && cmd.roundId in t.rounds
  {
    var row := t.rounds[cmd.roundId];
    var number, status := NewNumber(cmd, row), NewRoundStatus(cmd, row);
    t.(rounds := t.rounds[cmd.roundId := row.(number := number, status := status, version := row.version + 1)],
       seasons := SeasonsAfter(t, row, number, status),
       rides := RidesAfter(t, cmd.roundId, row, number, status))
  }

  /** A round patch is refused for the first reason that applies and changes nothing, or
      writes the round, the season it starts or ends and the rides it sends off. */
  lemma PatchRoundExactly(t: Tables, cmd: Command, now: int)
    requires cmd.PatchRound?
    ensures Run(t, cmd, now, 0)
         == match RoundPatchRefusal(t, cmd, now)
            case Some(e) => Outcome(t, Err(e))
            case None => Outcome(RoundPatched(t, cmd), Ok(RoundReply(RoundPatched(t, cmd).rounds[cmd.roundId])))
  {
    if 1 <= cmd.roundId && cmd.roundId in t.rounds {
      var row := t.rounds[cmd.roundId];
      PrepareExactly(cmd, row);
      if PrepareRound(cmd, row).Ok? {
        var edited := PrepareRound(cmd, row).value;
        if IsOpening(row, edited) {
          OpeningExactly(t, cmd.roundId, row, edited, now);
        } else if IsClosing(row, edited) {
          ClosingExactly(t, cmd.roundId, row, edited, now);
        } else {
          PlainExactly(t, cmd.roundId, row, edited, now);
        }
      }
    }
  }

  lemma PrepareExactly(cmd: Command, row: Round)
    requires cmd.PatchRound?
    ensures var number, status := NewNumber(cmd, row), NewRoundStatus(cmd, row);
      PrepareRound(cmd, row)
      == if row.seasonId != cmd.inSeason then Err(RecordNotFound)
         else if cmd.expected.Some? && cmd.expected.value != row.version then Err(EditConflict)
         else if row.seasonId <= 0 || number < 1 || number > 38
             || (row.status == RoundOpen && status == RoundCreated)
             || (row.status == RoundClosed && status != RoundClosed) then Err(InvalidInput)
         else Ok(row.(number := number, status := status))
  {
  }

  /** The round write itself, on tables whose rides and seasons the patch may have prepared. */
  lemma WriteExactly(t: Tables, u: Tables, id: int, row: Round, edited: Round, now: int)
    requires id in t.rounds && t.rounds[id] == row && u.rounds == t.rounds && u.matches == t.matches
    requires edited == row.(number := edited.number, status := edited.status) && 1 <= edited.number <= 38
    requires IsLive(u, row.seasonId) == IsLive(t, row.seasonId)
    requires row.status == RoundOpen && edited.status == RoundClosed ==>
      forall k | k in u.rides :: !IsUndecided(u, id, u.rides[k])
    requires !(row.status == RoundOpen && edited.status == RoundClosed) ==> u.rides == t.rides
    requires RoundRank(row.status) <= RoundRank(edited.status)
    ensures UpdateRoundRow(u, now, id, edited)
         == if GatesRefuse(t, id, row, edited.number, edited.status, now) then Err(RecordInUse)
            else if IsTaken(t, id, row.seasonId, edited.number) then Err(DuplicateRecord)
            else Ok(PutRound(u, id, row.(number := edited.number, status := edited.status, version := row.version + 1)))
  {
    Facts.NumbersExactly(t, id, row.seasonId, edited.number);
    var written := RoundRowAfter(row, edited);
    CloseGateExactly(t, u, id, row, written);
    assert RoundHasStartedMatch(u, now, id) <==> RoundHasStarted(t, id, now);
    assert IsProgress(row, written) <==> MovesForward(row, edited.number, edited.status);
    assert SeasonLive(u, row.seasonId) <==> IsLive(u, row.seasonId);
  }

  lemma CloseGateExactly(t: Tables, u: Tables, id: int, row: Round, written: Round)
    requires u.matches == t.matches
    requires row.status == RoundOpen && written.status == RoundClosed ==>
      forall k | k in u.rides :: !IsUndecided(u, id, u.rides[k])
    requires !(row.status == RoundOpen && written.status == RoundClosed) ==> u.rides == t.rides
    ensures RoundCloseAllows(u, id, row, written) <==>
      (written.status == RoundClosed && row.status != RoundClosed ==>
        && AllEnded(t, id)
        && (row.status == RoundCreated ==> forall k | k in t.rides :: !IsUndecided(t, id, t.rides[k])))
  {
  }

  lemma OpeningExactly(t: Tables, id: int, row: Round, edited: Round, now: int)
    requires id in t.rounds && t.rounds[id] == row && IsOpening(row, edited)
    requires edited == row.(number := edited.number, status := edited.status) && 1 <= edited.number <= 38
    ensures OpenRound(t, id, edited, now)
         == if GatesRefuse(t, id, row, edited.number, edited.status, now) then Err(RecordInUse)
            else if IsTaken(t, id, row.seasonId, edited.number) then Err(DuplicateRecord)
            else Ok(PutRound(t, id, row.(number := edited.number, status := edited.status,
                version := row.version + 1)).(
                      seasons := SeasonsAfter(t, row, edited.number, edited.status)))
  {
    var flipped := FlipSeason(t, edited.seasonId, SeasonOpen, SeasonInProgress);
    WriteExactly(t, flipped, id, row, edited, now);
  }

  /** The rides half of a close, row by row. */
  lemma AutoResolvedExactly(t: Tables, id: int, number: int)
    ensures AutoResolveAll(t, id, number)
         == Ok(t.(rides := map k | k in t.rides :: RideAfterClose(t, id, number, t.rides[k])))
  {
    Facts.AutoResolutionIsLegal(t, id, number);
    var resolved := AutoResolveAll(t, id, number).value.rides;
    var expected := map k | k in t.rides :: RideAfterClose(t, id, number, t.rides[k]);
    assert forall k :: k in resolved <==> k in expected;
    assert forall k | k in resolved :: resolved[k] == expected[k];
    assert resolved == expected;
  }

  lemma ClosingExactly(t: Tables, id: int, row: Round, edited: Round, now: int)
    requires id in t.rounds && t.rounds[id] == row && IsClosing(row, edited)
    requires edited == row.(number := edited.number, status := edited.status) && 1 <= edited.number <= 38
    ensures CloseRound(t, id, edited, now)
         == if GatesRefuse(t, id, row, edited.number, edited.status, now) then Err(RecordInUse)
            else if IsTaken(t, id, row.seasonId, edited.number) then Err(DuplicateRecord)
            else Ok(PutRound(t, id, row.(number := edited.number, status := edited.status,
                version := row.version + 1)).(
                      seasons := SeasonsAfter(t, row, edited.number, edited.status),
                      rides := RidesAfter(t, id, row, edited.number, edited.status)))
  {
    AutoResolvedExactly(t, id, edited.number);
    var resolved := t.(rides := map k | k in t.rides :: RideAfterClose(t, id, edited.number, t.rides[k]));
    WriteExactly(t, resolved, id, row, edited, now);
  }

  lemma PlainExactly(t: Tables, id: int, row: Round, edited: Round, now: int)
    requires id in t.rounds && t.rounds[id] == row && !IsOpening(row, edited) && !IsClosing(row, edited)
    requires edited == row.(number := edited.number, status := edited.status) && 1 <= edited.number <= 38
    requires RoundRank(row.status) <= RoundRank(edited.status)
    ensures UpdateRoundRow(t, now, id, edited)
         == if GatesRefuse(t, id, row, edited.number, edited.status, now) then Err(RecordInUse)
            else if IsTaken(t, id, row.seasonId, edited.number) then Err(DuplicateRecord)
            else Ok(PutRound(t, id, row.(number := edited.number, status := edited.status, version := row.version + 1)))
  {
    WriteExactly(t, t, id, row, edited, now);
  }

  // ---------- matches ----------

  /** A match patch is refused for the first reason that applies and changes nothing, or
      writes the one match: every field the request carries, and no other. */
  lemma PatchMatchExactly(t: Tables, cmd: Command, now: int)
    requires cmd.PatchMatch?
    ensures Run(t, cmd, now, 0)
         == match MatchPatchRefusal(t, cmd, now)
            case Some(e) => Outcome(t, Err(e))
            case None =>
              var row := PatchedMatch(t.matches[cmd.editedId], cmd.edit, now);
              Outcome(t.(matches := t.matches[cmd.editedId := row]), Ok(MatchReply(row)))
  {
    if 1 <= cmd.editedId && cmd.editedId in t.matches {
      var m := t.matches[cmd.editedId];
      var asked := AskedMatch(m, cmd.edit);
      ShapeExactly(m, asked);
      if WellShaped(asked) && !GoesBack(m.status, asked.status) {
        EditExactly(m, cmd.edit, now);
      }
    }
  }

  lemma ShapeExactly(m: Match, asked: Match)
    ensures MatchUpdateValid(m, asked) <==> WellShaped(asked) && !GoesBack(m.status, asked.status)
  {
  }

  lemma EditExactly(m: Match, e: MatchEdit, now: int)
    requires WellShaped(AskedMatch(m, e))
    ensures EditedRow(now, m, AskedMatch(m, e)) == PatchedMatch(m, e, now)
    ensures EditRowError(now, m, PatchedMatch(m, e, now))
         == if (AskedMatch(m, e).status == MatchCreated || AskedMatch(m, e).status == MatchPostponed)
             && m.startsAt <= now
            then Some(RecordInUse)
            else if ColumnsRefuse(PatchedMatch(m, e, now)) then Some(ConstraintViolation)
            else None
  {
  }

  // ---------- seasons ----------

  lemma PatchSeasonExactly(t: Tables, cmd: Command, now: int)
    requires cmd.PatchSeason?
    ensures Run(t, cmd, now, 0)
         == match SeasonPatchRefusal(t, cmd, now)
            case Some(e) => Outcome(t, Err(e))
            case None =>
              var season := t.seasons[cmd.seasonId];
              var row := Season(NewSeasonStatus(cmd, season), season.version + 1);
              Outcome(t.(seasons := t.seasons[cmd.seasonId := row]), Ok(SeasonReply(row)))
  {
    if 1 <= cmd.seasonId && cmd.seasonId in t.seasons {
      assert SeasonHasStartedMatch(t, now, cmd.seasonId) <==> SeasonHasStarted(t, cmd.seasonId, now);
    }
  }

  // ---------- creations ----------

  /** A round or a match is added exactly if the rules let it, as given; else nothing changes. */
  lemma AdditionsExactly(t: Tables, round: Round, m: Match, now: int, id: int)
    ensures Step(t, AddRound(round, now, id))
         == if MayAddRound(t, round, id) then t.(rounds := t.rounds[id := round]) else t
    ensures Step(t, AddMatch(m, now, id))
         == if MayAddMatch(t, m, now, id) then t.(matches := t.matches[id := m]) else t
  {
  }
}
