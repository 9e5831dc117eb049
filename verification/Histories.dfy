/** What the log of committed commands shows in every interleaving: one execution a
    key, one write a ride version, one resolution a match. */
module Histories {
  import opened Model
  import opened Gates
  import opened Statements
  import opened Commands
  import Facts
  import opened Interleaving
  import opened Steps
  import opened Safety
  import opened Stability

  // ---------- one entry ----------

  /** The key of an executed ride command holds its request and its answer. */
  predicate KeyHolds(t: Tables, e: Entry)
    requires IsRideCommand(e.cmd)
  {
    && e.answer.Ok? && e.answer.value.RideReply?
    && e.cmd.token.key in t.keys
    && t.keys[e.cmd.token.key] == KeyRow(e.cmd.token.endpoint, e.cmd.token.hash, e.answer.value.response)
  }

  /** The rides an entry wrote are at its version or beyond, and an exit it wrote is final. */
  predicate RidesReached(t: Tables, e: Entry) {
    forall id | id in e.w.rides ::
      && id in t.rides && e.w.rides[id].version <= t.rides[id].version
      && (Terminal(e.w.rides[id].state) ==> t.rides[id] == e.w.rides[id])
  }

  /** A resolution settled its rides by the winner of the score it wrote. */
  predicate SettledByWinner(e: Entry)
    requires e.cmd.ResolveMatch?
  {
    var m := e.cmd.matchId;
    && m in e.w.matches && e.w.matches[m].status == MatchClosed && MatchRowOk(e.w.matches[m])
    && forall id | id in e.w.rides ::
         && e.w.rides[id].matchId == m
         && e.w.rides[id].state == (if Facts.Winner(e.w.matches[m]) == Some(e.w.rides[id].teamId) then WonPending
              else Lost)
  }

  predicate EntryOk(t: Tables, e: Entry) {
    && e.answer.Ok?
    && RidesReached(t, e)
    && (IsRideCommand(e.cmd) ==> KeyHolds(t, e) && e.w.rides.Keys == {e.id} && DecidedAs(e.cmd, e.id, e.w.rides[e.id]))
    && (e.cmd.ResolveMatch? ==>
          SettledByWinner(e) && e.cmd.matchId in t.matches && t.matches[e.cmd.matchId].status == MatchClosed)
  }

  // ---------- two entries ----------

  predicate EntriesApart(a: Entry, b: Entry) {
    && a.tid != b.tid
    && (IsRideCommand(a.cmd) && IsRideCommand(b.cmd) ==> a.cmd.token.key != b.cmd.token.key)
    && (forall id | id in a.w.rides && id in b.w.rides ::
          a.w.rides[id].version < b.w.rides[id].version && !Terminal(a.w.rides[id].state))
    && (a.cmd.ResolveMatch? && b.cmd.ResolveMatch? ==> a.cmd.matchId != b.cmd.matchId)
  }

  ghost predicate LogOk(s: System) {
    && (forall i | 0 <= i < |s.log| :: EntryOk(s.db, s.log[i]))
    && (forall i | 0 <= i < |s.log| ::
          s.log[i].tid in s.txs && s.txs[s.log[i].tid].cmd == s.log[i].cmd
              && s.txs[s.log[i].tid].pc == Done(s.log[i].answer))
    && PairwiseApart(s.log)
  }

  lemma EntryStaysOk(t: Tables, u: Tables, e: Entry)
    requires Grows(t, u) && EntryOk(t, e)
    ensures EntryOk(u, e)
  {
  }

  /** The committing transaction's entry fits the tables it leaves. */
  lemma NewEntryIsOk(t: Tables, clock: int, tid: int, tx: Tx, pick: int, answer: Result<Reply>)
    requires DbOk(t) && TxOk(t, tx) && Plan(t, clock, tx, pick) == Commit(answer)
    ensures EntryOk(Overlay(t, tx.w), EntryOf(tid, tx, answer))
  {
    CommitsAreOk(t, clock, tx, pick, answer);
    if tx.cmd.ResolveMatch? {
      ResolutionEntryIsOk(t, clock, tid, tx, pick, answer);
    } else {
      hide PlanAdmin, PlanRide;
      if IsRideCommand(tx.cmd) {
        RideCommitsItsAnswer(t, clock, tx, pick);
        assert Overlay(t, tx.w).keys[tx.cmd.token.key] == ClaimRow(tx.cmd.token).(response := tx.pc.response);
      }
    }
  }

  lemma ResolutionEntryIsOk(t: Tables, clock: int, tid: int, tx: Tx, pick: int, answer: Result<Reply>)
    requires TxOk(t, tx) && tx.cmd.ResolveMatch? && Plan(t, clock, tx, pick) == Commit(answer) && !tx.pc.Start?
    ensures answer.Ok? ==> EntryOk(Overlay(t, tx.w), EntryOf(tid, tx, answer))
  {
    ResolveCommitsSettled(t, clock, tx, pick, answer);
    hide Plan, PlanAdmin;
    forall id | id in tx.w.rides
      ensures tx.w.rides[id].state
           == (if Facts.Winner(tx.w.matches[tx.cmd.matchId]) == Some(tx.w.rides[id].teamId) then WonPending else Lost)
    {
      Facts.ThreeWinnersAgree(tx.w.matches[tx.cmd.matchId], tx.w.rides[id].teamId);
    }
  }

  lemma CommitsAreOk(t: Tables, clock: int, tx: Tx, pick: int, answer: Result<Reply>)
    requires Plan(t, clock, tx, pick) == Commit(answer)
    ensures answer.Ok? && !tx.pc.Start?
    ensures Plan(t, clock, tx, pick)
         == if IsRideCommand(tx.cmd) then PlanRide(t, clock, tx, pick) else PlanAdmin(t, clock, tx, pick)
  {
  }

  lemma ResolveCommitsSettled(t: Tables, clock: int, tx: Tx, pick: int, answer: Result<Reply>)
    requires tx.cmd.ResolveMatch? && !tx.pc.Start? && AdminPc(t, tx) && PlanAdmin(t, clock, tx, pick) == Commit(answer)
    ensures tx.pc.Settling? && ScoreWritten(t, tx)
    ensures forall id | id in tx.pc.seen :: id in tx.w.rides
  {
  }

  /** What the log already shows cannot be done again by the committing transaction. */
  lemma NewEntryIsApart(t: Tables, clock: int, tid: int, tx: Tx, pick: int, answer: Result<Reply>, e: Entry)
    requires DbOk(t) && TxOk(t, tx) && Plan(t, clock, tx, pick) == Commit(answer)
    requires EntryOk(t, e) && e.tid != tid
    ensures EntriesApart(e, EntryOf(tid, tx, answer))
  {
    hide Grows, RideGrows;
    if IsRideCommand(tx.cmd) {
      RideCommitsItsAnswer(t, clock, tx, pick);
      assert tx.cmd.token.key in tx.w.keys;
    } else if tx.cmd.ResolveMatch? {
      ResolveCommitsSettled(t, clock, tx, pick, answer);
    }
  }

  lemma NothingAfterDone(t: Tables, clock: int, tx: Tx, pick: int)
    requires tx.pc.Done?
    ensures Plan(t, clock, tx, pick).Stuck?
  {
  }

  lemma DoneStays(s: System, event: Event, a: int)
    requires a in s.txs && s.txs[a].pc.Done?
    ensures a in Next(s, event).txs && Next(s, event).txs[a] == s.txs[a]
  {
    if event.Advance? && event.tid == a {
      NothingAfterDone(s.db, s.clock, s.txs[a], event.pick);
    }
  }

  /** A step either leaves the log alone or appends the entry of the transaction it commits. */
  lemma NextLogs(s: System, event: Event)
    ensures || Next(s, event).log == s.log
            || (&& event.Advance? && event.tid in s.txs
                && var tx := s.txs[event.tid];
                   var move := Plan(s.db, s.clock, tx, event.pick);
                   && move.Commit?
                   && Next(s, event).log == s.log + [EntryOf(event.tid, tx, move.answer)]
                   && Next(s, event).db == Overlay(s.db, tx.w)
                   && Next(s, event).txs == s.txs[event.tid := Finished(tx, move.answer)])
  {
  }

  lemma OldEntriesStay(s: System, event: Event)
    requires SystemOk(s) && LogOk(s)
    ensures var u := Next(s, event);
      forall i | 0 <= i < |s.log| ::
        && EntryOk(u.db, s.log[i])
        && s.log[i].tid in u.txs && u.txs[s.log[i].tid].cmd == s.log[i].cmd
             && u.txs[s.log[i].tid].pc == Done(s.log[i].answer)
  {
    NextGrows(s, event);
    forall i | 0 <= i < |s.log|
      ensures EntryOk(Next(s, event).db, s.log[i])
      ensures s.log[i].tid in Next(s, event).txs && Next(s, event).txs[s.log[i].tid] == s.txs[s.log[i].tid]
    {
      EntryStaysOk(s.db, Next(s, event).db, s.log[i]);
      DoneStays(s, event, s.log[i].tid);
    }
  }

  lemma NewEntryIsNew(s: System, event: Event)
    requires SystemOk(s) && LogOk(s) && event.Advance? && event.tid in s.txs
    requires Plan(s.db, s.clock, s.txs[event.tid], event.pick).Commit?
    ensures var e := EntryOf(event.tid, s.txs[event.tid], Plan(s.db, s.clock, s.txs[event.tid], event.pick).answer);
      EntryOk(Overlay(s.db, s.txs[event.tid].w), e) && forall i | 0 <= i < |s.log| :: EntriesApart(s.log[i], e)
  {
    var tid, tx := event.tid, s.txs[event.tid];
    var answer := Plan(s.db, s.clock, tx, event.pick).answer;
    assert TxOk(s.db, tx);
    NewEntryIsOk(s.db, s.clock, tid, tx, event.pick, answer);
    forall i | 0 <= i < |s.log| ensures EntriesApart(s.log[i], EntryOf(tid, tx, answer)) {
      if s.log[i].tid == tid {
        NothingAfterDone(s.db, s.clock, tx, event.pick);
        assert false;
      }
      NewEntryIsApart(s.db, s.clock, tid, tx, event.pick, answer, s.log[i]);
    }
  }

  ghost predicate PairwiseApart(log: seq<Entry>) {
    forall i, j | 0 <= i < j < |log| :: EntriesApart(log[i], log[j])
  }

  lemma AppendKeepsApart(log: seq<Entry>, e: Entry)
    requires PairwiseApart(log) && forall i | 0 <= i < |log| :: EntriesApart(log[i], e)
    ensures PairwiseApart(log + [e])
  {
  }

  lemma NextKeepsLog(s: System, event: Event)
    requires SystemOk(s) && LogOk(s)
    ensures LogOk(Next(s, event))
  {
    OldEntriesStay(s, event);
    NextLogs(s, event);
    if Next(s, event).log != s.log {
      NewEntryIsNew(s, event);
      AppendKeepsApart(s.log, EntryOf(event.tid, s.txs[event.tid],
          Plan(s.db, s.clock, s.txs[event.tid], event.pick).answer));
    }
  }

  lemma {:induction false} LogIsOk(s: System, events: seq<Event>)
    requires Initial(s) && DbOk(s.db)
    ensures SystemOk(Play(s, events)) && LogOk(Play(s, events))
    decreases |events|
  {
    ScheduleIsOk(s, events);
    if events != [] {
      LogIsOk(s, events[..|events| - 1]);
      NextKeepsLog(Play(s, events[..|events| - 1]), events[|events| - 1]);
    }
  }

  // ---------- the theorems ----------

  lemma OrderedEntriesApart(s: System, i: nat, j: nat)
    requires LogOk(s) && i < |s.log| && j < |s.log|
    ensures i < j ==> EntriesApart(s.log[i], s.log[j])
    ensures j < i ==> EntriesApart(s.log[j], s.log[i])
  {
  }

  /** At most one execution a key, and it wrote exactly one ride. */
  lemma OneExecutionPerKey(s: System, events: seq<Event>, i: nat, j: nat)
    requires Initial(s) && DbOk(s.db)
    requires i < |Play(s, events).log| && j < |Play(s, events).log|
    requires var log := Play(s, events).log;
      IsRideCommand(log[i].cmd) && IsRideCommand(log[j].cmd) && log[i].cmd.token.key == log[j].cmd.token.key
    ensures i == j && Play(s, events).log[i].w.rides.Keys == {Play(s, events).log[i].id}
  {
    LogIsOk(s, events);
    OrderedEntriesApart(Play(s, events), i, j);
  }

  /** All requests under one key that succeeded carried one hash and got one answer. */
  lemma SameKeySameAnswer(s: System, events: seq<Event>, a: int, b: int)
    requires Initial(s) && DbOk(s.db)
    requires var txs := Play(s, events).txs;
      && a in txs && b in txs && IsRideCommand(txs[a].cmd) && IsRideCommand(txs[b].cmd)
      && txs[a].cmd.token.key == txs[b].cmd.token.key
      && txs[a].pc.Done? && txs[a].pc.answer.Ok? && txs[b].pc.Done? && txs[b].pc.answer.Ok?
    ensures var txs := Play(s, events).txs;
      && txs[a].cmd.token.hash == txs[b].cmd.token.hash
      && txs[a].pc.answer == txs[b].pc.answer
  {
    LogIsOk(s, events);
    DoneAnswerIsStored(Play(s, events).db, Play(s, events).txs[a]);
    DoneAnswerIsStored(Play(s, events).db, Play(s, events).txs[b]);
  }

  lemma DoneAnswerIsStored(t: Tables, tx: Tx)
    requires TxOk(t, tx) && IsRideCommand(tx.cmd) && tx.pc.Done?
    ensures Idle(tx) && AnswerStored(t, tx, tx.pc.answer)
  {
  }

  /** Once a key is committed, a request under it with another hash changes nothing,
      however it is interleaved: if it finished, it was refused, and it is not in the log. */
  lemma OtherHashChangesNothing(s: System, events: seq<Event>, a: int)
    requires Initial(s) && DbOk(s.db)
    requires var u := Play(s, events);
      && a in u.txs && IsRideCommand(u.txs[a].cmd) && u.txs[a].pc.Done?
      && u.txs[a].cmd.token.key in u.db.keys
      && u.db.keys[u.txs[a].cmd.token.key].hash != u.txs[a].cmd.token.hash
    ensures var u := Play(s, events);
      u.txs[a].pc.answer.Err? && forall i | 0 <= i < |u.log| :: u.log[i].tid != a
  {
    LogIsOk(s, events);
    var u := Play(s, events);
    DoneAnswerIsStored(u.db, u.txs[a]);
    forall i | 0 <= i < |u.log| ensures u.log[i].tid != a {
      assert EntryOk(u.db, u.log[i]);
    }
  }

  /** A key row is one the run started with, or the answer of a command the log shows
      as executed: never the claim's placeholder left behind. */
  ghost predicate KeyOrigin(s: System, u: System, key: string) {
    || (key in s.db.keys && key in u.db.keys && u.db.keys[key] == s.db.keys[key])
    || exists i | 0 <= i < |u.log| :: IsRideCommand(u.log[i].cmd) && u.log[i].cmd.token.key == key
         && KeyHolds(u.db, u.log[i])
  }

  lemma CommitWritesItsKeyOnly(t: Tables, clock: int, tx: Tx, pick: int, key: string)
    requires TxOk(t, tx) && Plan(t, clock, tx, pick).Commit? && key in tx.w.keys
    ensures IsRideCommand(tx.cmd) && tx.cmd.token.key == key
  {
  }

  /** A key appears in the step that logs its command. */
  lemma NewKeyIsLogged(v: System, event: Event, key: string)
    requires SystemOk(v) && LogOk(v)
    requires key !in v.db.keys && key in Next(v, event).db.keys
    ensures var u := Next(v, event);
      u.log != [] && IsRideCommand(u.log[|u.log| - 1].cmd) && u.log[|u.log| - 1].cmd.token.key == key
  {
    hide Plan, DbOk, EntryOk, PairwiseApart;
    NextCommitsOneTx(v, event);
    NextLogs(v, event);
    var tx := v.txs[event.tid];
    CommitWritesItsKeyOnly(v.db, v.clock, tx, event.pick, key);
  }

  lemma LogOnlyGrows(v: System, event: Event)
    ensures v.log <= Next(v, event).log
  {
  }

  lemma OldOriginStays(s: System, v: System, u: System, key: string)
    requires Grows(v.db, u.db) && v.log <= u.log && LogOk(u)
    requires key in v.db.keys && KeyOrigin(s, v, key)
    ensures KeyOrigin(s, u, key)
  {
  }

  lemma {:induction false} EveryKeyHoldsAnAnswer(s: System, events: seq<Event>, key: string)
    requires Initial(s) && DbOk(s.db)
    requires key in Play(s, events).db.keys
    ensures KeyOrigin(s, Play(s, events), key)
    decreases |events|
  {
    if events != [] {
      var event := events[|events| - 1];
      var v := Play(s, events[..|events| - 1]);
      LogIsOk(s, events[..|events| - 1]);
      LogIsOk(s, events);
      if key in v.db.keys {
        EveryKeyHoldsAnAnswer(s, events[..|events| - 1], key);
        NextGrows(v, event);
        LogOnlyGrows(v, event);
        OldOriginStays(s, v, Play(s, events), key);
      } else {
        NewKeyIsLogged(v, event, key);
        var u := Play(s, events);
        assert EntryOk(u.db, u.log[|u.log| - 1]);
      }
    }
  }

  /** From one version of a ride at most one committed write ever lands, whoever
      competes: a continuation, a burn, an unlock, a settlement or a closing round. */
  lemma OneWritePerVersion(s: System, events: seq<Event>, i: nat, j: nat, id: int)
    requires Initial(s) && DbOk(s.db)
    requires i < |Play(s, events).log| && j < |Play(s, events).log|
    requires var log := Play(s, events).log;
      id in log[i].w.rides && id in log[j].w.rides && log[i].w.rides[id].version == log[j].w.rides[id].version
    ensures i == j
  {
    LogIsOk(s, events);
    OrderedEntriesApart(Play(s, events), i, j);
  }

  /** Of all resolutions of a match at most one commits, and it settled by its winner. */
  lemma OneResolutionPerMatch(s: System, events: seq<Event>, i: nat, j: nat)
    requires Initial(s) && DbOk(s.db)
    requires i < |Play(s, events).log| && j < |Play(s, events).log|
    requires var log := Play(s, events).log;
      log[i].cmd.ResolveMatch? && log[j].cmd.ResolveMatch? && log[i].cmd.matchId == log[j].cmd.matchId
    ensures i == j && SettledByWinner(Play(s, events).log[i])
  {
    LogIsOk(s, events);
    var log := Play(s, events).log;
    assert EntryOk(Play(s, events).db, log[i]);
    OrderedEntriesApart(Play(s, events), i, j);
  }

  // ---------- what the answers show ----------

  ghost predicate Executed(s: System, a: int) {
    exists i | 0 <= i < |s.log| :: s.log[i].tid == a
  }

  predicate Succeeded(s: System, a: int) {
    a in s.txs && s.txs[a].pc.Done? && s.txs[a].pc.answer.Ok?
  }

  /** A success is an execution in the log, unless it is a ride command's replay. */
  ghost predicate SuccessesLogged(s: System) {
    forall a | a in s.txs && Succeeded(s, a) && !IsRideCommand(s.txs[a].cmd) :: Executed(s, a)
  }

  lemma OnlyReplaysFinishWithoutCommit(t: Tables, clock: int, tx: Tx, pick: int)
    requires !IsRideCommand(tx.cmd) && Plan(t, clock, tx, pick).Go?
    ensures var next := Plan(t, clock, tx, pick).tx; next.cmd == tx.cmd && !(next.pc.Done? && next.pc.answer.Ok?)
  {
  }

  lemma NextKeepsSuccesses(s: System, event: Event)
    requires SuccessesLogged(s)
    ensures SuccessesLogged(Next(s, event))
  {
    var u := Next(s, event);
    LogOnlyGrows(s, event);
    NextLogs(s, event);
    forall a | a in u.txs && Succeeded(u, a) && !IsRideCommand(u.txs[a].cmd) ensures Executed(u, a) {
      if a in s.txs && Succeeded(s, a) {
        var i :| 0 <= i < |s.log| && s.log[i].tid == a;
        assert u.log[i].tid == a;
      } else if event.Advance? && event.tid == a && a in s.txs {
        if Plan(s.db, s.clock, s.txs[a], event.pick).Go? {
          OnlyReplaysFinishWithoutCommit(s.db, s.clock, s.txs[a], event.pick);
        } else {
          assert u.log[|u.log| - 1].tid == a;
        }
      }
    }
  }

  /** Every success a client is told of is in the log, or is a ride command answered from
      a committed key whose hash is its own. */
  lemma AnswersAreShown(s: System, events: seq<Event>, a: int)
    requires Initial(s) && DbOk(s.db)
    requires Succeeded(Play(s, events), a)
    ensures var u := Play(s, events);
      if IsRideCommand(u.txs[a].cmd) then KeyOrigin(s, u, u.txs[a].cmd.token.key)
          && AnswerStored(u.db, u.txs[a], u.txs[a].pc.answer)
      else Executed(u, a)
  {
    LogIsOk(s, events);
    var u := Play(s, events);
    if IsRideCommand(u.txs[a].cmd) {
      DoneAnswerIsStored(u.db, u.txs[a]);
      EveryKeyHoldsAnAnswer(s, events, u.txs[a].cmd.token.key);
    } else {
      SuccessesAreLogged(s, events);
    }
  }

  lemma {:induction false} SuccessesAreLogged(s: System, events: seq<Event>)
    requires Initial(s)
    ensures SuccessesLogged(Play(s, events))
    decreases |events|
  {
    if events != [] {
      SuccessesAreLogged(s, events[..|events| - 1]);
      NextKeepsSuccesses(Play(s, events[..|events| - 1]), events[|events| - 1]);
    }
  }

  /** Of all resolutions of a match at most one is told it succeeded. */
  lemma OneResolutionAnswered(s: System, events: seq<Event>, a: int, b: int)
    requires Initial(s) && DbOk(s.db)
    requires Succeeded(Play(s, events), a) && Succeeded(Play(s, events), b)
    requires var txs := Play(s, events).txs;
      txs[a].cmd.ResolveMatch? && txs[b].cmd.ResolveMatch? && txs[a].cmd.matchId == txs[b].cmd.matchId
    ensures a == b
  {
    hide Play, TxOk, DbOk, EntryOk, SystemOk;
    LogIsOk(s, events);
    AnswersAreShown(s, events, a);
    AnswersAreShown(s, events, b);
    var log := Play(s, events).log;
    var i :| 0 <= i < |log| && log[i].tid == a;
    var j :| 0 <= j < |log| && log[j].tid == b;
    OrderedEntriesApart(Play(s, events), i, j);
  }

  /** The hash of a token covers the request's method, URI and body: under one key it
      names one request. */
  predicate HashNamesRequest(s: System) {
    forall a, b | a in s.txs && b in s.txs && s.txs[a].cmd.DecideRide? && IsRideCommand(s.txs[b].cmd) ::
      s.txs[a].cmd.token.key == s.txs[b].cmd.token.key && s.txs[a].cmd.token.hash == s.txs[b].cmd.token.hash ==>
        s.txs[b].cmd.DecideRide? && s.txs[b].cmd.rideId == s.txs[a].cmd.rideId
            && s.txs[b].cmd.decision == s.txs[a].cmd.decision
  }

  /** The entry that executed the request a success was answered for. */
  lemma SuccessHasEntry(s: System, events: seq<Event>, a: int) returns (i: nat)
    requires Initial(s) && DbOk(s.db) && HashNamesRequest(Play(s, events))
    requires Succeeded(Play(s, events), a) && Play(s, events).txs[a].cmd.DecideRide?
    requires Play(s, events).txs[a].cmd.token.key !in s.db.keys
    ensures var u := Play(s, events);
      && i < |u.log| && u.log[i].cmd.DecideRide? && u.log[i].cmd.token.key == u.txs[a].cmd.token.key
      && u.log[i].cmd.rideId == u.txs[a].cmd.rideId && u.log[i].cmd.decision == u.txs[a].cmd.decision
  {
    LogIsOk(s, events);
    AnswersAreShown(s, events, a);
    var u := Play(s, events);
    var key := u.txs[a].cmd.token.key;
    i :| 0 <= i < |u.log| && IsRideCommand(u.log[i].cmd) && u.log[i].cmd.token.key == key && KeyHolds(u.db, u.log[i]);
    assert u.txs[u.log[i].tid].cmd == u.log[i].cmd;
  }

  /** Of all requests to burn or unlock a ride under different fresh keys at most one is
      told it succeeded, whatever else runs. */
  lemma OneExitAnswered(s: System, events: seq<Event>, a: int, b: int)
    requires Initial(s) && DbOk(s.db) && HashNamesRequest(Play(s, events))
    requires Succeeded(Play(s, events), a) && Succeeded(Play(s, events), b)
    requires var txs := Play(s, events).txs;
      && txs[a].cmd.DecideRide? && txs[b].cmd.DecideRide? && txs[a].cmd.rideId == txs[b].cmd.rideId
      && !txs[a].cmd.decision.Continue? && !txs[b].cmd.decision.Continue?
      && txs[a].cmd.token.key !in s.db.keys && txs[b].cmd.token.key !in s.db.keys
    ensures Play(s, events).txs[a].cmd.token.key == Play(s, events).txs[b].cmd.token.key
  {
    hide Play, TxOk, DbOk, SystemOk;
    LogIsOk(s, events);
    var u := Play(s, events);
    var i := SuccessHasEntry(s, events, a);
    var j := SuccessHasEntry(s, events, b);
    assert EntryOk(u.db, u.log[i]) && EntryOk(u.db, u.log[j]);
    OrderedEntriesApart(u, i, j);
  }

  // ---------- settlements ----------

  /** The rides a settlement saw, as it stands: all still locked on the match outside,
      and those it has passed settled by the winner of its score. */
  predicate SettlesWhatItSaw(t: Tables, tx: Tx)
    requires tx.cmd.ResolveMatch? && tx.pc.Settling? && tx.cmd.matchId in tx.w.matches
        && MatchRowOk(tx.w.matches[tx.cmd.matchId])
  {
    forall id | id in tx.pc.seen ::
      && id in t.rides && Statements.OnMatch(t.rides[id], tx.cmd.matchId)
      && (id in tx.pc.todo
          || (&& id in tx.w.rides
              && tx.w.rides[id] == t.rides[id].(
                   state := if Facts.Winner(tx.w.matches[tx.cmd.matchId]) == Some(t.rides[id].teamId) then WonPending
                       else Lost,
                   version := t.rides[id].version + 1)))
  }

  /** In every interleaving a resolution settles every ride its statement saw, and no
      other transaction takes one of them away before it commits. */
  lemma SettlementMissesNoneItSaw(s: System, events: seq<Event>, a: int)
    requires Initial(s) && DbOk(s.db)
    requires a in Play(s, events).txs && Play(s, events).txs[a].cmd.ResolveMatch? && Play(s, events).txs[a].pc.Settling?
    ensures var u, tx := Play(s, events), Play(s, events).txs[a];
      && tx.cmd.matchId in tx.w.matches && MatchRowOk(tx.w.matches[tx.cmd.matchId])
      && SettlesWhatItSaw(u.db, tx)
  {
    ScheduleIsOk(s, events);
    SettlingTxKnows(Play(s, events).db, Play(s, events).txs[a]);
  }

  lemma SettlingTxKnows(t: Tables, tx: Tx)
    requires TxOk(t, tx) && tx.cmd.ResolveMatch? && tx.pc.Settling?
    ensures tx.cmd.matchId in tx.w.matches && MatchRowOk(tx.w.matches[tx.cmd.matchId]) && SettlesWhatItSaw(t, tx)
  {
    assert ScoreWritten(t, tx) && SeenAreHeld(t, tx, tx.pc.seen, tx.pc.todo);
    forall id | id in tx.pc.seen && id in tx.w.rides
      ensures SettledState(tx.w.matches[tx.cmd.matchId], t.rides[id].teamId)
           == (if Facts.Winner(tx.w.matches[tx.cmd.matchId]) == Some(t.rides[id].teamId) then WonPending else Lost)
    {
      Facts.ThreeWinnersAgree(tx.w.matches[tx.cmd.matchId], t.rides[id].teamId);
    }
  }

  // ---------- the losers ----------

  predicate ReadStale(t: Tables, tx: Tx, ride: Ride)
    requires tx.cmd.DecideRide?
  {
    tx.cmd.rideId in t.rides && ride.version < t.rides[tx.cmd.rideId].version
  }

  /** A decision that read a ride version that is gone, or was already refused. */
  predicate Beaten(t: Tables, tx: Tx) {
    && tx.cmd.DecideRide?
    && match tx.pc
       case RideRead(ride) => ReadStale(t, tx, ride)
       case PhaseRead(ride, _, _) => ReadStale(t, tx, ride)
       case Decided(ride, next, _, _) => ReadStale(t, tx, next)
       case Updating(ride, next, _, _, _) => ReadStale(t, tx, next)
       case Done(answer) => answer.Err?
       case _ => false
  }

  lemma BeatenMoveStaysBeaten(t: Tables, clock: int, tx: Tx, pick: int)
    requires Beaten(t, tx)
    ensures var move := Plan(t, clock, tx, pick);
      !move.Commit? && (move.Go? ==> Beaten(t, move.tx) && move.tx.cmd == tx.cmd)
  {
  }

  lemma StaleStays(t: Tables, u: Tables, tx: Tx)
    requires Grows(t, u) && Beaten(t, tx)
    ensures Beaten(u, tx)
  {
  }

  lemma RefusedIsBeaten(t: Tables, tx: Tx, e: Error)
    requires tx.cmd.DecideRide?
    ensures Beaten(t, Refuse(tx, e))
  {
  }

  lemma BeatenDecides(t: Tables, tx: Tx)
    requires Beaten(t, tx)
    ensures tx.cmd.DecideRide?
  {
  }

  lemma BeatenNextStaysBeaten(s: System, event: Event, a: int)
    requires SystemOk(s) && a in s.txs && Beaten(s.db, s.txs[a])
    ensures a in Next(s, event).txs && Beaten(Next(s, event).db, Next(s, event).txs[a])
  {
    hide Plan, DbOk, TxOk, Beaten, Grows;
    var tx := s.txs[a];
    BeatenDecides(s.db, tx);
    NextGrows(s, event);
    if event.Advance? && event.tid == a {
      BeatenMoveStaysBeaten(s.db, s.clock, tx, event.pick);
    } else if event.Cancel? && event.tid == a {
      RefusedIsBeaten(s.db, tx, Aborted);
    } else {
      StaleStays(s.db, Next(s, event).db, tx);
    }
  }

  lemma {:induction false} BeatenStaysBeaten(s: System, events: seq<Event>, a: int)
    requires SystemOk(s) && a in s.txs && Beaten(s.db, s.txs[a])
    ensures a in Play(s, events).txs && Beaten(Play(s, events).db, Play(s, events).txs[a])
    decreases |events|
  {
    if events != [] {
      BeatenStaysBeaten(s, events[..|events| - 1], a);
      ScheduleIsOk(s, events[..|events| - 1]);
      BeatenNextStaysBeaten(Play(s, events[..|events| - 1]), events[|events| - 1], a);
    }
  }

  /** A decision whose ride moved on after it was read never executes in any
      continuation: it holds no write, it is never logged, and when it finishes it
      was refused with its claim rolled back. */
  lemma LosersAreRefused(s: System, events: seq<Event>, more: seq<Event>, a: int)
    requires Initial(s) && DbOk(s.db)
    requires a in Play(s, events).txs && Beaten(Play(s, events).db, Play(s, events).txs[a])
    ensures var u := Play(s, events + more);
      && a in u.txs
      && u.txs[a].w.rides == map[]
      && (u.txs[a].pc.Done? ==> u.txs[a].pc.answer.Err? && u.txs[a].w == NOTHING && u.txs[a].locks == {})
      && (forall i | 0 <= i < |u.log| :: u.log[i].tid != a)
  {
    PlayAppends(s, events, more);
    LogIsOk(s, events);
    LogIsOk(s, events + more);
    BeatenStaysBeaten(Play(s, events), more, a);
    var u := Play(s, events + more);
    assert TxOk(u.db, u.txs[a]);
    forall i | 0 <= i < |u.log| ensures u.log[i].tid != a {
      assert EntryOk(u.db, u.log[i]);
    }
  }
}
