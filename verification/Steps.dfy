/** Schedules that follow a rule, built one step at a time. */
module Steps {
  import opened Collections
  import opened Model
  import opened Commands
  import opened Interleaving
  import opened Safety
  import opened Stability

  /** Which events may come next in a system. */
  type Rule = (System, Event) -> bool

  ghost predicate Follows(s: System, events: seq<Event>, rule: Rule) {
    forall k | 0 <= k < |events| :: rule(Play(s, events[..k]), events[k])
  }

  ghost predicate Reaches(s: System, u: System, rule: Rule) {
    exists events :: Follows(s, events, rule) && Play(s, events) == u
  }

  lemma FollowsOn(s: System, events: seq<Event>, event: Event, rule: Rule)
    ensures Follows(s, events + [event], rule) <==> Follows(s, events, rule) && rule(Play(s, events), event)
    ensures Play(s, events + [event]) == Next(Play(s, events), event)
  {
    var longer := events + [event];
    assert longer[..|events|] == events;
    forall k | 0 <= k < |events| ensures longer[..k] == events[..k] && longer[k] == events[k] {
    }
    if Follows(s, longer, rule) {
      assert rule(Play(s, longer[..|events|]), longer[|events|]);
      forall k | 0 <= k < |events| ensures rule(Play(s, events[..k]), events[k]) {
        assert rule(Play(s, longer[..k]), longer[k]);
      }
    }
  }

  /** The last step of a schedule, and the schedule before it. */
  lemma FollowsBefore(s: System, events: seq<Event>, rule: Rule)
    requires Follows(s, events, rule) && events != []
    ensures Follows(s, events[..|events| - 1], rule)
    ensures rule(Play(s, events[..|events| - 1]), events[|events| - 1])
  {
    var last := |events| - 1;
    assert events[..last] + [events[last]] == events;
    FollowsOn(s, events[..last], events[last], rule);
  }

  lemma {:induction false} PlayAppends(s: System, events: seq<Event>, more: seq<Event>)
    ensures Play(s, events + more) == Play(Play(s, events), more)
    decreases |more|
  {
    if more == [] {
      assert events + more == events;
    } else {
      PlayAppends(s, events, more[..|more| - 1]);
      assert (events + more)[..|events + more| - 1] == events + more[..|more| - 1];
    }
  }

  lemma ReachesItself(s: System, rule: Rule)
    ensures Reaches(s, s, rule)
  {
    assert Follows(s, [], rule) && Play(s, []) == s;
  }

  lemma ReachesNext(s: System, u: System, event: Event, rule: Rule)
    requires Reaches(s, u, rule) && rule(u, event)
    ensures Reaches(s, Next(u, event), rule)
  {
    var events :| Follows(s, events, rule) && Play(s, events) == u;
    FollowsOn(s, events, event, rule);
  }

  lemma ReachedIsOk(s: System, u: System, rule: Rule)
    requires SystemOk(s) && Reaches(s, u, rule)
    ensures SystemOk(u)
  {
    var events :| Follows(s, events, rule) && Play(s, events) == u;
    ScheduleIsOk(s, events);
  }

  function With(s: System, tid: int, tx: Tx): System {
    s.(txs := s.txs[tid := tx])
  }

  lemma Takes(s: System, u: System, rule: Rule, tid: int, tx: Tx, pick: int, need: set<Lock>, next: Tx)
    requires Reaches(s, With(u, tid, tx), rule) && rule(With(u, tid, tx), Advance(tid, pick))
    requires Plan(u.db, u.clock, tx, pick) == Go(need, next) && MayTake(u, tid, need)
    ensures Reaches(s, With(u, tid, next), rule)
  {
    hide Plan, Reaches;
    ReachesNext(s, With(u, tid, tx), Advance(tid, pick), rule);
    assert MayTake(With(u, tid, tx), tid, need);
    assert With(With(u, tid, tx), tid, next) == With(u, tid, next);
  }

  function Committed(u: System, tid: int, tx: Tx, answer: Result<Reply>): System {
    With(u, tid, Finished(tx, answer)).(db := Overlay(u.db, tx.w), log := u.log + [EntryOf(tid, tx, answer)])
  }

  lemma Commits(s: System, u: System, rule: Rule, tid: int, tx: Tx, answer: Result<Reply>)
    requires Reaches(s, With(u, tid, tx), rule) && rule(With(u, tid, tx), Advance(tid, 0))
    requires Plan(u.db, u.clock, tx, 0) == Commit(answer)
    ensures Reaches(s, Committed(u, tid, tx, answer), rule)
  {
    hide Plan, Overlay, Reaches;
    ReachesNext(s, With(u, tid, tx), Advance(tid, 0), rule);
    assert With(With(u, tid, tx), tid, Finished(tx, answer)) == With(u, tid, Finished(tx, answer));
  }

  // ---------- everyone else gives up ----------

  lemma DoneHoldsNothing(s: System)
    requires SystemOk(s)
    ensures forall a | a in s.txs && s.txs[a].pc.Done? :: s.txs[a].locks == {}
  {
    forall a | a in s.txs && s.txs[a].pc.Done? ensures s.txs[a].locks == {} {
      assert TxOk(s.db, s.txs[a]);
    }
  }

  ghost predicate Alone(s: System, tid: int) {
    forall a | a in s.txs && a != tid :: s.txs[a].pc.Done? && s.txs[a].locks == {}
  }

  lemma AloneMayTake(s: System, tid: int, need: set<Lock>)
    requires Alone(s, tid)
    ensures MayTake(s, tid, need)
  {
  }

  ghost predicate AllowsCancels(rule: Rule) {
    forall s, a :: rule(s, Cancel(a))
  }

  /** All other transactions are cancelled: what the one holds and the tables stay. */
  lemma OthersGiveUp(s: System, u: System, rule: Rule, tid: int, left: set<int>) returns (v: System)
    requires Reaches(s, u, rule) && AllowsCancels(rule) && tid in u.txs && tid !in left
    requires forall a | a in u.txs && a != tid && a !in left :: u.txs[a].pc.Done? && u.txs[a].locks == {}
    requires forall a | a in u.txs :: u.txs[a].pc.Done? ==> u.txs[a].locks == {}
    ensures Reaches(s, v, rule) && v == u.(txs := v.txs) && Alone(v, tid) && tid in v.txs && v.txs[tid] == u.txs[tid]
    decreases |left|
  {
    if left == {} {
      v := u;
    } else {
      var a := Pick(left);
      ReachesNext(s, u, Cancel(a), rule);
      v := OthersGiveUp(s, Next(u, Cancel(a)), rule, tid, left - {a});
    }
  }
}
