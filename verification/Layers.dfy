/** The two layers meet: whatever state a run of whole commands reaches, schedules of
    interleaved transactions may start from it. */
module Layers {
  import opened Model
  import opened Reachable
  import Runs
  import opened Sequence
  import opened Interleaving
  import opened Safety
  import opened Stability
  import opened Steps
  import opened RoundOrder

  /** What every command keeps is all the interleaving theorems ask of the tables. */
  lemma SteadyIsOk(t: Tables, now: int)
    requires Steady(t, now)
    ensures DbOk(t)
  {
  }

  /** From every state a run of commands reaches, every schedule keeps the invariant of
      the statement layer and its consequences for closed rounds, and every schedule that
      frees no awaited number the order of rounds. */
  lemma ReachableSchedulesAreOk(t: Tables, actions: seq<Action>, s: System, events: seq<Event>)
    requires Fresh(t) && InOrder(actions)
    requires Initial(s) && s.db == Exec(t, actions) && forall i | 0 <= i < |actions| :: actions[i].now <= s.clock
    ensures Inv(s.db, s.clock) && DbOk(s.db) && InSequence(s.db.rounds)
    ensures SystemOk(Play(s, events)) && ClosedIsSettled(Play(s, events).db)
    ensures Follows(s, events, KeepsAwaited()) ==> InSequence(Play(s, events).db.rounds)
  {
    Runs.ReachableStatesKeep(t, actions, s.clock);
    SteadyIsOk(s.db, s.clock);
    RunsKeepSequence(t, actions);
    ScheduleIsOk(s, events);
    if Follows(s, events, KeepsAwaited()) {
      ReachedInOrder(s, events);
    }
  }
}
