/** The gameplay phase, derived from the clock and the phase window. */
module Phases {
  import opened Model

  const ACTION_PHASE_LEAD: int := 3600    // action ends one hour before the first start
  const DECISION_PHASE_LAG: int := 3600   // decision begins one hour after the last end

  function Phase(now: int, firstStartsAt: Option<int>, lastEndedAt: Option<int>): RoundPhase {
    if firstStartsAt.None? || now < firstStartsAt.value - ACTION_PHASE_LEAD then ActionPhase
    else if lastEndedAt.None? || now < lastEndedAt.value + DECISION_PHASE_LAG then MatchPhase
    else DecisionPhase
  }

  /** The phase the service derives for one match: its own window. */
  function PhaseOf(now: int, m: Match): RoundPhase {
    Phase(now, Some(m.startsAt), m.endedAt)
  }

  /** A match moved on without its start being edited: its end, once recorded, stays. */
  predicate MovesOn(before: Match, after: Match) {
    && after.startsAt == before.startsAt
    && (before.endedAt.Some? ==> after.endedAt == before.endedAt)
  }

  /** The order is action, match, decision. */
  lemma PhaseNeverMovesBack(now: int, before: Match, later: int, after: Match)
    requires now <= later && MovesOn(before, after)
    ensures PhaseOf(later, after) == ActionPhase ==> PhaseOf(now, before) == ActionPhase
    ensures PhaseOf(now, before) == DecisionPhase ==> PhaseOf(later, after) == DecisionPhase
  {
  }

  /** A match that ended after it started is past its action phase for good. */
  lemma EndedMatchIsPastAction(now: int, m: Match)
    requires m.endedAt.Some? && m.startsAt < m.endedAt.value <= now
    ensures PhaseOf(now, m) != ActionPhase
  {
  }
}
