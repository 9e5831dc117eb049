/** Status ranks, the validator's error map, and the update validators. */
module Lifecycle {
  import opened Model

  function SeasonRank(status: SeasonStatus): int {
    match status
    case SeasonCreated => 0
    case SeasonOpen => 1
    case SeasonInProgress => 2
    case SeasonClosed => 3
  }

  function RoundRank(status: RoundStatus): int {
    match status
    case RoundCreated => 0
    case RoundOpen => 1
    case RoundClosed => 2
  }

  function MatchRank(status: MatchStatus): int {
    match status
    case MatchCreated => 0
    case MatchPostponed => 0
    case MatchInProgress => 1
    case MatchClosed => 2
  }

  /** What a round update must satisfy to pass its validator. */
  predicate RoundUpdateValid(before: Round, after: Round) {
    && after.seasonId > 0
    && 1 <= after.number <= ROUNDS_PER_SEASON
    && RoundRank(before.status) <= RoundRank(after.status)
  }

  predicate SeasonUpdateValid(before: Season, after: Season) {
    SeasonRank(before.status) <= SeasonRank(after.status)
  }

  /** Go's zero time, the first second of year 1: a request that gives no start. */
  const ZERO_TIME: int := -62135596800

  predicate IdsValid(m: Match) {
    m.roundId > 0 && m.seasonId > 0 && m.homeTeamId > 0 && m.awayTeamId > 0 && m.homeTeamId != m.awayTeamId
  }

  predicate EndValid(m: Match) {
    && (m.status.MatchClosed? ==> m.endedAt.Some?)
    && (m.endedAt.Some? ==> m.startsAt < m.endedAt.value)
  }

  predicate ScoreValid(m: Match) {
    && (m.homeScore.None? <==> m.awayScore.None?)
    && (m.homeScore.Some? && m.awayScore.Some? ==> m.homeScore.value >= 0 && m.awayScore.value >= 0)
    && (m.homeScore.Some? <==> (m.status.MatchInProgress? || m.status.MatchClosed?))
  }

  predicate MatchShapeValid(m: Match) {
    IdsValid(m) && m.startsAt != ZERO_TIME && EndValid(m) && ScoreValid(m) && m.homeOdds > 1.0 && m.awayOdds > 1.0
  }

  predicate MatchUpdateValid(before: Match, after: Match) {
    && MatchShapeValid(after)
    && (before.status.MatchClosed? ==> after.status.MatchClosed?)
    && MatchRank(before.status) <= MatchRank(after.status)
  }

  /** What a resolution request must carry: an id, an end in the past and both scores. */
  predicate ResolveValid(matchId: int, home: Option<int>, away: Option<int>, endedAt: Option<int>, now: int) {
    && endedAt.Some? && endedAt.value < now
    && matchId > 0
    && home.Some? && away.Some? && home.value >= 0 && away.value >= 0
  }

  /** The validator: an error map that keeps the first message of each key. */
  class Validator {
    var errors: map<string, string>

    constructor ()
      ensures errors == map[]
    {
      errors := map[];
    }

    predicate Valid()
      reads this
    {
      errors == map[]
    }

    method AddError(key: string, message: string)
      modifies this
      ensures errors == if key in old(errors) then old(errors) else old(errors)[key := message]
      ensures !Valid()
    {
      if key !in errors {
        errors := errors[key := message];
      }
      assert key in errors;
    }

    method Check(ok: bool, key: string, message: string)
      modifies this
      ensures Valid() <==> old(Valid()) && ok
      ensures ok ==> errors == old(errors)
    {
      if !ok {
        AddError(key, message);
      }
    }
  }

  /** Records a refusal when the new rank sits earlier than the stored one. */
  method CheckStatusRegression(v: Validator, oldRank: int, newRank: int)
    modifies v
    ensures v.Valid() <==> old(v.Valid()) && oldRank <= newRank
  {
    v.Check(oldRank <= newRank, "status", "cannot move to an earlier stage of the lifecycle");
  }

  method ValidateRoundUpdate(v: Validator, before: Round, after: Round)
    modifies v
    ensures v.Valid() <==> old(v.Valid()) && RoundUpdateValid(before, after)
  {
    v.Check(after.seasonId > 0, "season_id", "must be provided");
    v.Check(1 <= after.number <= ROUNDS_PER_SEASON, "number", "must be between 1 and 38");
    CheckStatusRegression(v, RoundRank(before.status), RoundRank(after.status));
  }

  method ValidateSeasonUpdate(v: Validator, before: Season, after: Season)
    modifies v
    ensures v.Valid() <==> old(v.Valid()) && SeasonUpdateValid(before, after)
  {
    CheckStatusRegression(v, SeasonRank(before.status), SeasonRank(after.status));
  }

  /** The status/score matrix: both scores or neither, and only once in play. */
  method ValidateScores(v: Validator, m: Match)
    modifies v
    ensures v.Valid() <==> old(v.Valid()) && ScoreValid(m)
  {
    var bothNil := m.homeScore.None? && m.awayScore.None?;
    var bothSet := m.homeScore.Some? && m.awayScore.Some?;
    v.Check(bothNil || bothSet, "score", "must contain both home and away values or neither");
    v.Check(!bothSet || (m.homeScore.value >= 0 && m.awayScore.value >= 0), "score", "must not be negative");
    if m.status.MatchInProgress? || m.status.MatchClosed? {
      v.Check(m.homeScore.Some?, "score", "must be provided when the match is in progress or closed");
    } else {
      v.Check(m.homeScore.None?, "score", "must not be set before the match is in progress or closed");
    }
  }

  /** The shared shape checks: every refused field is recorded, none stops the rest. */
  method ValidateMatchShape(v: Validator, m: Match)
    modifies v
    ensures v.Valid() <==> old(v.Valid()) && MatchShapeValid(m)
  {
    v.Check(m.roundId > 0, "round_id", "must be provided");
    v.Check(m.seasonId > 0, "season_id", "must be provided");
    v.Check(m.homeTeamId > 0, "home_team_id", "must be provided");
    v.Check(m.awayTeamId > 0, "away_team_id", "must be provided");
    v.Check(m.homeTeamId != m.awayTeamId, "home_team_id", "home and away team cannot be the same");
    assert v.Valid() <==> old(v.Valid()) && IdsValid(m);
    v.Check(m.startsAt != ZERO_TIME, "starts_at", "must be provided");
    v.Check(!m.status.MatchClosed? || m.endedAt.Some?, "ended_at", "must be provided for the closed match");
    v.Check(m.endedAt.None? || m.startsAt < m.endedAt.value, "ended_at", "must be after the match started");
    ValidateScores(v, m);
    v.Check(m.homeOdds > 1.0 && m.awayOdds > 1.0, "odds", "must both be greater than one");
  }

  method ValidateMatchUpdate(v: Validator, before: Match, after: Match)
    modifies v
    ensures v.Valid() <==> old(v.Valid()) && MatchUpdateValid(before, after)
  {
    ValidateMatchShape(v, after);
    v.Check(!before.status.MatchClosed? || after.status.MatchClosed?, "status",
        "cannot be changed after the match is closed");
    CheckStatusRegression(v, MatchRank(before.status), MatchRank(after.status));
  }

  method ValidateResolveMatch(v: Validator, matchId: int, home: Option<int>, away: Option<int>, endedAt: Option<int>,
      now: int)
    modifies v
    ensures v.Valid() <==> old(v.Valid()) && ResolveValid(matchId, home, away, endedAt, now)
  {
    v.Check(endedAt.Some?, "ended_at", "must be provided");
    if endedAt.Some? {
      v.Check(endedAt.value < now, "ended_at", "must be in the past");
    }
    v.Check(matchId > 0, "id", "must be provided");
    v.Check(home.Some? && away.Some?, "score", "must contain both home and away values");
    if home.Some? && away.Some? {
      v.Check(home.value >= 0 && away.value >= 0, "score", "must not be negative");
    }
  }
}
