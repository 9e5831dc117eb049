/** How one committed row may change, in a command run alone or interleaved. */
module Changes {
  import opened Model
  import opened Lifecycle
  import opened Gates

  predicate SameStake(before: Ride, after: Ride) {
    && after.playerId == before.playerId
    && after.teamId == before.teamId
    && after.tokensLocked == before.tokensLocked
    && after.baseAtLock == before.baseAtLock
  }

  /** One committed write to a ride: an edge, the next version, the same stake, and a
      bonus that is kept or forfeited: no service path accrues one. */
  predicate RideStep(before: Ride, after: Ride) {
    && SameStake(before, after)
    && after.version == before.version + 1
    && StateEdge(before.state, after.state)
    && NoAccOnForfeit(after)
    && (after.acc == before.acc || after.acc == 0.0)
    && after.streak == before.streak + (if after.state == Locked then 1 else 0)
    && (after.state != Locked ==> after.matchId == before.matchId)
  }

  predicate Newborn(ride: Ride) {
    ride.state == Locked && ride.acc == 0.0 && ride.streak == 0 && ride.version == 1
  }

  /** A match keeps its place; once ended it stays ended at the recorded time. */
  predicate MatchKeeps(before: Match, after: Match) {
    && after.roundId == before.roundId
    && after.seasonId == before.seasonId
    && (before.status == MatchClosed ==> after.status == MatchClosed)
    && (before.endedAt.Some? ==> after.endedAt == before.endedAt)
    && MatchRank(before.status) <= MatchRank(after.status)
  }

  predicate RoundKeeps(before: Round, after: Round) {
    after.seasonId == before.seasonId && RoundRank(before.status) <= RoundRank(after.status)
  }
}
