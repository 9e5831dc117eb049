/** The ride commands of the domain: value versions, the entity whose fields
    they assign, and their agreement with the database gate. */
module Rides {
  import opened Model
  import opened Gates

  /** The transitions table: from a state, in a phase, to which states. */
  function Transitions(state: RideState, phase: RoundPhase): set<RideState> {
    match (state, phase)
    case (Locked, MatchPhase) => {WonPending, Lost}
    case (WonPending, DecisionPhase) => {Locked, Burned, Unlocked}
    case _ => {}
  }

  predicate CanTransition(state: RideState, phase: RoundPhase, next: RideState) {
    next in Transitions(state, phase)
  }

  const STREAK_RATE: real := 0.20

  function CalculateBonus(odds: real, tokens: int, acc: real, streak: int): real {
    acc + tokens as real * ((odds - 1.0) * (streak as real * STREAK_RATE + 1.0))
  }

  function CreateOf(ride: Ride, phase: RoundPhase): Result<Ride> {
    if phase != ActionPhase then Err(InvalidRoundPhase)
    else Ok(ride.(state := Locked, acc := 0.0, streak := 0))
  }

  function WonPendingOf(ride: Ride, phase: RoundPhase, odds: real): Result<Ride> {
    if phase != MatchPhase then Err(InvalidRoundPhase)
    else if !CanTransition(ride.state, phase, WonPending) then Err(InvalidTransition)
    else Ok(ride.(state := WonPending, acc := CalculateBonus(odds, ride.tokensLocked, ride.acc, ride.streak)))
  }

  function LostOf(ride: Ride, phase: RoundPhase): Result<Ride> {
    if phase != MatchPhase then Err(InvalidRoundPhase)
    else if !CanTransition(ride.state, phase, Lost) then Err(InvalidTransition)
    else Ok(ride.(state := Lost, acc := 0.0))
  }

  function LockOf(ride: Ride, phase: RoundPhase, nextMatchId: int): Result<Ride> {
    if phase != DecisionPhase then Err(InvalidRoundPhase)
    else if !CanTransition(ride.state, phase, Locked) then Err(InvalidTransition)
    else Ok(ride.(state := Locked, matchId := nextMatchId, streak := ride.streak + 1))
  }

  function BurnOf(ride: Ride, phase: RoundPhase): Result<Ride> {
    if phase != DecisionPhase then Err(InvalidRoundPhase)
    else if !CanTransition(ride.state, phase, Burned) then Err(InvalidTransition)
    else Ok(ride.(state := Burned))
  }

  function UnlockOf(ride: Ride, phase: RoundPhase): Result<Ride> {
    if phase != DecisionPhase then Err(InvalidRoundPhase)
    else if !CanTransition(ride.state, phase, Unlocked) then Err(InvalidTransition)
    else Ok(ride.(state := Unlocked, acc := 0.0))
  }

  /** A ride in memory: the struct the commands assign to, one field at a time. */
  class RideEntity {
    const playerId: int
    const teamId: int
    const tokensLocked: int
    const baseAtLock: real
    const version: int
    var matchId: int
    var state: RideState
    var acc: real
    var streak: int

    constructor (row: Ride)
      ensures Row() == row
    {
      playerId, teamId, tokensLocked, baseAtLock, version :=
        row.playerId, row.teamId, row.tokensLocked, row.baseAtLock, row.version;
      matchId, state, acc, streak := row.matchId, row.state, row.acc, row.streak;
    }

    function Row(): Ride
      reads this
    {
      Ride(playerId, teamId, matchId, state, tokensLocked, baseAtLock, acc, streak, version)
    }

    /** A refused command leaves the ride as it was. */
    predicate Did(before: Ride, outcome: Result<Ride>, err: Option<Error>)
      reads this
    {
      match outcome
      case Ok(row) => err == None && Row() == row
      case Err(e) => err == Some(e) && Row() == before
    }

    method Create(phase: RoundPhase) returns (err: Option<Error>)
      modifies this
      ensures Did(old(Row()), CreateOf(old(Row()), phase), err)
    {
      if phase != ActionPhase {
        return Some(InvalidRoundPhase);
      }
      state := Locked;
      acc := 0.0;
      streak := 0;
      return None;
    }

    method WonPending(phase: RoundPhase, odds: real) returns (err: Option<Error>)
      modifies this
      ensures Did(old(Row()), WonPendingOf(old(Row()), phase, odds), err)
    {
      if phase != MatchPhase {
        return Some(InvalidRoundPhase);
      }
      if !CanTransition(state, phase, RideState.WonPending) {
        return Some(InvalidTransition);
      }
      state := RideState.WonPending;
      acc := CalculateBonus(odds, tokensLocked, acc, streak);
      return None;
    }

    method Lost(phase: RoundPhase) returns (err: Option<Error>)
      modifies this
      ensures Did(old(Row()), LostOf(old(Row()), phase), err)
    {
      if phase != MatchPhase {
        return Some(InvalidRoundPhase);
      }
      if !CanTransition(state, phase, RideState.Lost) {
        return Some(InvalidTransition);
      }
      state := RideState.Lost;
      acc := 0.0;
      return None;
    }

    method Lock(phase: RoundPhase, nextMatchId: int) returns (err: Option<Error>)
      modifies this
      ensures Did(old(Row()), LockOf(old(Row()), phase, nextMatchId), err)
    {
      if phase != DecisionPhase {
        return Some(InvalidRoundPhase);
      }
      if !CanTransition(state, phase, Locked) {
        return Some(InvalidTransition);
      }
      state := Locked;
      matchId := nextMatchId;
      streak := streak + 1;
      return None;
    }

    method Burn(phase: RoundPhase) returns (err: Option<Error>)
      modifies this
      ensures Did(old(Row()), BurnOf(old(Row()), phase), err)
    {
      if phase != DecisionPhase {
        return Some(InvalidRoundPhase);
      }
      if !CanTransition(state, phase, Burned) {
        return Some(InvalidTransition);
      }
      state := Burned;
      return None;
    }

    method Unlock(phase: RoundPhase) returns (err: Option<Error>)
      modifies this
      ensures Did(old(Row()), UnlockOf(old(Row()), phase), err)
    {
      if phase != DecisionPhase {
        return Some(InvalidRoundPhase);
      }
      if !CanTransition(state, phase, Unlocked) {
        return Some(InvalidTransition);
      }
      state := Unlocked;
      acc := 0.0;
      return None;
    }
  }

  // ---------- the domain commands and the database gate agree ----------

  /** One call on a ride that already exists. */
  datatype Call =
    | CallWonPending(odds: real)
    | CallLost
    | CallLock(nextMatchId: int)
    | CallBurn
    | CallUnlock

  function Apply(ride: Ride, phase: RoundPhase, call: Call): Result<Ride> {
    match call
    case CallWonPending(odds) => WonPendingOf(ride, phase, odds)
    case CallLost => LostOf(ride, phase)
    case CallLock(next) => LockOf(ride, phase, next)
    case CallBurn => BurnOf(ride, phase)
    case CallUnlock => UnlockOf(ride, phase)
  }

  /** The row versions a run of calls goes through; a refused call adds none. */
  function History(ride: Ride, calls: seq<(RoundPhase, Call)>): (rows: seq<Ride>)
    ensures |rows| > 0 && rows[0] == ride
    decreases |calls|
  {
    if calls == [] then [ride]
    else
      match Apply(ride, calls[0].0, calls[0].1)
      case Ok(next) => [ride] + History(next, calls[1..])
      case Err(_) => History(ride, calls[1..])
  }

  ghost predicate Gated(rows: seq<Ride>) {
    forall i, j | 0 <= i < j < |rows| && j == i + 1 :: RideRowChange(rows[i], rows[j])
  }

  /** Every run that starts with Create is accepted by the insert gate and then,
      row change by row change, by checks 1 to 4 of the state gate. */
  lemma RunsRefineTheGate(input: Ride, phase: RoundPhase, calls: seq<(RoundPhase, Call)>)
    requires CreateOf(input, phase).Ok?
    ensures var rows := History(CreateOf(input, phase).value, calls);
      RideInsertAllowed(rows[0]) && Gated(rows)
  {
    HistoryIsGated(CreateOf(input, phase).value, calls);
  }

  lemma {:induction false} HistoryIsGated(ride: Ride, calls: seq<(RoundPhase, Call)>)
    ensures Gated(History(ride, calls))
    decreases |calls|
  {
    if calls != [] {
      match Apply(ride, calls[0].0, calls[0].1)
      case Ok(next) =>
        HistoryIsGated(next, calls[1..]);
        assert RideRowChange(ride, next);
      case Err(_) =>
        HistoryIsGated(ride, calls[1..]);
    }
  }

  /** The gate's from-state graph is exactly the transitions table without its phases. */
  lemma GateGraphIsTheTable(from: RideState, to: RideState)
    ensures StateEdge(from, to) <==> exists phase :: CanTransition(from, phase, to)
  {
    if StateEdge(from, to) {
      assert CanTransition(from, if from == Locked then MatchPhase else DecisionPhase, to);
    }
  }

  /** What the gate accepts as a state change is a move of some command: every
      accepted change of state is one the table allows, in exactly one phase. */
  lemma AcceptedChangeIsACommand(before: Ride, after: Ride)
    requires RideRowChange(before, after) && before.state != after.state
    ensures exists phase :: CanTransition(before.state, phase, after.state)
    ensures forall p, q |
      CanTransition(before.state, p, after.state) && CanTransition(before.state, q, after.state) :: p == q
  {
    GateGraphIsTheTable(before.state, after.state);
  }

  /** The gate's row checks are the domain commands and nothing more: besides a row that
      keeps state and match, they accept exactly the state and match some command can
      leave the ride with, in some phase; and a forfeit leaves no bonus. */
  lemma GateIsTheCommands(before: Ride, after: Ride)
    ensures RideRowChange(before, after) <==>
      && (after.state == Unlocked || after.state == Lost ==> after.acc == 0.0)
      && ((after.state == before.state && after.matchId == before.matchId)
          || exists phase, call :: LeadsTo(before, phase, call, after))
  {
    if RideRowChange(before, after) && after.state != before.state {
      var phase := if before.state == Locked then MatchPhase else DecisionPhase;
      var call := match after.state
        case Locked => CallLock(after.matchId)
        case WonPending => CallWonPending(2.0)
        case Burned => CallBurn
        case Unlocked => CallUnlock
        case Lost => CallLost;
      assert LeadsTo(before, phase, call, after);
    }
  }

  predicate LeadsTo(before: Ride, phase: RoundPhase, call: Call, after: Ride) {
    && Apply(before, phase, call).Ok?
    && Apply(before, phase, call).value.state == after.state
    && Apply(before, phase, call).value.matchId == after.matchId
  }
}
