# Ride settlement: a verified model

Rides are token stakes on matches; matches belong to rounds, rounds to seasons. Players create a ride and,
after a win, continue, burn or unlock it. Admins resolve matches and open, close or edit rounds, matches and
seasons. Every command is a short PostgreSQL transaction: reads outside the transaction, one guarded write
that re-checks the contended facts, trigger gates, and for ride commands an idempotency row that commits with
the answer it stores.

The project models this protocol twice over the same tables (seasons, rounds, matches, rides, keys) and
relates the two:

* **The command layer.** `Services.Service` and `Services.Tx` are the service, the stores and the handlers as
  imperative code with rollback and loops for the set-based updates. Each method is proved equal to the
  function `Commands.Run`. `Rules` says in literal seconds, statuses and fields, without a gate, statement or validator
  of the model, what each command must answer and write; `Facts` and `Patches` prove that `Run` does exactly that, every
  refusal included. `Reachable`, `Runs`, `Sequence` and `SeasonLaw` prove what every run keeps.
* **The statement layer.** `Interleaving` takes the same commands apart into transactions with program counters,
  uncommitted writes and locks under READ COMMITTED. A schedule is any sequence of clock ticks, beginnings,
  steps and cancellations. `Safety`, `Stability`, `Histories` and `LostUpdates` prove what holds over every schedule.
* **Where a promise has an exception.** Four promises hold over every schedule but for one kind of step, and each is
  proved with that step as its exact condition: no step of the kind, and the promise holds; after one, some
  continuation breaks it. They are the order of a season's rounds (`RoundOrder`, `Overtaking`), serializability
  (`SerialSteps`, `SerialCommits`, `Serializability`, `Edits`), "an open round's season is in progress" (`SeasonLaw`) and
  "a locked ride waits on a match that has not ended" (`LockedRides`, `LeftBehind`, `Timely`). For one ride command beside one resolution `Stranding` and `Race` give the
  condition on the tables before the two. `Steps` and `Courses` build the schedules.
* **Between the layers.** `Solo` shows that an undisturbed transaction is its command, and that only locks hold one up.
  `Layers` shows that the interleaving theorems start from every state a run of commands reaches; `Serializability` shows
  that schedules end where the commands run one by one end.

`Model` holds the rows, `Gates` the CHECK constraints and triggers, `Statements` the SQL statements, `Rides` the
domain commands, `Lifecycle` the validators, `Phases` and `Bonus` the clock and the money, `Changes` the ways one
committed row may change. `Schedule` and `Collections` are small helpers.

## How the database is modelled

* A statement has a start, when its snapshot is taken, and a row step. In the row step it takes the row's lock, checks
  the WHERE again on the refreshed target row while EXISTS over other tables keeps the snapshot, runs the triggers and
  constraints, and writes. Triggers read the committed tables and the transaction's own writes. An UPDATE whose WHERE
  looks at its target row only needs no snapshot step of its own.
* A round write is two steps: row lock, gates and CHECK, then the unique index, where it may wait for whoever holds the
  number's entry. The gates are not asked again after the wait.
* A step that needs a lock another transaction holds does not happen until the lock is free. `FOR SHARE OF r` is a
  share lock on the round; an insert waits on an in-flight key; a unique round number is an index entry that is locked.
* Rollback on any error, cancellation, deadlock or lost connection drops the writes and the locks.
* Time is a clock in whole seconds that never goes back; `now()` is the clock at the start of the
  transaction, which for round, match and season edits comes after the handler's read; the service's clock is read
  when the phase is. Row ids are map keys, and the identity a create draws is a parameter.
* Statuses, states and phases are datatypes, so the vocabulary checks cannot fail. Request hashes are only compared;
  a stored answer is a status and a body the presentation callback supplied.

## Where the code and its comments differ

The model follows the code.

* `PhaseForMatch` filters on one match, so the phase window is that match's own start and end, not the round's
  (internal/game/matches.go:381-391).
* Settlement never touches `bonus_acc` (internal/game/rides.go:330-342), and the two domain commands that compute or clear it at
  settlement, `WonPending` and `Lost`, are called by no service method. A bonus accrues on no path the service
  has: `Reachable.NothingAccrued` is part of the invariant. `Bonus` proves the arithmetic of the domain commands.
* The stored end of a match is the trigger's clock, not the end the caller sends
  (migrations/000005_add_matches_ended_at.up.sql:14-16); the answer to a resolution carries the caller's end and no team ids.
* A PATCH cannot close a match: the validator wants an end the request cannot carry. A closed match stays editable, so the
  agreement of rides with the score is a fact about the settling step, not about states.
* `Open` promises that opening a round starts its season (internal/game/rounds.go:180-183). It looks for an open season
  before the gates of the round run; a season that an edit opens in between stays open under an open round
  (`Edits.OpeningCanMissItsSeason`). That is the only way (`SeasonLaw.SeasonExactly`), and no run of whole commands does
  it (`SeasonLaw.RunsFollowSeasons`).
* A created round can be closed by a plain update, without the auto-resolution of `Close`; the close gate is the backstop.
* A closed round may be given the number after the greatest closed one, which opens a gap below it
  (`Sequence.GapIffClosedRenumbered`).
* The progress gate reads the greatest closed number before the new number enters the unique index. A patch that is past
  its gates is overtaken when the round closed under the number it asks for is renumbered before it gets there: it then
  commits a number below the greatest closed one, by opening or closing a round the gate would refuse. That is the only
  way the order of rounds or serializability fails (`Overtaking.OrderExactly`, `Serializability.SerialExactly`), and it
  takes three patches (`Overtaking.SequenceCanBreak`). No renumbering of closed rounds, no failure.
* Neither the guarded insert nor the continuation's guard locks the match a ride is locked on, and the insert does not
  look at it again. A continuation beside a resolution of the match it picked can therefore leave its ride locked on an
  ended match, where no settlement finds it, although both answer success and no order of whole commands does that.
  `Race.StrandsExactly` states exactly when, of the tables before the two; `LeftBehind.LeftExactly` of any number of
  commands of all kinds, by the one step that does it: a resolution commits while a ride waits on its match that its
  settlement did not see, or while a command past its last look at the match is about to lock one.
* The same holds of a creation only if its transaction stays open for more than an hour after its phase read
  (`Race.CreationStrandsWithin`; among any number of commands, of a creation in flight when the resolution commits,
  `Timely.OnlyLateCreationsAreLeft`), or if the match is given an earlier start beside the two. The handlers give every request three seconds (internal/constants/consts.go:8), so of these commands
  the continuation is the one to look at; it needs no time at all (`Race.ContinuationStrandsAtOnce`).

## Model

| member | source | states |
|---|---|---|
| Services.Service.RideCreate | internal/game/service.go:70-112 | creating a ride as a transaction leaves exactly the tables and the answer of the create command, and none of its writes when any step fails |
| Services.Service.RideLock | internal/game/service.go:128-187 | continuing a ride does what the continuation command does, all or nothing |
| Services.Service.RideBurn | internal/game/service.go:193-240 | burning does what the burn command does, all or nothing |
| Services.Service.RideUnlock | internal/game/service.go:246-293 | unlocking does what the unlock command does, all or nothing |
| Services.Service.MatchResolve | internal/game/service.go:295-318 | the score write and the loop over the match's locked rides commit together or not at all |
| Services.Service.ResolveMatch | internal/api/matches.go:385-411 | a request without a past end and two non-negative scores changes nothing; any other is the resolution |
| Services.Service.Open | internal/game/rounds.go:186-209 | season flip and round write commit together or not at all |
| Services.Service.Close | internal/game/rounds.go:264-309 | auto-resolution, status flip and season flip commit together or not at all |
| Services.Service.UpdateRound | internal/api/rounds.go:157-252 | read, overwrite, validate and dispatch to open, close or plain write equals the round patch |
| Services.Service.Overwrite | internal/api/matches.go:286-303 | each field the request carries replaces the stored one and no other changes |
| Services.Service.EditMatch | internal/game/matches.go:325-365 | the version-guarded match write under its triggers and constraints, or the error and no change |
| Services.Service.UpdateMatch | internal/api/matches.go:245-358 | read, overwrite, validate, check the teams and write equals the match patch |
| Services.Service.UpdateSeason | internal/api/seasons.go:125-167 | read, overwrite, validate and write equals the season patch |
| Services.Tx.Claim | internal/game/idempotency.go:62-98 | a free key is claimed with a placeholder; a taken one gives its stored answer, or the conflict for another hash, and changes nothing |
| Services.Tx.SaveResponse | internal/game/idempotency.go:102-118 | the answer replaces the placeholder on the claimed row, endpoint and hash kept |
| Services.Tx.InsertRide | internal/game/rides.go:128-195 | the guarded insert, with its refusal named by the follow-up read |
| Services.Tx.UpdateRide | internal/game/rides.go:422-485 | the guarded update, its two refusals told apart |
| Services.Tx.Resolve | internal/game/matches.go:455-519 | the guarded score write under the ended_at trigger, with its refusal named |
| Services.Tx.UpdateAllForMatch | internal/game/rides.go:330-375 | the row-by-row settlement equals the set-based one: every locked ride of the match, or an error if the gate refuses one |
| Services.Tx.AutoResolve | internal/game/rounds.go:219-285 | the row-by-row auto-unlock or auto-burn equals the set-based one |
| Rides.RideEntity.Create | internal/game/rides.go:514-524 | in the action phase the ride becomes locked with no bonus and no streak; otherwise it is untouched |
| Rides.RideEntity.WonPending | internal/game/rides.go:527-539 | in the match phase a locked ride becomes won_pending with its bonus; otherwise the error and no change |
| Rides.RideEntity.Lost | internal/game/rides.go:542-554 | in the match phase a locked ride becomes lost with no bonus; otherwise the error and no change |
| Rides.RideEntity.Lock | internal/game/rides.go:557-570 | in the decision phase a won_pending ride is locked on the next match with one more streak; otherwise no change |
| Rides.RideEntity.Burn | internal/game/rides.go:574-585 | in the decision phase a won_pending ride is burned, its bonus kept; otherwise no change |
| Rides.RideEntity.Unlock | internal/game/rides.go:589-601 | in the decision phase a won_pending ride is unlocked with no bonus; otherwise no change |
| Rides.RunsRefineTheGate | migrations/000012_add_rides_insert_state_gate.up.sql:12-20 | any run of ride commands is accepted by the insert gate and, change by change, by checks 1 to 4 of the state gate |
| Rides.HistoryIsGated | migrations/000011_add_rides_result_agreement_gate.up.sql:39-74 | the same from any ride, whatever calls are refused on the way |
| Rides.GateGraphIsTheTable | internal/game/rides.go:487-500 | the gate's state graph is the transitions table without its phases, both ways |
| Rides.AcceptedChangeIsACommand | migrations/000011_add_rides_result_agreement_gate.up.sql:57-65 | every state change the gate accepts is an edge of the table, in exactly one phase |
| Rides.GateIsTheCommands | migrations/000011_add_rides_result_agreement_gate.up.sql:39-80 | checks 1 to 4 accept a change if and only if state and match stay or some command in some phase can leave the ride in that state on that match, and a forfeit has no bonus |
| Facts.GateExactly | migrations/000011_add_rides_result_agreement_gate.up.sql:39-103 | all five checks as one rule: a settlement only by the scores its match carries, a move to another match only from won_pending to locked, an exit only from won_pending, and no bonus for who forfeits |
| Facts.GuardedUpdateExactly | internal/game/rides.go:422-485 | on any tables the guarded update answers round not open for a ride, round or destination that has moved on, invalid transition for what the gate forbids, a constraint violation for what the columns refuse, else writes the one row |
| Facts.GuardedInsertExactly | internal/game/rides.go:128-195 | on any tables the guarded insert tells an unknown match, a round that is not open, a row the columns refuse and unknown references apart, else writes the one row at version 1 |
| Facts.StaleVersionsConflict | internal/game/rounds.go:112-161 | a write of a round, match or season under a version that has moved on is an edit conflict, whatever it would write |
| Lifecycle.Validator.AddError | internal/validator/validator.go:25-29 | the first message of a key wins and the validator is no longer valid |
| Lifecycle.Validator.Check | internal/validator/validator.go:31-35 | valid afterwards exactly when it was valid and the check holds |
| Lifecycle.CheckStatusRegression | internal/game/lifecycle.go:26-35 | refuses exactly the moves to a lower rank |
| Lifecycle.ValidateRoundUpdate | internal/game/rounds.go:72-75 | accepts exactly the updates with a season, a number in 1..38 and no lower rank |
| Lifecycle.ValidateSeasonUpdate | internal/game/seasons.go:65-68 | accepts exactly the updates with no lower rank |
| Lifecycle.ValidateScores | internal/game/matches.go:88-97 | accepts exactly: both scores, non-negative, when in play or closed; none before |
| Lifecycle.ValidateMatchShape | internal/game/matches.go:77-99 | accepts exactly the well-shaped matches, whatever order the fields are refused in |
| Lifecycle.ValidateMatchUpdate | internal/game/matches.go:146-153 | accepts exactly the well-shaped updates that neither reopen a closed match nor lower the rank |
| Lifecycle.ValidateResolveMatch | internal/game/matches.go:111-124 | accepts exactly an id, an end in the past and two non-negative scores |
| Phases.PhaseNeverMovesBack | internal/game/round_phase.go:33-42 | with a later clock and a match that only ended meanwhile, the phase is the same or later: no return to action, no end of decision |
| Phases.EndedMatchIsPastAction | internal/game/round_phase.go:33-42 | an ended match is never in its action phase again |
| Facts.PhaseExactly | internal/game/round_phase.go:21-42 | action is more than 3600 seconds before the start, decision is from 3600 seconds after the recorded end and not before 3600 seconds to the start, and the match phase is the rest |
| Schedule.FirstExists | internal/game/matches.go:412-413 | any non-empty set of matches has one that is first by start and id |
| Statements.NextIsUnique | internal/game/matches.go:404-414 | the next match of a team is unique |
| Statements.NextQualifies | internal/game/matches.go:409-412 | the match picked is the team's, un-ended, in a round not closed, and no such match comes before it |
| Statements.NoNextMeansNoCandidate | internal/game/matches.go:436-441 | no match is found exactly when none qualifies |
| Facts.NextExactly | internal/game/matches.go:404-414 | the pick of a continuation is m if and only if m is of the team, has no end and is in a created or open round, and every such match starts later or at the same time with no smaller id; there is none exactly when no match is such |
| Facts.NextComesFirst | internal/game/matches.go:412-413 | spelled out for one other match b: the pick starts before b, or with b and its id is no greater |
| Bonus.OneWinIsExact | internal/game/rides.go:608-617 | one win adds exactly tokens*(odds-1)*(1+0.20*streak), with no digit past the fourth decimal |
| Bonus.WinRunAccruesExactly | internal/game/rides.go:527-539 | n wins at streaks 0..n-1 accrue exactly the sum of the n terms, the ride won_pending at streak n-1 |
| Bonus.EveryWinAdds | internal/game/rides.go:610-617 | every win adds a positive amount |
| Bonus.TotalUnitsBound | migrations/000006_create_rides_table.up.sql:16-25 | the accrual of n wins is at most the closed form 90n+10n^2 times the largest stake and odds |
| Bonus.SeasonOfWinsFits | migrations/000007_alter_matches_odds_precision.up.sql:18-20 | with up to 5*10^9 tokens, odds up to 99.99 and 38 wins the bonus stays below 10^14, so the column holds it exactly |
| Facts.DecisionExactly | internal/game/rides.go:422-485 | in seconds, statuses and rows: a decision under a fresh key is refused for the first of no such ride, no such match, round not open, no candidate match (a continuation only), less than an hour since the end, not won_pending, a row the columns refuse, each with its own error and no change; else it writes that one ride, a continuation onto the candidate that starts first and of those the one with the smallest id, and its key, and nothing else |
| Facts.GuardAndGateAccept | internal/game/rides.go:422-444 | read and written at one instant, neither the guard nor the gate refuses a decision the domain accepted |
| Facts.CreationExactly | internal/game/rides.go:128-164 | in seconds, statuses and rows: a creation under a fresh key is refused for the first of no such match, round not open, an hour or less to the start, identity taken, no stake, unknown player or team, each with its own error and no change; else it writes the ride, locked with no bonus and no streak whatever the caller sent, and its key |
| Facts.ReplayChangesNothing | internal/game/idempotency.go:78-97 | a committed key answers from its row, or refuses another hash, and never executes |
| Facts.RetryReplays | internal/game/service.go:57-112 | a retry of an executed command, at any later time, gives the same answer and changes nothing |
| Facts.ThreeWinnersAgree | internal/game/matches.go:54-65 | for every closed match and team, Match.Winner, the settlement's CASE and check 5 agree |
| Facts.ResolutionExactly | internal/game/matches.go:455-519 | a resolution is refused as not found, as an edit conflict, for scores or odds the columns refuse or for a loser with a bonus, and changes nothing; else the match is closed with the home and away scores of the request and the database clock as its end, each locked ride of the match is won_pending if its team is the home team and home > away or the away team and away > home, else lost, no other ride changes, and the answer carries the caller's end and no teams |
| Facts.ResolvedOnce | internal/game/matches.go:501-519 | a closed match refuses every further resolution as an edit conflict |
| Facts.OpenExactly | internal/game/rounds.go:171-209 | open succeeds exactly at the version read, in a season that is open or in progress, for one more than its greatest closed number, that number in 1..38 and taken by no other round, while no match of the round has started; it writes the round, puts an open season in progress, and nothing else changes |
| Facts.EditNeverEnds | internal/game/matches.go:325-365 | an accepted match edit writes one match, neither closes nor reopens it, keeps its end, round and season, and never takes a started match back |
| Facts.AutoResolutionIsLegal | internal/game/rounds.go:272-285 | the ride half of a close is never refused by the gate |
| Facts.CloseExactly | internal/game/rounds.go:211-309 | close succeeds exactly at the version read, when all matches of the round are closed, in a season that is open or in progress, for the next free number; rounds 1 to 37 unlock their undecided rides with nothing, round 38 burns them with their bonus kept and closes an in-progress season, and nothing else changes |
| Patches.PatchRoundExactly | internal/api/rounds.go:157-252 | the whole outcome of a round PATCH, every refusal in order: unknown id or other season, version header, validator, gates, number taken; else the round carries the number and status asked for, a first opening starts an open season, closing round 38 ends one in progress, and closing an open round sends its undecided rides off |
| Patches.PatchMatchExactly | internal/api/matches.go:245-358 | the whole outcome of a match PATCH, every refusal in order: unknown id or other season, version header, validator, teams, freeze gate, columns; else each of start, teams, status, the two odds and the two scores is the request's if it carries one and the stored one if not, the version is one more, and no other row changes |
| Patches.PatchSeasonExactly | internal/api/seasons.go:125-167 | the whole outcome of a season PATCH: unknown id, version header, a move back, a started match under a status before in progress, or the new status at the next version and nothing else |
| Patches.AdditionsExactly | internal/game/matches.go:101-109 | a round or match is added exactly if its references exist, its number or teams are its own, its odds, start and empty score are in range and it is created; added as given, else nothing changes |
| Facts.FlipFirstAborts | migrations/000008_add_round_lifecycle_gates.up.sql:87-96 | flipping the status while an undecided ride exists always aborts, so close must resolve the rides first |
| Reachable.CommandKeeps | internal/game/rides.go:422-444 | every command keeps: a ride is locked exactly while its match has not ended, a closed round owns no locked and no undecided ride, no bonus accrues; and every row moves only the way its kind may |
| Reachable.StepKeeps | internal/game/matches.go:200-221 | the same for every action, creations of rounds and of matches in any round included |
| Runs.ReachableStatesKeep | internal/game/rides.go:330-342 | every state a run from a fresh deployment reaches has that invariant |
| Runs.ReachableMatchesResolve | internal/game/service.go:295-318 | in such a state a resolution succeeds exactly when its match may be resolved: no ride stands in the way |
| Runs.PhasesOnlyAdvance | internal/game/matches.go:381-391 | between two points of a run with the same start, a match's phase never moves back |
| Runs.OnlyCreateAdds | internal/game/rides.go:128-136 | only a creation adds a ride, exactly one, and no action removes one |
| Runs.StakesAreConserved | migrations/000006_create_rides_table.up.sql:4-9 | the tokens over all rides are always what the run's creations put in |
| Runs.HistoriesAreOk | internal/game/rides.go:487-601 | the versions of each ride spell locked (won_pending locked)* and at most one exit, count 1, 2, 3, ..., keep the stake and visit matches that have all ended but the last |
| Runs.EveryRideRunIsFinite | internal/game/matches.go:404-415 | each ride visits pairwise distinct matches, its streak counts its continuations, its version its writes, and both are bounded by the schedule |
| SeasonLaw.RunsFollowSeasons | migrations/000008_add_round_lifecycle_gates.up.sql:50-58 | in every run from a fresh deployment no round of a season that is still created is open or closed, and an open round's season is in progress or closed |
| Sequence.OneOpenRound | migrations/000001_create_initial_game_models.up.sql:33-34 | a season in sequence has at most one open round |
| Sequence.RoundWriteKeepsSequence | migrations/000008_add_round_lifecycle_gates.up.sql:35-71 | every accepted round write keeps an open round's number one above the greatest closed one |
| Sequence.GapIffClosedRenumbered | migrations/000008_add_round_lifecycle_gates.up.sql:37-48 | an accepted patch keeps the closed numbers 1..k if and only if it does not renumber a closed round |
| Sequence.ClosingNeedsAllBefore | migrations/000008_add_round_lifecycle_gates.up.sql:12-15 | a round closes only after every smaller number of its season is closed |
| Sequence.StepKeepsSequence | internal/game/rounds.go:112-161 | every action keeps every season in sequence |
| Sequence.RunsKeepSequence | internal/game/rounds.go:186-209 | so does every run, and a run that never renumbers a closed round keeps the closed numbers 1..k |
| Sequence.ClosedRoundCanBeRenumbered | migrations/000008_add_round_lifecycle_gates.up.sql:62-65 | a run whose closed numbers have a gap: round 1 closed, then renumbered 2 |
| Safety.GateHoldsUndecided | migrations/000008_add_round_lifecycle_gates.up.sql:73-100 | at the status flip every undecided ride of the round is held by the closing transaction, and all its matches are closed |
| Safety.UpdateRowIsGood | internal/game/rides.go:419-444 | the re-checked version makes the row written the successor of the row read, however stale the snapshot |
| Safety.MoveIsGood | internal/game/service.go:128-187 | every step of every transaction keeps its writes covered by its locks and legal over the committed rows |
| Stability.LocksKeepApart | internal/game/rides.go:111-127 | two transactions never hold uncommitted writes to one row |
| Stability.TxIsStable | internal/game/rides.go:410-421 | what a transaction in flight relies on survives any other transaction's commit |
| Stability.ScheduleIsOk | internal/game/rounds.go:251-309 | the invariant of half-done closes and resolutions holds in every interleaving |
| Stability.ClosedRoundsStaySettled | migrations/000008_add_round_lifecycle_gates.up.sql:73-100 | in every interleaving of all commands a committed closed round owns no won_pending ride and no locked ride on an open match, and a match that is closed if its round is stays so |
| Stability.RanksNeverFall | internal/api/rounds.go:157-222 | in every interleaving no season, round or match moves to a lower rank, a closed match stays closed with its end, a ride that left stays as it is, and a version names one row for good |
| Histories.OneExecutionPerKey | internal/game/idempotency.go:50-98 | at most one execution commits under a key, and it wrote one ride |
| Histories.SameKeySameAnswer | internal/game/idempotency.go:93-97 | all successes under one key carried one hash and got one answer |
| Histories.OtherHashChangesNothing | internal/game/idempotency.go:58-62 | a request with another hash than the committed key's is refused and commits nothing |
| Histories.EveryKeyHoldsAnAnswer | internal/game/idempotency.go:100-118 | a committed key row always holds the executed command's answer, never the placeholder |
| Histories.OneWritePerVersion | internal/game/rounds.go:219-240 | from one version of a ride at most one write commits, whoever competes for it |
| Histories.OneResolutionPerMatch | internal/game/service.go:295-318 | among any resolutions of a match at most one commits, and the rides it moved are won_pending exactly if their team is the winner of the score it wrote |
| Histories.AnswersAreShown | internal/game/service.go:70-112 | every success a client is told of is a committed execution, or a ride command answered from a committed key with its own hash |
| Histories.OneResolutionAnswered | internal/game/matches.go:501-519 | of all resolutions of a match at most one is answered with success |
| Histories.OneExitAnswered | internal/game/service.go:193-293 | of all requests to burn or unlock a ride under different fresh keys at most one is answered with success |
| Histories.SettlementMissesNoneItSaw | internal/game/rides.go:330-342 | in every interleaving each ride a settlement saw stays locked outside until it commits and is settled by the winner of its score, or is still to come |
| Histories.LosersAreRefused | internal/game/service.go:193-293 | a decision whose ride moved on after it was read is refused in every continuation, its claim rolled back |
| LostUpdates.NoUpdateIsLost | internal/game/rounds.go:112-161 | in every interleaving a decision or an edit of a round, match or season whose row was written after it read it, a resolution of a version that is gone and a creation in a round that closed never commit, and end with round not open (ride commands) or edit conflict, unless cancelled |
| Solo.UndisturbedIsRun | internal/game/service.go:70-318 | whatever its command, a transaction no other step and no tick comes between leaves the tables and gives the answer of the command run alone, every refusal included |
| Solo.HasANextStep | internal/game/idempotency.go:50-98 | in every interleaving a transaction that has not ended has a step it can take, or one that waits for a lock |
| Solo.Finishes | internal/game/service.go:70-318 | with no lock in its way it reaches its end by its own steps, from wherever it stands |
| Layers.SteadyIsOk | internal/game/matches.go:200-221 | what every command keeps, a match added to a closed round included, is all the interleaving theorems ask of the tables |
| Layers.ReachableSchedulesAreOk | internal/game/rounds.go:251-309 | from every state a run of commands from a fresh deployment reaches, every interleaving keeps closed rounds settled, and the rounds in sequence if it frees no number a patch past its gates asks for |
| RoundOrder.OneProgressPerSeason | migrations/000008_add_round_lifecycle_gates.up.sql:60-68 | two rounds of one season cannot both be written as progress, with their index entries, in transactions that are open at once |
| RoundOrder.HeldStays | migrations/000001_create_initial_game_models.up.sql:33-34 | a round written and not committed still fits the committed rounds after any other commit: its number is free and it follows the greatest closed one |
| RoundOrder.VerdictIsFresh | migrations/000008_add_round_lifecycle_gates.up.sql:60-68 | a patch that passed its gates some time ago, finding its number free in the index, still writes what the gates allow now, as long as no closed round gave the number up |
| RoundOrder.VerdictStays | migrations/000008_add_round_lifecycle_gates.up.sql:37-48 | every commit keeps an old verdict good, but the one that renumbers the round closed under the number asked for |
| RoundOrder.SchedulesKeepSequence | migrations/000008_add_round_lifecycle_gates.up.sql:35-71 | in every interleaving of all commands that frees no awaited number an open round's number is one above its season's greatest closed one, so at most one is open, and every round is committed as the gate would let it pass then |
| RoundOrder.OnlyRenumberingFrees | internal/game/rounds.go:130-135 | a step frees an awaited number only by renumbering a closed round, so interleavings that never do that are covered |
| SeasonLaw.SchedulesFollowSeasons | migrations/000008_add_round_lifecycle_gates.up.sql:50-58 | in every interleaving of all commands no round of a season that is still created is open or closed |
| SeasonLaw.SeasonExactly | internal/game/rounds.go:171-209 | in every interleaving in which no opening enters the index under a season that is open, an open round's season is in progress or closed; and after such a schedule a step is such an entry if and only if some continuation without a further one leaves a round open under a season not in progress |
| Edits.OpeningCanMissItsSeason | internal/game/rounds.go:180-198 | an opening and a season edit from created to open, interleaved, leave a round open and its season open |
| Overtaking.OrderExactly | migrations/000008_add_round_lifecycle_gates.up.sql:58-68 | after any schedule in order, a step frees an awaited number if and only if some continuation that frees none commits a round the gate would refuse |
| Overtaking.OvertakenOpeningBreaksSequence | internal/game/rounds.go:138-161 | an opening whose number was freed after its gates can still commit, and leaves a round open below the greatest closed one |
| Overtaking.SequenceCanBreak | internal/game/rounds.go:130-135 | a schedule of three patches from two created rounds that breaks the sequence: one is opened under the number of the other, which is closed and renumbered in between |
| SerialSteps.UpdateRowIsSerial | internal/game/rides.go:422-444 | with a stale snapshot a ride that is still undecided at the row step has an open round then |
| SerialSteps.HarmlessEditKeepsFixture | internal/game/matches.go:325-365 | a match edit that carries no start and no team leaves start, teams, end, round, season and closedness as they are |
| SerialCommits.SerialIsStable | internal/game/rides.go:106-127 | what a ride command, round update or harmless edit will commit on stays true under any other such commit that takes no awaited number away, a round past its gates included |
| Serializability.CommitIsRun | internal/game/service.go:70-293 | at its commit such a transaction writes and answers exactly what the command run alone would |
| Serializability.EveryScheduleIsSerial | internal/game/service.go:70-293 | every interleaving of ride commands, round updates and harmless match and season edits that frees no awaited number ends in the tables of the committed commands run alone in commit order, with the same answers; refused ones leave no trace |
| Serializability.SerialExactly | migrations/000001_create_initial_game_models.up.sql:33-34 | after any such schedule, a step frees an awaited number if and only if some continuation that frees none is no run of its commands one by one |
| Edits.StartEditIsHarmful | internal/game/rides.go:106-136 | with an edit of a start serializability fails: a creation answered between its phase read and its insert would be refused alone |
| Edits.TeamEditIsHarmful | internal/game/matches.go:404-415 | with an edit of a team it fails: a continuation commits on a pick that is no match of its team any more |
| Edits.SeasonEditIsHarmful | migrations/000008_add_round_lifecycle_gates.up.sql:50-58 | with an edit of a season's status it fails: a round past its gates opens under a season closed meanwhile |
| LockedRides.InterleavedRidesStayLive | internal/game/rides.go:128-136 | from every state commands keep, every interleaving of all commands in which no resolution leaves a ride behind keeps it: a ride is locked exactly while its match has not ended |
| LockedRides.UnresolvedLeavesNone | internal/game/service.go:295-318 | an interleaving without resolutions leaves none behind, edits of all kinds included |
| LockedRides.BoundShrinks | internal/game/rides.go:128-136 | a command that nothing keeps from locking a ride on a match was in that position before any other commit: what it asks of the tables never becomes true again |
| LeftBehind.LeftExactly | internal/game/rides.go:330-342 | with any number of commands of all kinds, a step leaves a ride behind if and only if some continuation that leaves no further one ends with a ride locked on an ended match |
| Timely.OnlyLateCreationsAreLeft | internal/api/rides.go:293-299 | in every interleaving that gives no match another start, a creation in flight that a resolution's commit leaves bound to its match has been open for more than an hour since its phase read |
| Stranding.StrandingNeeds | internal/game/rides.go:433-441 | no schedule of one ride command and one resolution strands a ride on an ended match unless the condition held before the two |
| Stranding.CreationTakesTime | internal/game/round_phase.go:33-42 | a schedule of a creation and a resolution that strands a ride takes until after the match's start, which is more than an hour |
| Courses.ResolutionRuns | internal/game/rides.go:330-342 | a resolution that may be carried out runs to its commit beside any transactions that hold only keys, over any rides waiting on its match |
| Courses.BoundLands | internal/game/rides.go:410-444 | a ride command past its last look at a match commits its ride locked on it, ended or not, when nothing else stands in its way |
| Race.StrandsExactly | internal/game/rides.go:106-136 | some schedule of one ride command and one resolution, of any duration, strands a ride if and only if the resolution can be carried out and the command can lock a ride on its match |
| Race.CreationStrandsWithin | internal/api/rides.go:293-299 | for a creation some schedule of so many seconds does it if and only if, besides, the match starts before they are over |
| Race.TimelyCreationStrandsNothing | internal/constants/consts.go:8 | no schedule of a creation and a resolution that lasts no longer than the hour of the action phase lead strands a ride |
| Race.ContinuationStrandsAtOnce | internal/game/rides.go:410-444 | for a continuation in its decision phase whose pick has started some schedule does it without the clock moving |
| Race.RunsNeverStrand | internal/game/service.go:295-318 | no run of whole commands, in any order, reaches tables with a stranded ride |
| Race.ContinuationExists | internal/game/rides.go:410-444 | the condition holds of concrete tables that commands keep: a won ride of a team whose other match of the open round is running, another ride waiting on it |
| Race.CreationExists | internal/game/matches.go:146-153 | and, with a creation, of a match put in play before its start: the condition without the time it takes |

## Left out

- Serializability.EveryScheduleIsSerial: resolutions are not among its commands because with them it is false (`Race.StrandsExactly`), and edits of a start, a team or a season's status are not because with them it is false as well (`Edits`). All other interleaving theorems include edits of all kinds and resolutions.
- Overtaking.OrderExactly: the three gates of one round write run in one step, while in the database each reads at its own moment. The close gate's verdict is stable under the row's lock, the progress gate's may be as old as the schedule likes here too, and only an edit of a start beside the patch could change what the freeze gate saw.
- Stability.ScheduleIsOk: rounds, matches and seasons are not created while transactions are interleaved; they may have been before.
- Runs.ReachableStatesKeep: a fresh deployment already has its seasons, teams and players; their creation and edits, other than season status, are not modelled.
- Bonus.SeasonOfWinsFits: decimals are exact reals, so the rounding of a third decimal in odds or of a third decimal in base_at_lock is not modelled.
- Deletion of rounds, matches and seasons, and its gates.
- Integer widths of ids, versions and streaks; token counts are bounded only in the bonus theorem.
- `RideStore.Insert` and `RideStore.Update`, which no service flow uses, and the list of settled rides that the service discards.
- Creation timestamps, listing, filters, pagination, players, teams, users, permissions, the rate limiter, the mailer.
- HTTP decoding and encoding, the ride handlers' own validation before the command, SHA-256 and the encoding of bodies.
- Deadlock detection and fairness: a transaction that waits for a lock may wait forever or be cancelled.
- A score or odds outside its column's range is refused when the row is written; the database and the driver may refuse it earlier, before a refusal the model gives first.
