# Fedimint wallet core, modelled and proved

This project models the decision and execution core of a wallet that spreads funds over several
Fedimint federations, and proves what every input, every pass and every run of it keeps.

- **Executor and journal** (`Types`, `Journal`, `Drivers`, `DriverSafety`, `Reservations`, `Admission`,
  `BatchCommit`). Any number of drivers claim journaled intents by compare-and-set, take a
  process-local guard, re-read, perform and write back. They interleave freely, are killed at any
  await, and meet journal calls that fail, or commit and still report an error. A batch is
  committed against one balance sample while earlier members of the batch are folded into the view
  later ones are admitted against.
- **Allocator** (`Sizing`, `Allocator`, `AllocatorSafety`, `AllocatorGoals`, `AllocatorProgress`,
  `AllocatorFunding`, `AllocatorRefusals`, `PlanAndCommit`). One pass over a snapshot emits
  evacuations, funding moves and refusals. The batch stays inside caps and balances in unbounded
  arithmetic and its amounts are maximal. Value goes only where the snapshot allows, and goes there
  whenever some amount is performable. Whatever stays undone is on record with its cause. The
  executor commits all of it.
- **Conflict projection** (`Conflict`, `ConflictRun`). Which logical goals live work already owns,
  and that no run of plan, journal and status steps ever has two live owners of one goal.
- **Move protocol** (`MoveProtocol`, `MoveRun`, `Replay`). Assembling a move record from intent,
  operation log and cache, choosing the next effect, and what holds across crashes and lost or
  rolled-back caches.
- **Arithmetic kernels** (`Amounts`, `GrossUp`, `StructuralRefusal`, `Calendar`, `Timestamp`).
- **Evidence and scheduling** (`Probe`, `OperationLedger`, `Rotation`, `AdaptiveSleep`).

Code that updates things in place is a class or a method with loops, proved against a function on
the values it changes; the theorems are about those functions. What each function means is stated
beside it in terms of the inputs' own fields, not through its helpers. Rust's saturating 64-bit arithmetic
is written out (`SatAdd`, `SatSub`, `Clamp`), the truncating cast in the move fee cap and the
wrapping 128-bit product in the structural test are modelled as such, and every bound is stated in
unbounded integers. Concurrent and crashing behaviour is a step system: a total function from state
and step to state, with theorems over every finite run.

What comes from outside is a parameter: the clock, the outcome of an executor call, whether a
journal call fails or commits while failing, what backfill reports, and the federation's fee quote.
While a batch is committed, other writers may add intents and change statuses between its two
reads, between read and write, and after each decision; they never remove an intent or rewrite what
a stored one does.

`dafny verify dfyconfig.toml` checks the whole project.

## Model

| member | source | states |
|---|---|---|
| `Journal.LifecycleIsFenced` | wallet-core/src/executor.rs:27-37 | over every run of lifecycle writes an intent is never lost, its attempt never changes, and open work may become anything, awaiting work may only finish, finished work never changes |
| `Journal.LifecycleIsComplete` | wallet-core/src/executor.rs:27-37 | a status is reachable by lifecycle writes if and only if that rule allows it |
| `Journal.WritesAreExact` | wallet-core/src/executor.rs:675-775 | the store after each of the four writes, for every store and argument: only its own key changes, to exactly this value, and only under this attempt and order |
| `Journal.MemJournal.constructor` | wallet-core/src/executor.rs:657-660 | a new journal is empty |
| `Journal.MemJournal.Upsert` | wallet-core/src/executor.rs:675-693 | accepts exactly a new key or an allowed move within the same attempt; a refusal leaves the store unchanged |
| `Journal.MemJournal.Get` | wallet-core/src/executor.rs:695-702 | finds exactly the stored intent |
| `Journal.MemJournal.SetStatus` | wallet-core/src/executor.rs:704-731 | the attempt fence and the transition rule decide, and only the status changes |
| `Journal.MemJournal.SetStatusIf` | wallet-core/src/executor.rs:733-755 | the compare-and-set claim: wins exactly on the expected status and attempt, and a won pending claim drops the refusal marker |
| `Journal.MemJournal.ResetRetryable` | wallet-core/src/executor.rs:757-775 | only the current executing attempt goes back to pending, with the new evidence |
| `Journal.InFlightPerforms.Claim` | wallet-core/src/executor.rs:631-646 | claims exactly a key nobody holds, and the key is held afterwards |
| `Journal.InFlightPerforms.Release` | wallet-core/src/executor.rs:648-655 | dropping the guard frees exactly that key |
| `DriverSafety.InvHolds` | wallet-core/src/executor.rs:1335-1484 | in every interleaving of drivers, kills, re-admissions, settlements and retries: guards are held once, performs are on open attempts, records close attempts, successes are accounted for |
| `DriverSafety.PerformIsExclusive` | wallet-core/src/executor.rs:1335-1484 | at most one driver per key is ever between its re-read and its status write |
| `DriverSafety.NoPerformAfterRecord` | wallet-core/src/executor.rs:1335-1484 | no perform of an attempt starts after that attempt was recorded done, awaiting or failed |
| `DriverSafety.SuccessesBounded` | wallet-core/src/executor.rs:1335-1484 | an attempt succeeds at most once more than its results were lost to a kill or a failed status write |
| `DriverSafety.BoundIsAttained` | wallet-core/src/executor.rs:1335-1484 | for any number of losses some run reaches that bound, so it is the best one |
| `DriverSafety.OpenIntentCanFinish` | wallet-core/src/executor.rs:1335-1484 | from any state an open intent nobody performs is driven to done by one fresh driver, with one success, nothing lost and no other intent touched |
| `DriverSafety.LossCycle` | wallet-core/src/executor.rs:1335-1484 | a driver killed between effect and write leaves the intent as drivable as before, with one success and one loss more |
| `DriverSafety.ClosedIsStable` | wallet-fedimint/src/journal.rs:1012-1069 | a closed attempt stays closed under every step, manual retry under the next attempt number included |
| `DriverSafety.LogIsTruthful` | wallet-core/src/executor.rs:1393-1484 | what the run's log says is what happened: starts, successes whether done or awaiting, closing records, lost results |
| `DriverSafety.SurroundingsAct` | wallet-fedimint/src/journal.rs:1012-1069 | settlement, retry, re-admission and kills do act on the states they are for, with exactly this effect |
| `BatchCommit.GuardedRun` | wallet-core/src/executor.rs:1335-1484 | the closed form of a driver's guarded stretch: what it leaves in the journal and what it tallies, guard released |
| `BatchCommit.DriveIntentStep` | wallet-core/src/executor.rs:1335-1484 | the sequential drive leaves exactly the state of the concurrent model's driver run without interruption, whose results the three rows below give |
| `BatchCommit.DriveRecordsOutcome` | wallet-core/src/executor.rs:1335-1484 | a drive without faults of an open intent nobody performs records done, awaiting or failed as the perform turned out, or pending with the new evidence, changes nothing else, and tallies performed, performed, failed or retry |
| `BatchCommit.DriveUnderFaults` | wallet-core/src/executor.rs:1346-1387 | what is recorded and tallied when the claim, the guard, the re-read or the write goes wrong, call by call |
| `BatchCommit.StaleDriveIsHarmless` | wallet-core/src/executor.rs:1373-1387 | a drive from a stale copy never performs and leaves the store as it was |
| `BatchCommit.DriveKeepsGuard` | wallet-core/src/executor.rs:648-655 | a whole drive leaves the set of keys being performed as it found it |
| `BatchCommit.PerformGuarded` | wallet-core/src/executor.rs:1386-1484 | the stretch under the guard, with its result and tally in each fault case |
| `BatchCommit.DriveKeepsActions` | wallet-core/src/executor.rs:1335-1484 | driving never changes what any stored intent does |
| `BatchCommit.DecideAndJournal` | wallet-core/src/executor.rs:1059-1157 | journals a decision exactly when the second read does not show its key, it pursues an agent goal, it is admitted, its write lands and the journal takes it; answers an error if and only if one of those or the re-attachment check fails; otherwise a stored intent decides the answer by its status |
| `BatchCommit.AttachIsExact` | wallet-core/src/executor.rs:1159-1228 | stored pays, receives, joins and recovers are re-attached to exactly the requests that differ in nothing but invoice text, gateway or preexisting mark |
| `BatchCommit.JournalOne` | wallet-core/src/executor.rs:956-1023 | one decision keeps the batch committed and the folded view covering, whatever write faults occur and whatever other writers add around the reads and the write |
| `BatchCommit.CommitOne` | wallet-core/src/executor.rs:956-1023 | the same with the answer given exactly, the drive, and what became of the decision counted in exactly its own counts |
| `BatchCommit.ActOn` | wallet-core/src/executor.rs:986-1020 | acting on an answer: an error is a failed pass, a stored failure a terminal skip, a stored end a skip, and a driven intent ends as its drive does |
| `BatchCommit.CommitNext` | wallet-core/src/executor.rs:956-1023 | advisory and repeated decisions are skipped and change nothing, a failed first read is a failed pass, all else is committed as above, and then other writers have their turn |
| `BatchCommit.ApplyWithAllocatorAdmission` | wallet-core/src/executor.rs:956-1023 | whatever the executor, the faults and other writers do, every decision newly durable after the call fits the one balance sample together with all prior reservations and every newly durable decision ahead of it, in unbounded sums, but for the families saturation lets through; apart from keys other writers brought, exactly those decisions are new; the summary is the exact count of what became of each decision; of a clean list exactly the decisions the journal did not hold become durable, members it held take no room, and cleanly driven ones end as their performs returned |
| `BatchCommit.AdmittedFits` | wallet-core/src/executor.rs:1233-1303 | a decision admitted against the folded view fits the sample in unbounded arithmetic or falls in one of those families |
| `BatchCommit.SharesAreTrue` | wallet-core/src/executor.rs:418-464 | below the 64-bit maximum the saturated shares are the true debits |
| `BatchCommit.MaximalCapAdmitsOverflow` | wallet-core/src/executor.rs:1233-1303 | at a cap of the 64-bit maximum an overflowing credit is admitted |
| `BatchCommit.EmptyMoveAdmitsOverdraft` | wallet-core/src/executor.rs:1233-1303 | a move of nothing is admitted from an overdrawn source |
| `BatchCommit.HugeFeeCapAdmitsOverdraft` | wallet-core/src/executor.rs:1233-1303 | a debit past 64 bits is admitted from a source that does not cover it |
| `Admission.AdmitIsExact` | wallet-core/src/executor.rs:1233-1303 | for every action, sample, cap (or none) and view: admission accepts exactly when source and destination each fit in unbounded sums or fall in a family saturation lets through (a zero debit on an overdrawn source, a debit past 64 bits on a full unreserved source, an overflow under the maximal cap), refuses the balance exactly when the source does neither, and the cap otherwise |
| `Admission.AdmissionAgreesExactly` | wallet-core/src/executor.rs:1233-1303 | for every such input, admission agrees with the unbounded sums of amount, fee cap and reservations if and only if neither side slips through one of those families while the other is in order |
| `Admission.AdmissionIsAntitone` | wallet-core/src/executor.rs:1233-1303 | fewer reservations never turn an admission into a refusal |
| `Admission.StrictAdmissionIsEnough` | wallet-core/src/executor.rs:218-295 | whatever the strict view admits, the artifact-aware view admits |
| `Admission.SpendsJointlyFit` | wallet-core/src/executor.rs:1034-1057 | moves and payments admitted one after another against the strict view jointly fit the one balance with everything already held, in unbounded sums |
| `Reservations.ProjectReservations` | wallet-core/src/executor.rs:207-216 | for every federation: outbound is the clamped sum of amount plus fee cap over live moves, evacuations and payments from it, inbound of the amounts of live moves, evacuations, inflows and receives into it, target credit of moves and evacuations alone |
| `Reservations.ProjectAllocatorReservations` | wallet-core/src/executor.rs:225-295 | the same sums at the record's sizing once a trusted record shows a receive, without the debit of a send or payment known to be out, and without the arrival of a move known to be over |
| `Reservations.StrictHoldsExactly` | wallet-core/src/executor.rs:414-464 | the three strict sums, written in the actions' own fields |
| `Reservations.ArtifactHoldsExactly` | wallet-core/src/executor.rs:225-295 | the three artifact-aware sums, written in the actions' and records' own fields |
| `Reservations.TrustedExactly` | wallet-core/src/executor.rs:303-397 | exactly which records are trusted: own key, direction, sizing or resizing, and every artifact the phase claims |
| `Reservations.ProjectHolds` | wallet-core/src/executor.rs:207-295 | every entry of a projection is the true sum of the intents' shares, clamped to 64 bits |
| `Reservations.ProjectionIgnoresOrder` | wallet-core/src/executor.rs:207-295 | permuting the intents changes no entry and no key |
| `Reservations.ArtifactViewAtMostStrict` | wallet-core/src/executor.rs:218-295 | however malformed the records, the artifact-aware view never holds more than the strict one, on any side of any federation |
| `Reservations.FoldBatchHolds` | wallet-core/src/executor.rs:414-464 | folding a batch adds each decision's true share, clamped |
| `Reservations.FoldKeys` | wallet-core/src/executor.rs:451-464 | a ledger names exactly the federations some footprint touched |
| `Sizing.MaxFundableIsExact` | wallet-core/src/allocator.rs:268-278 | an amount plus its floored proportional fee fits the budget if and only if the amount is at most `max_fundable` |
| `Sizing.FundableFits` | wallet-core/src/allocator.rs:268-278 | a fundable amount's stamped fee cap never truncates and the two fit the budget |
| `Allocator.SafestOther` | wallet-core/src/allocator.rs:712-744 | an eligible target if there is one, the standby first, else the smallest id, whatever the snapshot's order |
| `Allocator.AllocatorPass.constructor` | wallet-core/src/allocator.rs:93-107 | a pass starts with nothing emitted, suppressed or reserved |
| `Allocator.AllocatorPass.PushDecision` | wallet-core/src/allocator.rs:589-614 | one decision per key; a populated refusal replaces an empty one in place |
| `Allocator.AllocatorPass.PushAndReserve` | wallet-core/src/allocator.rs:619-659 | a decision is reserved exactly when it is newly pushed |
| `Allocator.AllocatorPass.PushIfEligibleAndReserve` | wallet-core/src/allocator.rs:550-567 | a blocked decision goes to the suppressed list and reserves nothing |
| `Allocator.AllocatorPass.FundInto` | wallet-core/src/allocator.rs:315-544 | one funding direction, with its move and its refusals, as a function of the pass so far |
| `Allocator.AllocatorPass.StepFederation` | wallet-core/src/allocator.rs:109-153 | one federation's evacuation and over-cap refusal |
| `Allocator.FindKey` | wallet-core/src/allocator.rs:589-614 | the first index of a key, or the length |
| `Allocator.Decide` | wallet-core/src/allocator.rs:88-242 | the whole pass: evacuations, then top-up, then standby funding |
| `AllocatorSafety.FedStepMoney` | wallet-core/src/allocator.rs:109-153 | a federation's step leaves the money part alone or appends and reserves exactly one unblocked evacuation |
| `AllocatorSafety.FundedMoney` | wallet-core/src/allocator.rs:315-544 | a funding step leaves the money part alone or appends and reserves exactly one unblocked move between distinct federations |
| `AllocatorSafety.CapRoomIsExact` | wallet-core/src/allocator.rs:695-706 | positive cap room is the cap less the true sum of everything already counted |
| `AllocatorSafety.SourceRoomIsExact` | wallet-core/src/allocator.rs:806-860 | positive source room is the balance less the floor and the true sum of everything outbound |
| `AllocatorSafety.FundingFits` | wallet-core/src/allocator.rs:315-544 | a funding move fits its destination's cap, and its source covers floor, reservations, amount and fee cap |
| `AllocatorSafety.EvacPhaseInduction` | wallet-core/src/allocator.rs:109-153 | what a fresh pass satisfies and every federation's step keeps holds after any number of federations |
| `AllocatorSafety.DecidedHolds` | wallet-core/src/allocator.rs:88-242 | the pass books exactly what it emits and everything emitted fits behind what is ahead of it |
| `AllocatorSafety.PlannedBatchIsAdmitted` | wallet-core/src/allocator.rs:88-242 | every emitted decision passes commit-time admission in order, with the earlier ones strictly folded in |
| `AllocatorSafety.BatchStaysWithinCap` | wallet-core/src/allocator.rs:88-242 | every federation the batch credits stays within the cap, counting balance, prior inbound and the whole batch |
| `AllocatorSafety.FundingSourceCovers` | wallet-core/src/allocator.rs:315-544 | every funding move's source covers amount plus fee cap behind everything reserved and emitted ahead of it |
| `AllocatorSafety.MapsAreTheBatch` | wallet-core/src/allocator.rs:619-659 | the pass's maps are the fold of the emitted batch; suppressed and duplicate work reserves nothing |
| `AllocatorGoals.BatchShape` | wallet-core/src/allocator.rs:88-242 | the batch is evacuations in the snapshot's order, each federation at most once, followed by at most one funding move |
| `AllocatorGoals.BatchGoals` | wallet-core/src/allocator.rs:88-242 | every emitted decision is unblocked, keyed and aimed as its kind demands, and no two share a goal |
| `AllocatorGoals.ToppedUpGoals` | wallet-core/src/allocator.rs:155-194 | a top-up is emitted only for a spending federation below its target |
| `AllocatorGoals.StandbyFilledGoals` | wallet-core/src/allocator.rs:196-235 | standby funding is emitted only from a spending federation above its target |
| `AllocatorGoals.StandbyMoveIsLast` | wallet-core/src/allocator.rs:196-235 | a standby filling is the last decision, sized against everything emitted before it |
| `AllocatorGoals.StandbyFundingKeepsTarget` | wallet-core/src/allocator.rs:196-235 | after standby funding the spending federation keeps its full target behind all outbound work and the whole batch |
| `AllocatorProgress.AmountsAreMaximal` | wallet-core/src/allocator.rs:315-544 | no emitted amount could be one unit larger: it fills the cap or the target, or takes all its source can pay for with fees |
| `AllocatorProgress.EvacuationIsTight` | wallet-core/src/allocator.rs:806-903 | an evacuation drains its source or fills its destination to the cap |
| `AllocatorProgress.RefusalIsForced` | wallet-core/src/allocator.rs:806-903 | no evacuation is proposed only when there is nothing to move or nowhere with room |
| `AllocatorProgress.EveryEvacuationIsAnswered` | wallet-core/src/allocator.rs:88-242 | every evacuating federation is drained by the batch, already being drained by blocking work, empty, or without any receiver with room, judged on the finished batch |
| `AllocatorFunding.FundingIsWellFounded` | wallet-core/src/allocator.rs:340-470 | every emitted move goes over an absent or routable route, reaches the protocol and route minimum, from one healthy role to the other, into an eligible, probed federation of non-negative reputation, with the proportional fee cap and the route's gateway |
| `AllocatorFunding.TopUpIsMade` | wallet-core/src/allocator.rs:155-194 | whenever some amount reaches the floor, keeps within target and cap and is covered by the standby with its fee, the spending federation is topped up or the move is held back for live work on either end |
| `AllocatorFunding.StandbyIsFilled` | wallet-core/src/allocator.rs:196-235 | the same for the standby from what the spending federation holds above its target |
| `AllocatorFunding.EvacuationsDrainWell` | wallet-core/src/allocator.rs:806-903 | every emitted evacuation drains a leaving federation for the right reason, no further than it can pay, into the standby if that can receive and else into the smallest id that can, under the component fee cap |
| `AllocatorRefusals.PushIsExact` | wallet-core/src/allocator.rs:589-614 | a push appends under a new key and otherwise changes nothing, but puts a refusal with figures in the place of one without |
| `AllocatorRefusals.RefusalsAreJustified` | wallet-core/src/allocator.rs:88-242 | the finished pass has one decision per key, and every refusal names its federation and reason and has its cause in the snapshot |
| `AllocatorRefusals.TroubleIsReported` | wallet-core/src/allocator.rs:109-153 | every federation over the cap is on record, and every leaving one the batch does not drain |
| `AllocatorRefusals.SpendingShortfallIsReported` | wallet-core/src/allocator.rs:315-544 | for a spending federation short of its target: why it may not be funded, an uneconomic route, the part over the cap, and the shortfall unless the rest is moved in full, are on record; only self-funding and dust are silent |
| `AllocatorRefusals.StandbyShortfallIsReported` | wallet-core/src/allocator.rs:315-544 | the same for the standby |
| `AllocatorRefusals.HeldBackIsReported` | wallet-core/src/allocator.rs:908-971 | everything held back for live work is on record under a key that names it |
| `AllocatorRefusals.FiguresAreApt` | wallet-core/src/allocator.rs:88-242 | a refusal without figures is for a federation over the cap from outside, or leaving with no receiver that has room; one with figures is for a funding target, or for a leaving federation some other may receive |
| `PlanAndCommit.PlannedKeysAreDistinct` | wallet-core/src/allocator.rs:746-770 | no two executable decisions of a plan share a key |
| `PlanAndCommit.PlannedListIsClean` | wallet-core/src/executor.rs:956-1023 | every plan is a clean list for the executor, whatever the snapshot and the blockers, when its keys are free |
| `PlanAndCommit.Tick` | wallet-fedimint/src/runtime.rs:4155-4165 | deciding and committing joined: over a journal without errors, when neither it nor another writer holds the new keys, exactly the planned batch becomes durable |
| `Conflict.GoalBlockers.FromIntents` | wallet-core/src/conflict.rs:255-275 | the holders are exactly the goals of the live intents, each with its key, and the sources exactly theirs |
| `Conflict.GoalBlockers.Record` | wallet-core/src/conflict.rs:379-390 | a holder's source is remembered with its goal and key |
| `Conflict.GoalBlockers.HoldDecision` | wallet-core/src/conflict.rs:277-289 | a journaled decision's goal is held from then on, and nothing else changes |
| `Conflict.GoalBlockers.Extend` | wallet-core/src/conflict.rs:235-249 | the union of two projections |
| `Conflict.GoalBlockers.BlockingHolder` | wallet-core/src/conflict.rs:300-317 | finds a blocking holder if and only if the decision is blocked, and what it finds blocks it |
| `Conflict.BlockedExactly` | wallet-core/src/conflict.rs:151-191 | a funding move is blocked exactly by another key funding its destination or draining either end, an evacuation exactly by another drain of its source, nothing else ever |
| `Conflict.HeldExactly` | wallet-core/src/conflict.rs:113-135 | a scan holds exactly the destinations of live agent funding moves and the sources of live agent evacuations |
| `ConflictRun.InvHolds` | wallet-core/src/conflict.rs:255-313 | in every run of scanning, planning, journaling and status changes: owners are scanned, one owner per goal, and the rest of the plan is unopposed |
| `ConflictRun.GoalsAreNeverShared` | wallet-core/src/conflict.rs:255-313 | no two live agent intents under different keys fund the same destination or drain the same source |
| `ConflictRun.FundingNeverRacesDrain` | wallet-core/src/conflict.rs:163-191 | no funding move is journaled while a live evacuation drains its source or its destination |
| `ConflictRun.PlansAreJournaled` | wallet-core/src/conflict.rs:277-289 | what is planned is stored as decided, pending, under its own key |
| `ConflictRun.StatusesChange` | wallet-core/src/executor.rs:27-37 | stored statuses change in between as the lifecycle allows |
| `MoveProtocol.AssembleMoveRecord` | wallet-fedimint/src/move_protocol.rs:381-519 | the assembly loop latches the first receive, send, amount and cap of this attempt, and merges them with intent and cache |
| `MoveProtocol.AssembledExactly` | wallet-fedimint/src/move_protocol.rs:381-538 | where every field of an assembled record comes from: newest artifact, own cache or intent |
| `MoveProtocol.ReplayIssues` | wallet-fedimint/src/move_protocol.rs:316-342 | replay mints if and only if neither log nor cache shows either leg or an outcome, and pays if and only if a send is due, a receive is shown and no send is |
| `MoveProtocol.NextStepExactly` | wallet-fedimint/src/move_protocol.rs:316-342 | each of the five steps, if and only if, in the record's own fields |
| `MoveRun.InvHolds` | wallet-fedimint/src/executor.rs:1653-2030 | in every run of the driver with crashes and lost or rolled-back caches, every record names only committed legs with their committed sizing |
| `MoveRun.AssembledIsTrue` | wallet-fedimint/src/move_protocol.rs:381-519 | what is assembled from faithful artifacts and any surviving cache is true of the log |
| `MoveRun.LegsCommitAtMostOnce` | wallet-fedimint/src/executor.rs:1653-2030 | an attempt commits at most one receive and at most one send, in that order, under the same amount and fee cap |
| `MoveRun.BlindReplayMintsAgain` | wallet-fedimint/src/move_protocol.rs:316-342 | with a receive committed and no outcome cached, replay mints a second invoice if and only if neither backfill nor cache shows the first |
| `MoveRun.BlindReplayActsAgain` | wallet-fedimint/src/move_protocol.rs:316-342 | with a send committed, replay acts again if and only if the send is hidden from both |
| `MoveRun.HiddenReceiveIsReachable` | wallet-fedimint/src/executor.rs:1653-2030 | a run of every attempt in which a committed receive is hidden and replay mints again |
| `MoveRun.HiddenSendIsReachable` | wallet-fedimint/src/executor.rs:1653-2030 | a run of every sending attempt in which a committed send is hidden: replay mints again with nothing shown, and pays again with the receive shown |
| `MoveRun.RunsAct` | wallet-fedimint/src/executor.rs:1653-2030 | rows are persisted, lost and brought back, and an awaiting move takes its outcome, with exactly this effect |
| `Replay.SourceIsFreedExactly` | wallet-core/src/executor.rs:225-397 | a live send's source is freed if and only if a trusted record shows the send issued or finished, and never while replay could still spend |
| `Replay.ReplayableSourceIsHeld` | wallet-core/src/executor.rs:225-397 | while replay of a stored record could still mint or pay, any projection containing the intent keeps at least the full debit on its source |
| `Replay.SourceIsHeldUntilSent` | wallet-core/src/executor.rs:225-397 | in every run of an attempt the source keeps its full debit until the send is in the operation log |
| `GrossUp.ForwardMonotone` | wallet-fedimint/src/fee.rs:129-133 | under a slowly rising federation fee a larger invoice never nets less |
| `GrossUp.LeastIsExact` | wallet-fedimint/src/fee.rs:109-115 | the least invoice that reaches the target nets it exactly |
| `GrossUp.ReachingIsPaying` | wallet-fedimint/src/fee.rs:51-56 | netting a positive target is exactly paying base, floored share (its product held at 64 bits), federation fee and net |
| `GrossUp.Bracket` | wallet-fedimint/src/fee.rs:135-144 | for any forward map, at most 64 doublings reach a covering invoice or show that the largest falls short |
| `GrossUp.Bisect` | wallet-fedimint/src/fee.rs:145-159 | for any forward map, at most 64 bisections reach an invoice that covers the target and whose predecessor does not |
| `GrossUp.Solved` | wallet-fedimint/src/fee.rs:116-174 | for any federation fee the invoice pays for the gateway's base and share, the federation's fee on the rest and the whole net, and one unit less does not; for a slowly rising fee it is the least such invoice and pays exactly; it gives up only at an unsolvable rate or when even the largest invoice does not pay, and exactly then for a slowly rising fee; within 64 doublings and 64 bisections |
| `StructuralRefusal.NoFasterIsSound` | wallet-core/src/executor.rs:165-199 | a fee rising no faster than the cap is above it at every net up to the high sample |
| `StructuralRefusal.FixedExcessIsSound` | wallet-core/src/executor.rs:165-199 | an excessive fixed component keeps the line above the cap at every net |
| `StructuralRefusal.StructuralIsSound` | wallet-core/src/executor.rs:165-199 | a structural verdict means the line through both quotes is above the cap at every net still open |
| `StructuralRefusal.StructuralIsExact` | wallet-core/src/executor.rs:165-199 | while the product fits 128 bits the verdict is structural if and only if that line is above the cap at every net up to the high sample |
| `StructuralRefusal.FixedComponentIsOrigin` | wallet-core/src/executor.rs:175-199 | samples are comparable exactly when the second delivers more, and the reported fixed component is the line at the origin to within rounding |
| `StructuralRefusal.FlagsMean` | wallet-core/src/executor.rs:165-199 | the two halves by themselves: the first compares slopes, the second never speaks of a low quote within the cap |
| `StructuralRefusal.JudgementIsExact` | wallet-core/src/executor.rs:165-199 | for all over-cap samples the verdict agrees with the line if and only if the fee rises no faster, the product fits, or two wraps cancel |
| `StructuralRefusal.OverflowMisjudges` | wallet-core/src/executor.rs:165-199 | with the product overflowed the line starts below the cap, and the verdict is structural unless the component wraps twice |
| `StructuralRefusal.WrappedProductIsUnsound` | wallet-core/src/executor.rs:165-199 | a concrete pair of samples judged structural whose line starts below the cap |
| `StructuralRefusal.RealAmountsFit` | wallet-core/src/executor.rs:165-199 | amounts up to all bitcoin never overflow the product |
| `StructuralRefusal.NoFasterStopsAtHigh` | wallet-core/src/executor.rs:165-199 | a concrete case where a slowly rising fee drops to the cap beyond the high sample |
| `StructuralRefusal.CapBounds` | wallet-core/src/types.rs:203-207 | a fee above the floored cap is above the unfloored one |
| `Probe.PassMeans` | wallet-core/src/probe.rs:104-164 | a pass is exactly enough recent proofs (successes from the source, of at least the amount, within the fee cap) with no failure after them, two of which lie the required span apart |
| `Probe.VerdictMeans` | wallet-core/src/probe.rs:104-164 | every other verdict: never probed, expired, failed, failed since a sustained pass, insufficient, each by the history in time order |
| `Probe.PriorPassMeans` | wallet-core/src/probe.rs:222-252 | the search between failures finds exactly the sustained passes: some set of proofs with no failure between them, enough and far enough apart |
| `Probe.EvidenceLater` | wallet-core/src/probe.rs:104-164 | the evidence at a later time is the evidence now with the expired part dropped |
| `Probe.AnchorDecides` | wallet-core/src/probe.rs:168-209 | evidence still passes exactly until the anchor's expiry |
| `Probe.FindAnchor` | wallet-core/src/probe.rs:196-209 | the loop finds the attempt whose expiry first ends the pass |
| `Probe.PassExpiryAnchor` | wallet-core/src/probe.rs:168-209 | the anchor tells, for every later time, whether the verdict is still a pass; there is none exactly when it is not one now |
| `Probe.FailureDemotesPass` | wallet-core/src/probe.rs:222-252 | a failure appended to a passing history demotes it, and the earlier pass is remembered as such |
| `OperationLedger.Advance` | wallet-core/src/ledger.rs:351-403 | the field-by-field copy computes the accepted row, or nothing for a refused write |
| `OperationLedger.AdvancedExactly` | wallet-core/src/ledger.rs:351-403 | exactly which writes land, and the status, time, repair mark, error, kind and fees they leave |
| `OperationLedger.EnrichedExactly` | wallet-core/src/ledger.rs:409-457 | which values of an update each kind of row stores, and that absent ones leave what was known |
| `OperationLedger.FeesExactly` | wallet-core/src/ledger.rs:466-475 | the same for fees, with settlement-definitive costs replaced outright |
| `OperationLedger.RunKeepsOperation` | wallet-core/src/ledger.rs:351-475 | over every run a row stays the same operation and forgets no handle, hash or fee cap |
| `OperationLedger.FinalRowNeverChanges` | wallet-core/src/ledger.rs:351-403 | a terminal row that is not a repair is immutable |
| `OperationLedger.RepairedIsTerminal` | wallet-core/src/ledger.rs:351-403 | in every run a repaired row is terminal |
| `OperationLedger.RankFallsOnlyOverRepair` | wallet-core/src/ledger.rs:81-87 | status rank falls only on an authoritative write that consumes a repair |
| `OperationLedger.FallsArePaidForByRepairs` | wallet-core/src/ledger.rs:351-403 | over a run, status falls at most once per repair |
| `OperationLedger.FirstOutcomeDecides` | wallet-core/src/ledger.rs:351-403 | the first authoritative outcome is the outcome: every later state has its status, time and error |
| `OperationLedger.SuccessCarriesNoError` | wallet-core/src/ledger.rs:351-403 | without writes that pair success with an error, no succeeded row carries one |
| `Calendar.CivilIsCalendar` | wallet-cli/src/main.rs:3601-3619 | for every day number the closed form is the Gregorian date reached one day at a time from 1970-01-01, and a valid date |
| `Calendar.MarchAdvances` | wallet-cli/src/main.rs:3608-3613 | one more day is the next day of the March-based year or the first of the next year |
| `Timestamp.TimestampForm` | wallet-cli/src/main.rs:3601-3619 | before year 10000 the string is the 24-character form of section 5.6 of RFC 3339 for that date and time |
| `Timestamp.PaddedSpells` | wallet-cli/src/main.rs:3618-3618 | reading a printed field back gives the number |
| `Timestamp.TimestampsKeepOrder` | wallet-cli/src/main.rs:3601-3619 | before year 10000 later instants print later strings, so distinct ones print distinct strings |
| `Rotation.FindStart` | wallet-core/src/watch.rs:311-323 | the place after a known cursor, or at the first current id above an unknown one |
| `Rotation.ResumesAt` | wallet-core/src/watch.rs:317-323 | the start for no cursor, a known one and an unknown one, in terms of the order alone |
| `Rotation.Collect` | wallet-core/src/watch.rs:324-340 | the window is the first `take` current ids of the rotated order, and the end is crossed exactly when it is reached first |
| `Rotation.DiscoverPassPlanInRotation` | wallet-core/src/watch.rs:286-348 | the plan for any cursor, rotation order, candidate list and window size |
| `Rotation.WindowIsCurrent` | wallet-core/src/watch.rs:286-348 | for any order a window holds only current candidates, never more than asked, and is short only when the order has no more |
| `Rotation.PlanInOwnOrder` | wallet-core/src/watch.rs:273-284 | over a sorted list that is its own order, a pass is a cyclic slice |
| `Rotation.EveryCandidateIsVisited` | wallet-core/src/watch.rs:273-348 | from any cursor, ceil(n/k) consecutive passes visit every candidate |
| `Rotation.FirstWrap` | wallet-core/src/watch.rs:273-348 | a run from no cursor first wraps in pass ceil(n/k) |
| `Rotation.WrapsExactly` | wallet-core/src/watch.rs:329-342 | over a sorted list a pass wraps exactly when it visits every candidate, or resumed after a known candidate other than the last and visits the last |
| `Rotation.WindowRange` | wallet-core/src/watch.rs:273-348 | which positions each earlier pass visits |
| `Rotation.WindowsAreDisjoint` | wallet-core/src/watch.rs:273-348 | before the first wrap no candidate is visited twice |
| `Rotation.CoverageCompletesAtWrap` | wallet-core/src/watch.rs:273-348 | before the wrapping pass some candidate is still unvisited |
| `AdaptiveSleep.SleepRespectsDeadlines` | wallet-core/src/watch.rs:186-249 | a sleep is positive, within the base interval, and past no evacuation point, shutdown, due probe or discovery backlog |
| `AdaptiveSleep.SleepIsExact` | wallet-core/src/watch.rs:186-249 | the sleep is exactly the least the cadence, a shutdown or a probe asks for, each given in the policy's and deadlines' own terms |
| `AdaptiveSleep.EveryDeadlineIsMet` | wallet-core/src/watch.rs:186-249 | in every run, of any length and from any start: no wake jumps over an evacuation point or shutdown still ahead, no gap in the window is above the minimum interval, and a run that passes either time has a wake exactly on it |
| `AdaptiveSleep.RunsReachShutdown` | wallet-core/src/watch.rs:186-249 | a run that goes on gets there: wakes strictly advance, so a long enough one lands on both |

## Left out

- The Fedimint SDK, the network, RocksDB storage, serialization, the HTTP service, the command line beyond its timestamp, and the web interface.
- Allocator diagnostics: a refusal's figures are one bit saying whether they are filled in, and the `deferred` list is not modelled.
- Federation scoring, candidate discovery itself, probe scheduling and budgets, and policy validation beyond the intervals the sleep needs: they would only add easy members.
- The strict-view commit paths (`decide_and_journal`, `apply_with_admission`, `reconcile`), which repeat the allocator path with another reservation view.
- Supersession of an evacuation by a replacement, and attaching to an existing pay or receive beyond refusing a mismatch.
- Secondary `GoalBlockers` queries (`excluding_key`, `holds_goal_from`, `has_blocking_holder_from`, `blocks_funding_pair`).
- BlockingHolder: returns some blocking holder, where the code returns the first in key order.
- GoalsAreNeverShared: the run has no manual retry of a failed intent, and takes from the executor that a goal-bearing intent is never left awaiting.
- FundingNeverRacesDrain: holds over the same runs as GoalsAreNeverShared.
- EveryDeadlineIsMet: wakes are ideal, each exactly one sleep after the last, and expiries in the list lie in the future as the loop keeps them.
- Decide: assumes a snapshot that lists each federation once, as the snapshot builder does.
- PassMeans: the defensive chronological sort is a stable insertion sort standing for the library's.
- ApplyWithAllocatorAdmission: a debit that is empty or past 64 bits, and a cap of the 64-bit maximum, may be over the sample; `EmptyMoveAdmitsOverdraft`, `HugeFeeCapAdmitsOverdraft` and `MaximalCapAdmitsOverflow` are inputs, and `AdmitIsExact` and `AdmissionAgreesExactly` give the exact condition for one admission.
- TimestampsKeepOrder: years from 10000 on print more than four digits and fall outside the form.
- JudgementIsExact: models the wrapping product of a release build; a build with overflow checks stops there instead.
- Solved: the solver's comment says every solvable fee yields a solution; the code also gives up when the largest invoice falls short of the target, and the model follows the code.
