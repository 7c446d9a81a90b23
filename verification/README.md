# A verified model of the PaaS control plane

This project models the four parts of the control plane whose correctness depends on whole runs, and proves what they
promise. `dafny verify dfyconfig.toml` checks everything.

**The runtime operator** (`Cluster`, `MemoryClient`, `Steering`, `Outcomes`, `Operator`, `OperatorRuns`, `OperatorWitnesses`). One
reconciliation drives Deployments, Services, autoscalers, Jobs, one route and one network policy toward the stored
application, client call by client call. Between any two calls workloads report anything, requested deletions may complete,
and the next call may fail or never be made: this is the `weather` of a client, and an empty forecast is an operator that
stopped. In calm weather calls go through and workloads behave as they always do, but the operator can be told to stop
right after its next route write. Every call leaves a moment in a ghost trace, with the reconciliation it belongs to, and
the theorems speak about every moment of every trace.

While deletions take effect at once, and whatever the owner does, an enabled route always leads to an existing service of
a release that was promoted by a reconciliation which had itself seen every process of that release's spec ready; and
traffic is either on the recorded active release, or on the release promoted by the reconciliation that wrote the route
last, with no status written since. The simpler form, that it is on the recorded active release or on the stored spec's,
fails exactly after such a promotion was cut off between route and status and another spec was stored. If the owner
promises one spec per release and never to suspend or delete, then from the first status that records an active release on
there is traffic at every moment, to a service whose deployment exists; and a route write carries traffic exactly if an
active release is on record or its reconciliation has promoted one, so before the first record traffic that was there is
lost exactly if the last route write since was by a reconciliation that had promoted none and found none on record. A workload of a release with a migration exists only after that migration's
job was there and had succeeded. A migration whose success is on record is never submitted again; while it is not on record
every reconciliation submits it, so a success that a crash kept off the record is repeated after a suspension has removed
the job. What a calm reconciliation tells is written out in `Outcomes` from the stored state, the workloads' reports and the
time alone: phase, reason, message, route, record of the previous release, and what is cleaned up. With every process ready, two reconciliations reach a state without leftovers and a third changes nothing. A
tear-down deletes workloads only after the route is gone, announces a final phase only when nothing is left, and gets there
under any schedule that completes every deletion eventually. Each failing case has a run that shows it.

**The runtime control plane** (`Normalize`, `Scheduling`, `ControlPlane`, `ControlPlaneSafety`, `Rollout`,
`RolloutTheorems`, `RolloutOutcomes`, `RolloutWitnesses`, `ControlPlaneStore`). Placements on cells, releases, deployments and their GitOps
commits, moved by separate transactions of any number of workers, with a push to a write-once repository between two of them. Everything a
worker ever had in hand (a plan, a rendered manifest, a push acknowledgement) stays available for ever, so a crash is a
worker that never uses it and a retry one that uses it twice. Capacity is conserved, the three state machines move in
step, recovery after a crash between push and record equals an uninterrupted deployment, and a request keeps being
answered with the same release. Some properties hold only under a condition, which is proved to be exact: the internal
error paths are dead, except that the replay of a release command reports one when its key is reused for an environment
without a placement; a deployment retried after its push converges if and only if the environment's active release is
still the one in the pushed manifest, and a deployment whose first push comes after another release became active is
published with a previous release that the observer will reject at every later time; and a ready
report makes its release active unless that was superseded, in which case the environment names it all the same and has
no active release at all. `RolloutWitnesses` reaches a world on the failing side of each. `RolloutOutcomes` writes out what every transaction answers
and leaves, phase by phase and row by row, without the functions it is computed with.

**Commercial metering and quota** (`Int64`, `Rating`, `Metering`, `Quota`, `Ledger`, `Invoice`). The sweep over replica
observations, integer rating with rounding, the invoice, the idempotent usage ledger with its reconciliation, and quota
reservations with expiry, all with 64-bit limits. A ledger window that ends where its period ends can never be
corrected, because the period excludes its own end while the window's last instant is the correction's time. Plans are
kept to throughout a run exactly if every granted reservation fits by the clock at which it is made, as all do that are not
dated ahead; a request that is can be granted and oversubscribe. Both happen in states that ordinary commands reach.

**The kernel's outbox, inbox and operation log** (`Outbox`, `OperationLog`). At-least-once dispatch with leases that
protect nothing, composed with a deduplicating inbox, and an event log from which the stored operations can be rebuilt.

Code that changes things in place is a class or a method here, proved against a specification function; the laws are
then lemmas about that function. `Sums` and `Order` hold the two notions the rest shares: sums over a map's values, and
the byte order of names. Hashes are modelled as the values they are computed from and object names as structured values,
so both are injective. Time is a number of nanoseconds for metering and a plain number elsewhere.

## Model

| member | source | states |
|---|---|---|
| Int64.SafeAdd | internal/commerce/application/service.go:832-840 | the sum exactly when it fits in 64 bits, otherwise an overflow report |
| Int64.SafeSub | internal/commerce/application/service.go:841-849 | the difference exactly when it fits in 64 bits, also for the smallest subtrahend |
| Rating.Round | internal/commerce/application/service.go:604-615 | the nearest integer to a quotient, ties away from zero |
| Rating.RateQuantity | internal/commerce/application/service.go:595-615 | the nearest integer to quantity times price; an overflow only if no nearest integer fits in 64 bits |
| Rating.NearestUnique | internal/commerce/application/service.go:595-615 | rounding leaves no choice |
| Rating.RoundOdd | internal/commerce/application/service.go:595-615 | rounding a credit mirrors rounding a charge |
| Rating.RateOdd | internal/commerce/application/service.go:595-615 | rating is odd wherever both sides are in range |
| Rating.RateMonotone | internal/commerce/application/service.go:595-615 | more quantity never costs less |
| Metering.Latest | internal/commerce/application/service.go:617-642 | the observation in force: the latest not after the instant, the later input winning a tie |
| Metering.SortReadings | internal/commerce/application/service.go:617-642 | observations in time order, each kept once with its input position |
| Metering.Dedup | internal/commerce/application/service.go:643-650 | one reading per instant, with the same reading in force at every instant |
| Metering.Advance | internal/commerce/application/service.go:659-673 | one constant segment adds its whole seconds times replicas times weight of the observation in force, nothing if that is suspended or not positive, and extends the tracked integral |
| Metering.Sweep | internal/commerce/application/service.go:651-680 | the sweep tracks the integral of the rising timeline up to the window's end |
| Metering.CalculateRuntimeUnitSeconds | internal/commerce/application/service.go:617-685 | the whole seconds of every constant segment at its rate, capped at the 64-bit maximum; on whole seconds the sum, second by second, of replicas times weight of the observation in force, zero if suspended or not positive; never more than the integral, and less than one second's weight lost per segment |
| Metering.TimelineMeaning | internal/commerce/application/service.go:617-650 | sorting and deduplication keep the integral, its segments and its whole-second form |
| Metering.IntegralAdditive | internal/commerce/application/service.go:617-685 | consumption of adjacent windows adds up |
| Metering.UnitSecondsAdditive | internal/commerce/application/service.go:617-685 | so do the metered quantities of adjacent whole-second windows below the cap |
| Metering.WholeIntegral | internal/commerce/application/service.go:617-685 | on whole seconds the metered quantity is the sum over seconds of the rate in force |
| Metering.SecondsWrittenOut | internal/commerce/application/service.go:659-673 | the rate in force at each second is replicas times weight of the latest observation, zero if suspended or not positive |
| Metering.SteadyUse | internal/commerce/application/service.go:651-680 | one observation in force throughout a window yields its whole seconds times replicas times weight, or nothing |
| Metering.ScaledUse | internal/commerce/application/service.go:659-673 | weights k times as large yield k times as much |
| Quota.Store.ActiveQuota | internal/commerce/application/service.go:315-326 | the committed quantities and those reserved and not expired at an instant (Quota.HeldByState), in any listing order, saturating at the 64-bit maximum |
| Quota.Store.FindReservation | internal/commerce/memory/store.go:270-277 | the reservation made under a key, if there is one |
| Quota.Store.Reserve | internal/commerce/application/service.go:252-314 | grants, replays and refuses exactly as specified, in the order of the source's checks; Quota.GrantsExactly and Quota.RefusesExactly say when |
| Quota.Store.Check | internal/commerce/application/service.go:192-250 | allows or denies exactly as specified, with the remaining quantity; Quota.AllowsExactly says when |
| Quota.Store.TransitionQuota | internal/commerce/application/service.go:327-364 | commit before expiry or release, each idempotent, nothing else touched |
| Quota.ActiveFades | internal/commerce/domain/model.go:336-341 | what is held never grows by waiting alone |
| Quota.ReserveExactly | internal/commerce/application/service.go:252-314 | whatever its date, a granted reservation leaves everybody within the plan if and only if it fits beside what is held by the clock |
| Quota.UndatedFits | internal/commerce/application/service.go:252-314 | a granted reservation dated not after the clock fits by the clock |
| Quota.ReserveKeepsInv | internal/commerce/application/service.go:252-314 | a reservation command keeps every tenant and resource within its plan if and only if it grants nothing or what it grants fits by the clock |
| Quota.SettleKeepsInv | internal/commerce/domain/model.go:309-341 | so does a commit or a release |
| Quota.LimitNeverMoves | internal/commerce/domain/model.go:108-153 | the limits behind an existing subscription stay as they are |
| Quota.NeverOversubscribed | internal/commerce/application/service.go:192-365 | over every run with a monotone clock whose granted reservations fit by the clock, the committed quantities and those reserved and not expired at any later time add up to at most the plan's quota, and to nothing without one |
| Quota.HeldByState | internal/commerce/domain/model.go:336-341 | what counts against the limit is what is committed and what is reserved and has not expired |
| Quota.GrantsExactly | internal/commerce/application/service.go:252-314 | a request is granted if and only if it is proper and new, its tenant is in good standing, and it fits beside what is held at its date; one reservation is added, otherwise nothing changes |
| Quota.RefusesExactly | internal/commerce/application/service.go:252-314 | which requests are repetitions, and which refusal the others get |
| Quota.CommitsExactly | internal/commerce/domain/model.go:309-323 | a commit succeeds if and only if the reservation is committed or has not expired; what is held now stays, and from its expiry on the quantity counts as well |
| Quota.ReleasesExactly | internal/commerce/domain/model.go:324-335 | a release always succeeds and takes the quantity out of what is held, now and later |
| Quota.SettledStays | internal/commerce/application/service.go:327-364 | over every run a committed reservation stays as it is until it is released, and a released one for ever |
| Quota.CommittedCounts | internal/commerce/application/service.go:327-364 | so over every run a committed quantity counts at every time until it is released |
| Quota.AllowsExactly | internal/commerce/application/service.go:192-250 | an entitlement is allowed if and only if the tenant is in good standing, its plan has the feature, and the quota of the named resource has enough left; the remaining quantity |
| Quota.AccountMoves | internal/commerce/application/service.go:696-739 | an account moves along its transition graph only, and its subscription with it |
| Quota.PlanMoves | internal/commerce/application/service.go:64-143 | plans are drafted once, edited and activated only as drafts, disabled at any time |
| Quota.SubscribesExactly | internal/commerce/application/service.go:144-184 | a tenant without subscription and account subscribes to an active plan |
| Quota.WithinExactly | internal/commerce/application/service.go:192-365 | the plans are kept to after every command of a run if and only if each granted reservation fits by the clock at which it is made |
| Quota.UndatedIsFitting | internal/commerce/application/service.go:192-365 | runs whose requests are dated, if at all, not after the clock are of that kind |
| Quota.ReachableNotOversubscribed | internal/commerce/application/service.go:192-365 | the same from an empty store |
| Quota.AllowedCheckCanReserve | internal/commerce/application/service.go:192-314 | in a well-formed store an allowed check for a quantity means an immediate fresh reservation of it is granted |
| Quota.FutureDateOversubscribes | internal/commerce/application/service.go:252-314 | after a run without requests dated ahead, a request dated after the clock is granted and oversubscribes the plan |
| Ledger.AppendUsageKeepsInv | internal/commerce/application/service.go:409-448 | events and "usage" idempotency records stay in one-to-one correspondence |
| Ledger.RunAppendsOnly | internal/commerce/application/service.go:366-448 | over every run the correspondence holds and no recorded event changes |
| Ledger.ReappendChangesNothing | internal/commerce/application/service.go:409-448 | appending under a used key changes nothing at any later time, and is acknowledged exactly for the recorded event, its period given or found again, in a period that still takes it |
| Ledger.AdmitsExactly | internal/commerce/application/service.go:376-408 | what normalisation refuses before the transaction |
| Ledger.AppendsExactly | internal/commerce/application/service.go:409-457 | an event is recorded if and only if its period, given or found, holds it and its key is new; the event on record is acknowledged, all else refused with its reason |
| Ledger.CountsTowards | internal/commerce/application/service.go:759-768 | a recorded event moves a window's sum by its quantity if and only if it is of that tenant, period, resource and meter and lies within |
| Ledger.ReconcilesExactly | internal/commerce/application/service.go:741-792 | without drift nothing is appended, with drift one correction of exactly that, at the window's end, under the command's own key |
| Ledger.CorrectionSettles | internal/commerce/application/service.go:741-792 | the correction event moves the window's sum by exactly the drift |
| Ledger.ReconcileReachesObserved | internal/commerce/application/service.go:741-792 | a successful command leaves the window at the observed quantity if and only if there was no drift or its key was new |
| Ledger.RepeatFindsNoDrift | internal/commerce/application/service.go:741-792 | repeating a first-time command at once reports zero drift and changes nothing |
| Ledger.CorrectionAccepted | internal/commerce/application/service.go:741-792 | with drift, a command succeeds exactly when its open period contains the window and ends strictly after it |
| Ledger.PeriodEndCannotBeReconciled | internal/commerce/domain/model.go:226-232 | a window ending with its period is refused whenever there is drift |
| Ledger.LastWindowDrifts | internal/commerce/application/service.go:741-792 | a reachable ledger and a drifting window at its period's end, refused |
| Ledger.Store.FindPeriod | internal/commerce/application/service.go:449-457 | the tenant's open period that takes the event, if there is one |
| Ledger.Store.AppendUsageTx | internal/commerce/application/service.go:409-448 | the append transaction exactly as specified |
| Ledger.Store.SumWindow | internal/commerce/application/service.go:759-768 | the window's ledger sum in any listing order, or an overflow only if the magnitudes exceed 64 bits |
| Ledger.Store.Reconcile | internal/commerce/application/service.go:741-792 | the reconciliation exactly as specified, unless a sum overflows, which changes nothing |
| Invoice.SortKeys | internal/commerce/application/service.go:540-556 | the grouped keys in strict order, whatever the map order |
| Invoice.Group | internal/commerce/application/service.go:531-539 | the ledger summed per key, an overflow reported and never wrapped |
| Invoice.BillLine | internal/commerce/application/service.go:562-580 | one line: the included allowance first, the rest rated |
| Invoice.AddLine | internal/commerce/application/service.go:562-587 | the next key's line and running total, or an overflow that really is one |
| Invoice.PreviewInvoice | internal/commerce/application/service.go:504-593 | a complete bill in key order whose total is the sum of its lines, all in 64 bits, or an overflow that really is one |
| Invoice.OrderedUnique | internal/commerce/application/service.go:540-556 | a set of keys has one strict order |
| Order.LessExactly | internal/commerce/application/service.go:544-556 | strings compare by their first difference, a proper prefix first |
| Invoice.KeyOrder | internal/commerce/application/service.go:544-556 | lines are ordered by resource type, resource, meter and kind, as strings |
| Invoice.TotalsExactly | internal/commerce/application/service.go:531-539 | a line adds up the usage of its resource type, resource, meter and kind, and no other |
| Invoice.LinesExactly | internal/commerce/application/service.go:562-587 | each line: all usage of its key, billed in full unless it is positive standard usage, at the nearest amount to its price, or for nothing without one |
| Invoice.GroupingConserves | internal/commerce/application/service.go:531-539 | grouping by key keeps any selection's total |
| Invoice.BillUnique | internal/commerce/application/service.go:525-590 | ledger and tariff determine the bill, so map iteration order cannot show |
| Invoice.InvoiceConserves | internal/commerce/application/service.go:525-590 | line quantities add up to the ledger |
| Invoice.AllowanceFirst | internal/commerce/application/service.go:557-572 | a meter's standard billable quantity is what exceeds its allowance |
| Invoice.AllowanceInOrder | internal/commerce/application/service.go:557-572 | also after any number of lines a meter's billed standard usage is what exceeds the allowance so far |
| Invoice.MeterWithinHalfUnit | internal/commerce/application/service.go:561-615 | a meter's total differs from the exact price of its billable quantity by at most half a minor unit per line |
| Outbox.ClaimFacts | internal/kernel/memory/store.go:254-278 | a claim keeps every event and publishes nothing |
| Outbox.ClaimsExactly | internal/kernel/memory/store.go:254-278 | a claim takes the first pending or lapsed records up to the limit, in order, leases them from now on, and changes no other |
| Outbox.MarksExactly | internal/kernel/memory/store.go:279-308 | marking publishes for good, releasing makes a record free at once and counts the attempt |
| Outbox.ProcessesExactly | internal/kernel/messaging.go:77-108 | an event takes effect if and only if its identifier is new and the handler succeeds, together with its inbox record |
| Outbox.ClaimsEverything | internal/kernel/memory/store.go:254-278 | with no live lease and a limit of as many as are unpublished, all of those are claimed |
| Outbox.StepKeepsInv | internal/kernel/messaging.go:20-108 | append, claim, publish, mark, crash, redelivery and time keep the delivery invariant |
| Outbox.RunKeepsInv | internal/kernel/messaging.go:20-108 | over any interleaving the invariant holds and published records stay published |
| Outbox.ExactlyOnceEffect | internal/kernel/messaging.go:20-108 | each event's handler effect is applied at most once, and exactly once if it is published |
| Outbox.NothingLost | internal/kernel/memory/store.go:238-308 | no event is lost or altered and published is terminal |
| Outbox.Store.ClaimOutbox | internal/kernel/memory/store.go:254-278 | the first eligible records in insertion order, under a lease |
| Outbox.Store.MarkOutboxPublished | internal/kernel/memory/store.go:279-294 | the record is published for good |
| Outbox.Store.MarkOutboxPending | internal/kernel/memory/store.go:295-308 | an unpublished record is released, whoever holds its lease |
| Outbox.Store.ProcessEvent | internal/kernel/messaging.go:77-108 | effect and inbox record commit together, a duplicate does nothing, a reused identifier is refused |
| Outbox.OutboxDispatcher.DispatchOne | internal/kernel/messaging.go:42-62 | publishing and marking one record are two moves of the machine; it is marked if and only if the consumer took it, the acknowledgement arrived and the store call went through |
| Outbox.OutboxDispatcher.DispatchClaimed | internal/kernel/messaging.go:40-64 | the loop over the claimed records is a run of the machine, and counts what it published |
| Outbox.OutboxDispatcher.Dispatch | internal/kernel/messaging.go:20-64 | a dispatch is a run of the machine, returns how many records it published, and without faults and past all leases publishes everything |
| OperationLog.RunKeepsInv | internal/kernel/service.go:500-930 | over every run of commands the log agrees with the stored operations |
| OperationLog.LogRebuildsOperations | internal/kernel/service.go:544-555 | replaying the log rebuilds every operation |
| OperationLog.LogIsPath | internal/kernel/operation.go:62-105 | an operation's events have versions 1 to n, form a path from pending, and end in its stored state |
| OperationLog.TransitionsExactly | internal/kernel/operation.go:62-105 | the allowed transitions, with an error code exactly where one is needed |
| OperationLog.CreatesExactly | internal/kernel/service.go:830-896 | what starting, recording a success and recording a failure write and announce |
| OperationLog.ChangesExactly | internal/kernel/service.go:579-760 | what a transition and a cancellation write, announce and audit, and when a cancellation becomes a failure of its own |
| OperationLog.FinishedStays | internal/kernel/operation.go:62-90 | over every run a finished operation stays as it is |
| OperationLog.Service.StartOperation | internal/kernel/service.go:500-577 | a new pending operation with its first event |
| OperationLog.Service.TransitionOperation | internal/kernel/service.go:579-613 | an allowed move with its event, nothing for a move to the same state |
| OperationLog.Service.RecordSuccessfulOperation | internal/kernel/service.go:830-866 | pending, running and succeeded, announced in that order |
| OperationLog.Service.RecordFailedOperation | internal/kernel/service.go:868-896 | pending and failed, announced in that order |
| OperationLog.Service.CancelOperation | internal/kernel/service.go:674-760 | cancellation where the graph allows it, announced once |
| Normalize.CleanIdempotent | internal/runtime/domain/config.go:14-50 | cleaning text twice is cleaning it once |
| Normalize.LaterNameWins | internal/runtime/domain/config.go:40-65 | of names that clean to the same one, the last in byte order is kept |
| Normalize.CollectProcesses | internal/runtime/domain/config.go:40-65 | the loop over sorted names yields that map, or rejects exactly the invalid ones |
| Normalize.NormalizeReleaseConfig | internal/runtime/domain/config.go:14-81 | the normal form exactly when there is one |
| Normalize.NormalIdempotent | internal/runtime/domain/config.go:14-81 | normalising again changes nothing, also after names collided |
| Normalize.NormalExactly | internal/runtime/domain/config.go:14-81 | a configuration has a normal form if and only if labels, class, sizes and timeouts are in range, every process is sound, and one that no later name overrides is routable |
| Normalize.NormalFields | internal/runtime/domain/config.go:14-81 | every field of the normal form, with its default |
| Normalize.TrimsExactly | internal/runtime/domain/config.go:16-20 | trimming takes the white space off both ends and nothing else |
| Normalize.LookupIsStored | internal/runtime/domain/config.go:83-102 | the identity a release command looks up is the one a new release stores |
| Scheduling.Cell.Allocate | internal/runtime/domain/cell.go:74-82 | succeeds exactly on an active cell with room |
| Scheduling.Cell.Release | internal/runtime/domain/cell.go:83-91 | succeeds exactly for a positive amount that is allocated |
| Scheduling.RequestedUnits | internal/runtime/application/service.go:56-76 | weight times the replicas summed in any order, refused exactly when not a positive 64-bit amount |
| Scheduling.Select | internal/runtime/application/scheduler.go:12-28 | the freest cell that fits, the smallest identifier among equals; nothing exactly when none fits |
| Scheduling.BestUnique | internal/runtime/application/scheduler.go:12-28 | the scheduler's choice is determined |
| Scheduling.BestExactly | internal/runtime/application/scheduler.go:12-30 | the choice in terms of state, region, isolation, capacity and identifier |
| Scheduling.UnitsOfOne | internal/runtime/application/service.go:56-76 | one process asks for the weight times its minimum replicas |
| Scheduling.UnitsOfAnother | internal/runtime/application/service.go:56-76 | each further one for as much on top |
| ControlPlaneSafety.ShrinkSucceeds | internal/runtime/application/service.go:78-105 | a shrinking resize never fails in an invariant state |
| ControlPlaneSafety.ResizeKeeps | internal/runtime/application/service.go:78-105 | resizing keeps capacity balanced and everything else in place |
| ControlPlaneSafety.PlaceKeeps | internal/runtime/application/service.go:384-406 | so does a first placement, which pins itself to its environment |
| ControlPlaneSafety.NewReleaseIdentified | internal/runtime/domain/release.go:30-45 | a new release carries the identity of its own configuration |
| ControlPlaneSafety.CreateKeeps | internal/runtime/application/service.go:314-421 | the release command keeps the invariant and every earlier row, and answers with a stored release |
| ControlPlaneSafety.RollbackKeeps | internal/runtime/application/service.go:693-732 | so does the rollback |
| ControlPlaneSafety.PrepareKeeps | internal/runtime/application/service.go:438-462 | so does preparing a deployment, which renders exactly while it is pending |
| ControlPlaneSafety.RecordKeeps | internal/runtime/application/service.go:489-534 | so does recording a commit, which is then on record |
| ControlPlaneSafety.SyncKeeps | internal/runtime/application/status.go:118-134 | so does marking a deployment as syncing |
| ControlPlaneSafety.RollKeeps | internal/runtime/application/status.go:136-178 | so does marking it as rolling out |
| ControlPlaneSafety.ObserveKeeps | internal/runtime/application/status.go:180-270 | so does applying any observed status |
| ControlPlaneSafety.RegisterKeeps | internal/runtime/application/service.go:255-275 | so does registering a cell |
| ControlPlaneSafety.OpenKeeps | internal/runtime/memory/store.go:163-180 | so does inserting an environment |
| ControlPlaneSafety.AtMostOneActive | internal/runtime/domain/environment.go:52-64 | an environment has at most one active release |
| Rollout.RecordedIsIndexed | internal/runtime/application/service.go:489-534 | what gets recorded is the repository's own entry |
| Rollout.StepSafe | internal/runtime/application/service.go:277-737 | every step of every worker, the repository or the observer keeps the world safe and loses nothing |
| Rollout.RunSafe | internal/runtime/application/service.go:277-737 | and so does every run |
| RolloutTheorems.CapacityConserved | internal/runtime/domain/cell.go:74-91 | in every reachable state a cell's allocation is the sum of its placements and fits, and an environment has one current placement, the one it names |
| RolloutTheorems.LockstepOverRuns | internal/runtime/application/status.go:118-270 | in every reachable state phase, release state, commit record and repository agree, and an active release is the one its environment names |
| RolloutTheorems.NeverInternal | internal/runtime/application/service.go:314-568 | no reachable writing transaction meets a dangling reference |
| RolloutTheorems.ReplayInternalExactly | internal/runtime/application/service.go:107-148 | the replay of a release command reports an internal error exactly when a used key comes with an environment that has no placement |
| RolloutTheorems.RecoverAnyTime | internal/runtime/application/service.go:536-568 | after a push and any run, recovery records exactly the pushed commit, if and only if it is recorded already or its hash is well formed |
| RolloutTheorems.RecoveryIsUninterrupted | internal/runtime/application/service.go:425-568 | stopping between push and record and recovering gives the state of an uninterrupted deployment |
| RolloutTheorems.OneCommitPerRelease | internal/runtime/gitops/repository.go:91-130 | repository and commit records are write-once over every run and agree |
| RolloutTheorems.RetryConverges | internal/runtime/application/service.go:462-487 | a retry after the push returns the same commit if and only if the active release is the one in the manifest |
| RolloutTheorems.OvertakenRetry | internal/runtime/application/status.go:73-107 | a late first push is accepted by the observer, at any later time, if and only if the active release was still the recorded previous one |
| RolloutTheorems.OneReleasePerIdentity | internal/runtime/memory/store.go:322-328 | in every reachable state an environment has one release per identity, rollbacks aside |
| RolloutTheorems.OneReleasePerContent | internal/runtime/domain/config.go:83-102 | rollbacks aside, an environment's releases are the same exactly if artifact and configuration are |
| RolloutTheorems.NewReleaseSized | internal/runtime/application/service.go:379-406 | a new release leaves its environment placed with exactly the units it asked for |
| RolloutTheorems.RollbackRestores | internal/runtime/application/service.go:649-732 | a rollback, executed at any time after its planning, makes a release of the target's artifact and configuration moved to the current placement, and sizes the placement for it |
| RolloutTheorems.ReadyActivates | internal/runtime/application/status.go:211-237 | a ready report names the release in its environment, and makes it active if and only if it was not superseded |
| RolloutTheorems.SettledAnswers | internal/runtime/application/service.go:343-378 | a repeated request is answered with its release and changes only the memory of its key |
| RolloutTheorems.SameRequestSameRelease | internal/runtime/application/service.go:343-378 | after any run every repetition of a successful request gets the same release |
| RolloutTheorems.SameCommandSameRelease | internal/runtime/application/service.go:107-148 | a repeated command under its key gets the same release and changes nothing, after any run, with any run between its read and its write transaction, both times, and whatever the artifact policy says by then |
| RolloutTheorems.RollbackReplays | internal/runtime/application/service.go:603-633 | an accepted rollback is answered with its release for ever, whatever the artifact policy says |
| RolloutOutcomes.ReadyAccepted | internal/runtime/application/status.go:180-237 | a ready report is accepted if and only if it is about the release itself, well formed, and the deployment is committed, syncing, rolling out, degraded or ready |
| RolloutOutcomes.ReadyLeaves | internal/runtime/application/status.go:211-237 | it leaves the deployment ready, the release active unless superseded and named by its environment, and every other active release of the environment superseded |
| RolloutOutcomes.DegradedReport | internal/runtime/application/status.go:238-246 | a degraded report is accepted exactly between push and readiness |
| RolloutOutcomes.OtherReport | internal/runtime/application/status.go:247-253 | any other report is accepted, and a pushed deployment that is not ready rolls out |
| RolloutOutcomes.ProgressReports | internal/runtime/application/status.go:118-178 | what syncing and rolling out make of every phase and state |
| RolloutOutcomes.RecoversToReady | internal/runtime/application/status.go:211-237 | a pushed and recorded deployment, degraded or not, becomes ready by a ready report after any run |
| RolloutOutcomes.PreparesExactly | internal/runtime/application/service.go:438-462 | a first preparation remembers the active release and renders it with the placement's cell; later ones render again while nothing is recorded |
| RolloutOutcomes.FirstRenderingAccepted | internal/runtime/application/status.go:73-107 | a first rendering is what the observer will accept |
| RolloutOutcomes.PushesExactly | internal/runtime/gitops/repository.go:79-131 | the first commit of a release stays, under its first hash |
| RolloutOutcomes.RecordsExactly | internal/runtime/application/service.go:489-534 | a commit is recorded if and only if it is the one on record, or the first of a prepared release under a hash of 7 to 64 characters without white space |
| RolloutOutcomes.RecoversExactly | internal/runtime/application/service.go:536-568 | recovery does nothing once recorded and otherwise records the repository's entry for the deployment's cell |
| RolloutOutcomes.DeploysToReady | internal/runtime/application/service.go:425-487 | an undisturbed deployment that is reported ready ends active, named by its environment and committed under the pushed hash |
| RolloutOutcomes.RejectedArtifact | internal/runtime/application/service.go:304-312 | a rejected artifact changes nothing, succeeds only with the release remembered under its key, and is reported exactly for a new key and a request that can be sized |
| RolloutOutcomes.AllowedArtifact | internal/runtime/application/service.go:277-314 | an allowed one is never rejected by the policy, and goes to the write transaction with its normal form and units |
| RolloutOutcomes.RollbackPolicy | internal/runtime/application/service.go:669-680 | a rollback of a rejected artifact is planned exactly if it is critical |
| RolloutOutcomes.PlansExactly | internal/runtime/application/service.go:603-692 | the answer on record, or a plan with the target's configuration moved to the environment's placement |
| RolloutOutcomes.RollsBackExactly | internal/runtime/application/service.go:693-732 | what a planned rollback writes or why it is refused |
| RolloutOutcomes.ResizesExactly | internal/runtime/application/service.go:78-105 | a placement keeps its size, shrinks to a positive one, or grows exactly if its active cell has room for the difference |
| RolloutOutcomes.CreatesPlaced | internal/runtime/application/service.go:314-423 | in a placed environment: the answer on record, the identical release, or a new one under the generated hostname on the resized placement |
| RolloutOutcomes.CreatesFirst | internal/runtime/application/service.go:314-423 | in an unplaced one: a placement on the best cell and a new release, or nothing |
| RolloutOutcomes.ReplaysExactly | internal/runtime/application/service.go:107-148 | a used key is answered exactly for the very same request |
| RolloutOutcomes.RegistersExactly | internal/runtime/application/service.go:255-276 | a cell is registered once, active and empty; the same configuration again changes nothing |
| RolloutOutcomes.OpensExactly | internal/runtime/memory/store.go:163-176 | an environment is opened once, unplaced, under a name its application has not used |
| RolloutOutcomes.MovesExactly | internal/runtime/domain/deployment.go:40-58 | both transition graphs |
| RolloutWitnesses.RetryDiverges | internal/runtime/application/service.go:437-487 | a reachable world in which a retry after the push is refused for ever, whatever hash the repository offers |
| RolloutWitnesses.OvertakenForever | internal/runtime/application/status.go:73-107 | a reachable world in which whatever is first pushed for a prepared release is rejected by the observer at every later time |
| RolloutWitnesses.SupersededReady | internal/runtime/application/status.go:211-237 | a reachable world in which a ready report leaves its environment naming a release that is not active, and none that is |
| RolloutWitnesses.ReusedKeyInternal | internal/runtime/application/service.go:107-148 | a reachable world and a request whose replay reports an internal error |
| ControlPlaneStore.Tx.GetCurrentPlacement | internal/runtime/memory/store.go:251-258 | the environment's current placement, in any map order |
| ControlPlaneStore.Tx.FindReleaseByIdentity | internal/runtime/memory/store.go:304-311 | the release carrying an identity, in any map order |
| ControlPlaneStore.Tx.ResizePlacement | internal/runtime/application/service.go:78-105 | the resize exactly as specified |
| ControlPlaneStore.Tx.PlaceEnvironment | internal/runtime/application/service.go:384-406 | the first placement exactly as specified |
| ControlPlaneStore.Tx.LocateCell | internal/runtime/application/service.go:324-342 | the sticky placement's cell or the scheduler's choice |
| ControlPlaneStore.Tx.InsertNewRelease | internal/runtime/application/service.go:407-420 | a normalised, validated release and its idempotency record, or a refusal |
| ControlPlaneStore.Tx.CreateRelease | internal/runtime/application/service.go:314-421 | the write transaction exactly as specified |
| ControlPlaneStore.Tx.RollBack | internal/runtime/application/service.go:693-732 | the rollback's write transaction exactly as specified |
| ControlPlaneStore.Tx.PrepareDeployment | internal/runtime/application/service.go:438-462 | one deployment per release, remembering the release it replaces |
| ControlPlaneStore.Tx.RecordGitCommit | internal/runtime/application/service.go:489-534 | the record transaction exactly as specified |
| ControlPlaneStore.Tx.MarkArgoSyncing | internal/runtime/application/status.go:118-134 | the transaction exactly as specified |
| ControlPlaneStore.Tx.MarkRollingOut | internal/runtime/application/status.go:136-178 | the transaction exactly as specified |
| ControlPlaneStore.Tx.SupersedeOthers | internal/runtime/application/status.go:216-226 | every other active release of the environment gives way, in any order |
| ControlPlaneStore.Tx.ApplyObservedStatus | internal/runtime/application/status.go:180-270 | the transaction exactly as specified; RolloutOutcomes.ReadyAccepted, ReadyLeaves, DegradedReport and OtherReport say for every phase what is accepted and left |
| ControlPlaneStore.Repository.Commit | internal/runtime/gitops/repository.go:79-131 | a write-once index: the same content returns the first commit, other content is refused |
| ControlPlaneStore.Repository.FindByRelease | internal/runtime/gitops/repository.go:133-158 | the indexed commit, refused for another cell |
| ControlPlaneStore.Service.ReplayCreateRelease | internal/runtime/application/service.go:107-148 | the read transaction exactly as specified |
| ControlPlaneStore.Service.CreateRelease | internal/runtime/application/service.go:277-423 | normalise, replay, size and check the policy, then the write transaction or nothing; RolloutOutcomes.RejectedArtifact and AllowedArtifact say when the policy decides |
| ControlPlaneStore.Service.DeployRelease | internal/runtime/application/service.go:437-487 | prepare, push and record, with a stop possible right after the push |
| ControlPlaneStore.Service.ReconcileGitOps | internal/runtime/application/service.go:536-568 | recovery exactly as specified |
| MemoryClient.Client.Upsert | internal/runtime/kube/memory.go:127-141 | an upsert keeps what the cluster reports, and every moment stays good |
| MemoryClient.Client.Get | internal/runtime/kube/memory.go:142-151 | the object as it is at the call |
| MemoryClient.Client.List | internal/runtime/kube/memory.go:152-166 | exactly the objects of a kind with the application's label |
| MemoryClient.Client.Delete | internal/runtime/kube/memory.go:359-373 | gone at once, or marked when deletions are deferred |
| MemoryClient.Client.UpsertHTTPRoute | internal/runtime/kube/memory.go:293-304 | the route is replaced, by one that leads to a service of the release just promoted, or else of the recorded active release if anywhere |
| MemoryClient.Client.DeleteHTTPRoute | internal/runtime/kube/memory.go:315-317 | the route is gone or marked |
| MemoryClient.Client.UpdatePaaSAppStatus | internal/runtime/kube/memory.go:345-358 | the status is replaced; a final phase only when it is true, an active release only where traffic is |
| MemoryClient.Client.CompletePendingDeletions | internal/runtime/kube/memory.go:76-96 | the chosen marked objects disappear, nothing else does |
| MemoryClient.UpsertsExactly | internal/runtime/kube/memory.go:127-141 | a deployment or job that is upserted again keeps its status, anything else is replaced |
| MemoryClient.CompletesExactly | internal/runtime/kube/memory.go:76-96 | exactly the marked objects that are chosen disappear, with their marks |
| Cluster.TrafficSafe | internal/runtime/operator/reconciler.go:190-241 | at every moment an enabled route leads to an existing service of a release that some reconciliation promoted after seeing every process of its spec ready |
| Cluster.PromotedWhen | internal/runtime/operator/reconciler.go:190-241 | a release counts as promoted only if up to then a reconciliation stored with its spec saw every process of it ready and promoted it |
| Cluster.TrafficOnCourse | internal/runtime/operator/reconciler.go:190-282 | at every moment traffic is on the recorded active release, or on the release promoted by the reconciliation that wrote the route last, with no status written since |
| Cluster.CandidateOrActiveExactly | internal/runtime/operator/reconciler.go:190-282 | traffic is on the recorded active release or the stored spec's, except exactly after a promotion that routed, was cut off before its status, and was overtaken by another stored spec |
| Cluster.NoTrafficGap | internal/runtime/operator/reconciler.go:111-282 | under the owner's promise there is traffic at every moment from the first recorded active release on, to a service with its deployment, of a release seen ready, on course |
| Cluster.WrittenCarries | internal/runtime/operator/reconciler.go:190-282 | under the promise a route write carries traffic exactly if an active release is on record or its reconciliation has promoted the stored spec |
| Cluster.GapExactly | internal/runtime/operator/reconciler.go:190-282 | under the promise traffic that was there is gone exactly if the last route write since was made with no active release on record by a reconciliation that had promoted none |
| Cluster.StaysActivated | internal/runtime/operator/reconciler.go:190-241 | a recorded active release is only ever replaced by another |
| Cluster.UnmarkedStays | internal/runtime/kube/memory.go:76-96 | however deletions take effect, an object disappears only after its deletion was requested |
| Cluster.WorkloadsKept | internal/runtime/kube/memory.go:76-96 | a promoted release has the deployments of all its processes, unless their deletion was requested after they were seen ready |
| Cluster.MigratesOnce | internal/runtime/operator/reconciler.go:284-318 | a migration whose success is on record is never submitted again while the spec stays on its release, across suspensions |
| Cluster.MigrationGates | internal/runtime/operator/reconciler.go:106-145 | a deployment, and with one spec per release a service, of a release with a migration exists only if up to then that migration's job was there and had succeeded |
| Cluster.MigratedWhen | internal/runtime/operator/reconciler.go:284-318 | a release counts as migrated only if its job was there and had succeeded |
| Cluster.TearDownInOrder | internal/runtime/operator/reconciler.go:379-572 | tear-downs delete workloads only without a route, and announce a final phase only when nothing is left |
| Operator.Reconciler.RolloutDeployment | internal/runtime/operator/reconciler.go:150-163 | the process's deployment is in place and its report read back |
| Operator.Reconciler.RolloutService | internal/runtime/operator/reconciler.go:164-174 | the process's service is in place |
| Operator.Reconciler.RolloutHpa | internal/runtime/operator/reconciler.go:175-187 | an autoscaler exactly where the process may grow |
| Operator.Reconciler.RolloutProcesses | internal/runtime/operator/reconciler.go:147-188 | every process has what it asks for; the reports are added up |
| Operator.Reconciler.AllProcessesReady | internal/runtime/operator/reconciler.go:574-583 | ready only if every process was seen ready in this reconciliation, and in calm weather exactly if all report ready; a failed read counts as not ready |
| Operator.Reconciler.RouteToActive | internal/runtime/operator/reconciler.go:244-282 | routes back only to a service labelled for the application and the recorded active release, and always when that service is in place; otherwise the route is switched off |
| Operator.Reconciler.EnsureMigration | internal/runtime/operator/reconciler.go:284-318 | ready only without a migration or after its success; unless a success is on record the job is submitted first, anew if there was none |
| Operator.Reconciler.RefuseConflict | internal/runtime/operator/reconciler.go:69-93 | a changed spec under the same release degrades, whatever traffic there is goes to the recorded active release, and in calm weather the state is exactly that of Outcomes.RefusingAnswers |
| Operator.Reconciler.AwaitMigration | internal/runtime/operator/reconciler.go:111-145 | while the migration is not done whatever traffic there is goes to the recorded active release; in calm weather phase, reason and message are exactly those of Outcomes.MigratingAnswers |
| Operator.Reconciler.AwaitRollout | internal/runtime/operator/reconciler.go:193-238 | while the candidate is not ready whatever traffic there is goes to the recorded active release; in calm weather it is degraded if and only if a process failed, the timeout has passed or a held release is unavailable, with reason and message as in Outcomes.RollingOutAnswers |
| Operator.Reconciler.Hold | internal/runtime/operator/reconciler.go:216-238 | an outcome other than ready keeps the recorded active release, whose service gets all traffic there is; its condition reports that release unavailable exactly when it does not serve; without one there is no traffic |
| Operator.Reconciler.Complete | internal/runtime/operator/reconciler.go:197-207 | promotion after readiness seen in this reconciliation: route before status, and only the route if the operator stops in between |
| Operator.Reconciler.CleanupSuperseded | internal/runtime/operator/reconciler.go:468-471 | removes or marks what other releases left, and nothing the route needs |
| Operator.Reconciler.RolloutRelease | internal/runtime/operator/reconciler.go:147-243 | rollout, promotion and, one reconciliation later, cleanup |
| Operator.Reconciler.ReconcileActive | internal/runtime/operator/reconciler.go:38-243 | with everything ready it ends live; a live state it leaves as it is, up to leftovers |
| Operator.Reconciler.DeleteWorkloads | internal/runtime/operator/reconciler.go:476-527 | every matching object is asked to go, in any order; nothing remaining means nothing is left |
| Operator.Reconciler.MatchingWorkloadsExist | internal/runtime/operator/reconciler.go:529-572 | false only if no matching object is left |
| Operator.Reconciler.ReconcileSuspension | internal/runtime/operator/reconciler.go:433-466 | each calm step leaves exactly the route, objects, phase and condition that Outcomes.Suspends writes out, is final, or leaves less, or leaves something marked for deletion; a final phase is true |
| Operator.Reconciler.ReconcileDeletion | internal/runtime/operator/reconciler.go:379-431 | the same for a deletion, with the policy last, as Outcomes.Removes writes out |
| Operator.Reconciler.Reconcile | internal/runtime/operator/reconciler.go:25-243 | an invalid spec changes nothing; in calm weather a wanted spec is answered exactly as Outcomes.Answers writes out from the stored state, the reports and the time, and a tear-down step as Suspends and Removes do; under any weather the guarantees of the three paths |
| Steering.LiveAgain | internal/runtime/operator/reconciler.go:147-243 | a live state is its own outcome, up to leftovers |
| Steering.CleanedLive | internal/runtime/operator/reconciler.go:468-527 | cleaning up takes nothing the current spec asks for |
| Outcomes.RefusingAnswers | internal/runtime/operator/reconciler.go:69-93 | a conflict: degraded, with the reason that says whether the held release is available, and traffic on it exactly if it is |
| Outcomes.MigratingAnswers | internal/runtime/operator/reconciler.go:106-145 | a pending migration: degraded if and only if a held release is unavailable, the job failed or the timeout has passed, in this order, with the job's message |
| Outcomes.RollingOutAnswers | internal/runtime/operator/reconciler.go:147-238 | an unfinished rollout: degraded if and only if a process failed, the timeout has passed or a held release is unavailable; which reason, message and replica count go with which case |
| Outcomes.FinishedAnswers | internal/runtime/operator/reconciler.go:190-243 | a ready rollout: everything in service, superseded releases cleaned up exactly if it had the traffic before, and nothing of them touched otherwise |
| Outcomes.AdvanceAnswers | internal/runtime/operator/reconciler.go:94-243 | the three together, from what is stored, what workloads report and the time |
| Outcomes.LiveInService | internal/runtime/operator/reconciler.go:147-207 | a live state runs every process, has the route on the route's process, and says so with URL, replicas and condition |
| Outcomes.RouteSuspends | internal/runtime/operator/reconciler.go:379-392 | the first step of a suspension and of a deletion |
| Outcomes.WorkloadsSuspend | internal/runtime/operator/reconciler.go:433-466 | the second step, and the last one of a suspension |
| Outcomes.PolicyRemoves | internal/runtime/operator/reconciler.go:401-431 | the last steps of a deletion |
| OperatorRuns.Operate | internal/runtime/operator/reconciler.go:25-243 | any run under any weather, stopped and restarted anywhere, tears down in order; with immediate deletion its traffic is safe and on course, its workloads come after their migrations, and it has gaps only as GapExactly says |
| OperatorRuns.Converge | internal/runtime/operator/reconciler.go:147-243 | with its migration done or its job succeeding, two reconciliations reach the live state without leftovers and a third changes nothing |
| OperatorRuns.TearDown | internal/runtime/operator/reconciler.go:379-572 | with every deletion completing eventually a tear-down reaches its final phase, and nothing is left |
| OperatorWitnesses.PromotionOvertaken | internal/runtime/operator/reconciler.go:190-241 | a run whose traffic is neither on the recorded active release nor on the stored spec's |
| OperatorWitnesses.FirstPromotionLost | internal/runtime/operator/reconciler.go:190-241 | a run under the owner's promise that loses the traffic of a first promotion that was cut off |
| OperatorWitnesses.MigrationRepeated | internal/runtime/operator/reconciler.go:284-318 | a run with one unchanged spec in which a migration succeeds and is later submitted anew |
| OperatorWitnesses.MarkedServiceDisappears | internal/runtime/kube/memory.go:76-96 | a run with deferred deletion that ends with an enabled route to a service that is gone |

## Left out

- HTTP, OIDC and JSON handling, membership, authorisation, agent governance and the source domain: one-branch guards or plumbing.
- PostgreSQL stores, the real Kubernetes and GitLab clients and Git itself: external; transactions are those of the memory stores, the repository is its release index.
- Row versions inside a transaction: a transaction is atomic, so its own optimistic locks cannot fail; timestamps and row identifiers that nothing reads are dropped.
- Trimming of identifiers, case folding beyond ASCII, time zones, name truncation and digests: identifiers are already trimmed, lower-casing is ASCII, names and digests are injective values.
- Pod specs, security contexts, resource quantities and the unit check of the operator: constants of a release's spec, represented by the spec itself.
- Fixed texts of the operator's conditions: a reason stands for its text, so a change of text under the same reason does not renew the time of a condition.
- Metering.CalculateRuntimeUnitSeconds: the per-second form and the lower bounds are stated for windows up to the longest duration (292 years), because longer segments saturate in the source's subtraction.
- Ledger.Store.Reconcile: an overflow of an intermediate sum is related to the magnitudes of the window's events, not to a listing order.
- Quota: plan, subscription and account commands act on values; subscriptions are keyed by their tenant, of which the store allows one each.
- Lookup errors of the invoice preview, build usage, commercial audit and alert records: they would only add easy members.
- Lease exclusivity of the outbox: the source does not check who holds a lease, so it is not claimed.
- Outbox.ExactlyOnceEffect: a publisher's acknowledgement is taken to mean that the consumer's inbox transaction committed, which the publisher interface does not promise; exactly once after publication rests on that.
- Deployments and commits are keyed by their release, of which the store allows one each; the check that a deployment belongs to its release then has no counterpart.
- Rows of applications, and the idempotency of application and environment creation: an environment carries its tenant and application.
- Length limits and the validity of generated hostnames: a hostname is built from its parts without a digest and always exists.
- Draining and retiring cells and placements, application lifecycle changes and explicit placement migration: no command of the service completes them.
- The URL, replica count and failure text of a deployment: nothing else depends on them.
- ControlPlaneStore.Service.CreateRelease: nothing runs between its read and its write transaction; RolloutTheorems.SameCommandSameRelease allows any run there.
- ControlPlaneStore.Service.DeployRelease: takes the release that the release command answered with, so that command is a separate call.
- The four object kinds share one map keyed by kind and name, so the client has one upsert, get, list and delete for them; updates in place and aliasing of the four maps are not separate.
- Metadata of the route and the policy, annotations, owner references and the constant texts of conditions; a condition's own text is kept only where a workload supplies it.
- The clock is read once per reconciliation.
- The stored application is the one a reconciliation starts from: a spec stored meanwhile takes effect with the next one.
- Cluster.TrafficSafe: that the deployment behind the service is there too is stated under the owner's promise only (Cluster.NoTrafficGap); otherwise it is there unless its deletion was requested (Cluster.WorkloadsKept). Like all theorems about traffic and the migration gate it assumes immediate deletion; with deferred deletion a service marked before a resumption can disappear under its route (OperatorWitnesses.MarkedServiceDisappears), an unmarked one cannot (Cluster.UnmarkedStays), and beyond that only the tear-down theorems are stated.
