# Urth control plane: a verified model

Urth schedules synthetic probes. A run (`Result`) is created together with an outbox row, a relay
publishes the row to a work-queue broker, a worker claims the run through a version-guarded write,
executes the probe and reports, and a reconciler repairs whatever got lost on the way. This project
models that system in Dafny and proves what it promises. It also models the two other parts of the
repository whose behaviour is intricate: the choice of a runner, and the `.http` script reader and
writer.

## How it is organised

| file | what it holds |
|---|---|
| `Options`, `Domain`, `Tables` | records, pure decisions, and the atomic writes to the three tables |
| `Ledger`, `System` | the protocol as a state machine: every party may take any enabled step at any time |
| `LedgerInv`, `LedgerProof`, `SystemProof` | the invariant and the proof that each step keeps it |
| `Safety` | the theorems, each over every run of the system |
| `Records`, `Claims`, `History` | what each change of a stored value comes to, field by field, and the proof that every step of every run makes exactly these changes, exactly when it should |
| `TwoProcesses` | when a run is executed by one handler at a time: the exact condition, with the run that fails without it |
| `Recreation` | withdrawals after the broker's stream was recreated: the exact condition, with the run that fails |
| `Opening`, `Rewrite`, `Misreport`, `Removal` | how the concrete runs begin, and three more that show what the program does not promise |
| `Store`, `Reconciler`, `Relay` | the tables, the scan and the relay as imperative code, proved against the steps |
| `Handling`, `Worker` | one message in one worker, and the concurrency of a worker process |
| `Labels` | why the names derived from runs do not collide |
| `Placement` | ranking, weighted draw and bursts |
| `HttpText`, `HttpParser`, `HttpReader` | the script reader: text operations, line machine, and the object that runs it |
| `HttpExpand`, `HttpLines` | what variables and each kind of line mean, told by what the text looks like rather than by the code |
| `HttpWriter`, `HttpConcat`, `HttpRoundTrip`, `HttpExamples` | the writer, joining scripts, print-then-parse, and the scripts that fall outside |

In the protocol a "load, decide, guarded write" is never atomic. A load may be answered by any
version of the record ever committed (`Ledger.Loaded`), so every write may come arbitrarily late
and only the version guard, the unique keys and the time windows protect the record. Relay leases
are not exclusive, any message may be delivered again to any worker, a publication may be stored
twice or recognised as a duplicate, and every answer may be lost. Processes may share a worker
identity, an administrator may remove an outbox row at any time, and the broker's stream may be
recreated, after which it numbers its messages from one again.

## Where the program and its comments differ

`pkg/urth/reconcile.go:75-80` calls a terminal run immutable history. Nothing takes a run out of a
terminal state, and expired and stranded runs are indeed never rewritten, but `UpdateStatus`
(`pkg/urth/service.go:1338-1377`) compares the version and the capability and not the state, so a
worker that reports again, presenting the version its own first report left, changes the outcome
of a completed run. `Rewrite.CompletedIsRewritten` is such a run; `Safety.FinishedChangesIff` says
exactly when a finished record changes.

A dead-letter report is filed under its event and reason alone, and the run and version it names
are not compared with either (`pkg/urth/service.go:2171-2234`,
`pkg/urth/dispatch_failure.go:286-296`). A report filed first under a dispatch's name but about no
run, or about another version, strands nothing and makes that dispatch's own report a success that
strands nothing either; the worker then removes the message of a run that is still pending,
against `pkg/worker/report.go:37-46`. `Misreport.MisreportedRunIsLost` is such a run,
`Safety.ReportSettlesIff` says exactly when a report strands its run, and `Safety.SafeQueueExit` and
`Safety.CandidQueueExit` what follows for the queue.

The set of runs in flight that keeps a redelivered message from being executed again belongs to a
process (`pkg/worker/inflight.go:9-31`), while a claim is re-issued to a worker identity
(`pkg/urth/service.go:1010-1014`), and a second process registering under a name already taken is
given the identity of the first (`pkg/urth/service.go:1917-1931`; the default name is the user's and
the host's, `pkg/runner/name.go:22-40`). Two such processes may execute one run at once, as
`TwoProcesses.SharedIdentityFails` shows for any identity; `TwoProcesses.OneExecutionIff` says that
this is the only way: every run is executed by one handler at a time if and only if no two processes
registered as one worker of a runner.

A withdrawal and a delivery advisory name a message by its sequence alone, and a recreated stream
uses its sequences again (`pkg/urth/dispatch_advisory.go:72-90`, `pkg/natsq/reconcile.go:44-73`). So
the sweep, meaning the message of a run that is over, may take that of a pending one, against the
comment at `pkg/natsq/reconcile.go:37-43`. `Recreation.WrongMessageWithdrawn` is such a run of the
system, and `Recreation.PreciseIff` says that withdrawals are precise if and only if the stream is
never recreated; `Safety.WithdrawalIsPrecise` and `Safety.SequencesIdentifyRows` say row by row which
are.

An unpublished dispatch is the relay's, and its run is not to be expired
(`pkg/urth/reconcile.go:604-635`). The scan decides that on the row it read; when the row is removed
and written again before the expiry, a run is expired whose dispatch waits to be published.
`Removal.UnpublishedRunExpires` is such a run, and `Safety.PendingExpiryIsSafe` says that it takes a
removal.

The relay's delay is `min(max, base·2^(n−1))` only while doubling stays inside 64 bits
(`pkg/urth/outbox_relay.go:269-286`); the settings are not checked. `Relay.ExactIff` says for which
settings it is exact at every attempt, and `Relay.LargeLimitFails` gives an input where it is not.

The writer joins the values of a header with `"; "`, so a request whose header has several values
reads back with one. `HttpRoundTrip.SurvivesIffSingleValued` says exactly which requests survive,
and `HttpExamples.RepeatedHeaderIsLost` parses a script that does not.

A fleet of one eligible runner is not measured (`Placement.Choose`); the burst theorem is about the
measured choice, so it speaks of fleets of two or more, and holds of the ranking for any size.

Joining two scripts with a bare `###` needs no condition on the variables the first declares; it
needs only that the first does not end inside a response handler.

## What is assumed

- The store gives a new record a UID never used before, and version 1.
- Scenario names are not empty.
- All parties read one clock, and a report reads it after loading the run it amends.
- A worker's session names the runner whose queue it consumes. A process restarted after a crash may keep its number, and has forgotten what it held.

## Model

| member | source | states |
|---|---|---|
| `Safety.SingleAuthority` | pkg/urth/service.go:1010-1159 | over every run of the system, all capabilities ever issued for one run agree on worker, dispatch, deadline, version and probe, re-claims and legacy Auth included |
| `Safety.ClaimsRespectPlacement` | pkg/urth/service.go:1078-1089 | a run placed on a runner is claimed through its dispatch only on that runner |
| `Safety.OneExecution` | pkg/worker/inflight.go:9-53 | in every reachable state all handlers executing one run are of one worker identity, and no process has two |
| `TwoProcesses.OneExecutionIff` | pkg/worker/consume.go:231-259 | for any assignment of identities to processes: at most one handler executes a run, in every state of every run, if and only if no two processes share the identity of a worker of some runner |
| `TwoProcesses.SharedIdentityFails` | pkg/urth/service.go:1917-1931 | for any two processes of one identity, a run of the system in which both execute one run |
| `Safety.DeadlineBounded` | pkg/urth/service.go:1125-1134 | every deadline is at most the time of the claim plus the server's maximum |
| `Safety.CapabilityOutlivesDeadline` | pkg/urth/service.go:1258-1285 | a capability outlives its run's deadline by the upload grace, less under a second |
| `Domain.ClaimDecides` | pkg/urth/service.go:1016-1159 | a claim is granted if and only if the claimant is entitled to the run, whatever the order of refusals; a grant holds the run for exactly the time asked, or for the server's limit when nothing or more was asked, changes nothing else, and makes the same claim a re-claim |
| `Claims.ClaimMeans` | pkg/urth/service.go:1078-1159 | a claim on the record as it stands: granted exactly to whom it may be or already is, the record and the capability then field by field; refused, it is unchanged, or stranded when there is nothing to execute |
| `History.EveryRunRecord` | pkg/urth/service.go:1016-1377 | in every run of the system: exactly which steps create, delete and change the record of a run and exactly when, and every field it then has, deadline, outcome and end included |
| `History.EveryCapability` | pkg/urth/service.go:1236-1290 | in every run of the system: exactly which claims are answered with a capability, and every field of it |
| `History.EveryRow` | pkg/urth/outbox_store.go:46-168 | in every run of the system: exactly which steps write, lease, publish, hold back, release, retire, expire and remove an outbox row, and every field it then has |
| `History.EveryRecord` | pkg/urth/dispatch_failure_store.go:31-320 | in every run of the system: exactly when a dead-letter record is made, linked to a retry and resolved, and every field it then has |
| `History.EveryMessage` | pkg/worker/consume.go:205-346 | in every run of the system: what a published message says, and exactly which steps take one out of the queue |
| `History.EveryHandler` | pkg/worker/consume.go:205-413 | in every run of the system: what each answer, and each failure to get one, makes of a handler, and exactly when it holds its run and ends |
| `Domain.ClampRunDuration` | pkg/urth/service.go:1294-1304 | the granted duration is positive, never above the limit, and the request itself when that is allowed |
| `Domain.NumericDate` | pkg/urth/service.go:1254-1264 | an expiry keeps whole seconds and never moves later |
| `Safety.NoLostDispatch` | pkg/urth/service.go:795-832 | in every reachable state a pending run is at its creation version and has exactly one outbox row, not retired and for its own runner, except exactly while a removal of that row has not been made good |
| `Safety.MissingIffRemoved` | pkg/urth/reconcile.go:604-615 | a row once written is missing if and only if it was removed and not written again since |
| `Safety.ReenqueueRestores` | pkg/urth/reconcile.go:604-649 | in every reachable state, a stale pending run whose row is missing can be scanned and its row written again, live and on its own runner, and no other row or run changes |
| `Safety.ReenqueueIsFaithful` | pkg/urth/reconcile_store.go:294-308 | a repair, however late, never overwrites a row, changes no run, and writes only a removed row with the runner its dispatch always had |
| `Safety.LateRowIsHarmless` | pkg/urth/service.go:1016-1159 | once a run has moved on, no claim through a row written for it changes any table or authorises anyone the loaded record does not already name |
| `Safety.TerminalIsAbsorbing` | pkg/urth/reconcile.go:75-88 | no step takes a finished run back, and none returns a run to pending |
| `Safety.ReportLandsOnRunning` | pkg/urth/service.go:1338-1377 | a report presenting the version its claim granted lands only on the running run it was granted for |
| `Safety.ReportLandsOnce` | pkg/worker/execute.go:165-172 | and at most once |
| `Safety.FinishedChangesIff` | pkg/urth/service.go:1338-1377 | short of deletion, a finished record changes if and only if a status report passes the version guard |
| `Safety.FrozenForever` | pkg/urth/reconcile_store.go:227-292 | with at least the default grace, an expired or stranded record never changes again |
| `Rewrite.CompletedIsRewritten` | pkg/urth/service.go:1346-1354 | a run of the system in which a completed run's outcome is overwritten |
| `Safety.SafeQueueExit` | pkg/worker/consume.go:205-346 | over all reports anyone may file, the message of a pending run leaves the queue only by age, as a local duplicate, after a report refused for ever, after a report that found a record under its name about something else, or because the stream was recreated: with its messages, or through a late step that meant an earlier stream |
| `Safety.ReportSettlesIff` | pkg/urth/dispatch_failure_store.go:45-94 | a worker's report leaves its run pending if and only if it was pending and a record was already on file under that name |
| `Safety.CandidQueueExit` | pkg/worker/report.go:37-91 | when every report filed under a dispatch's name was about that dispatch, no filed report costs a pending run its message |
| `Misreport.MisreportedRunIsLost` | pkg/urth/dispatch_failure_store.go:50-55 | a run of the system in which one does: the message is removed and the run stays pending |
| `Safety.StaleIsTrue` | pkg/worker/consume.go:393-413 | a worker that discards a message as stale is right, then and for ever |
| `Safety.SequencesAddressTheirOwn` | pkg/natsq/publisher.go:51-63 | a stored sequence addresses a message of the row's own event, in the stream it was marked in |
| `Safety.SequencesIdentifyRows` | pkg/urth/dispatch_advisory.go:72-90 | two rows that store one sequence are one row if and only if they were marked in one stream |
| `Safety.WithdrawalIsPrecise` | pkg/natsq/reconcile.go:44-73 | a withdrawal takes the one message at its sequence; while the stream is the one the row was marked in, that is the message of the dispatch found stale, whose run is over |
| `Recreation.PreciseIff` | pkg/natsq/reconcile.go:44-73 | in all runs with at most n recreations of the stream every withdrawal takes its own dispatch's message, if and only if n is zero |
| `Recreation.WrongMessageWithdrawn` | pkg/urth/dispatch_advisory.go:72-90 | a run of the system in which two rows store one sequence and the message of a pending run is withdrawn for one that was deleted |
| `Safety.PendingExpiryIsSafe` | pkg/urth/reconcile.go:616-669 | a pending run whose row was never removed is expired only after publication, and any pending run whose publications fell within the grace only when the queue holds none of its messages |
| `Removal.UnpublishedRunExpires` | pkg/urth/reconcile.go:616-669 | a run of the system in which a row is removed and written again, and the run expired while its row waits to be published |
| `Safety.LeaseOutlivesCapabilities` | pkg/urth/reconcile.go:516-547 | a running run is expired strictly after every capability ever issued for it, later ones included, has expired |
| `Safety.LegacyRunsAreNotExpired` | pkg/urth/reconcile_store.go:113-118 | the lease of a run taken without a deadline never elapses |
| `Safety.FailureIsSettled` | pkg/urth/dispatch_failure_store.go:31-94 | a record never changes what it reports; and if it was filed about a run that existed, at no version or its creation version, that run is not pending then or ever after |
| `Safety.ReportIsIdempotent` | pkg/urth/dispatch_failure_store.go:45-55 | a report repeated under a name on file, by a worker or the control plane after either, changes nothing but what its own handler knows, whatever it says and whatever came between |
| `Safety.RetryAtMostOnce` | pkg/urth/dispatch_failure_store.go:201-303 | any retries and resolutions of one failure leave at most one retry run, dispatched and linked |
| `Safety.RetryIsFaithful` | pkg/urth/service.go:703-720 | along any chain of retries every claim hands out the probe captured when the first run was created |
| `Safety.RetryKeepsPlacement` | pkg/urth/dispatch_failure_store.go:248-255 | in every reachable state a retry is dispatched to, and while unclaimed placed on, the runner of a committed record of the run its failure names; unless that was nowhere, a relay holding its row may publish it |
| `Safety.AttemptsCoverPublications` | pkg/urth/outbox_store.go:84-111 | the attempt count of a row never removed covers every publication begun, those the broker never answered and relay crashes included |
| `LedgerInv.GuardMeansUnchanged` | pkg/urth/reconcile_store.go:247-268 | passing the version guard means the whole stored record is the one that was loaded |
| `LedgerInv.WriteKeeps` | pkg/urth/reconcile_store.go:247-268 | any legal transition made from any earlier load keeps the invariant |
| `LedgerProof.StepKeeps` | pkg/urth/service.go:1016-1159 | every step of the ledger keeps the invariant and only moves records forward |
| `SystemProof.SysStepKeeps` | pkg/worker/consume.go:205-346 | so does every step of relays, broker, sweep and workers |
| `Store.Store.Update` | pkg/urth/service.go:1143-1154 | the guarded write applies and bumps, or changes nothing |
| `Store.Store.CreateRun` | pkg/urth/service.go:658-832 | creation leaves what the ledger's creation step leaves, or nothing when refused; the run captures the scenario as it is, and has its row exactly when placed |
| `Store.Store.ClaimRun` | pkg/urth/service.go:1016-1159 | the claim with its early returns answers and writes what the ledger's claim step does; the record it leaves and the capability it answers with are given field by field, the deadline by the time asked |
| `Store.Store.MarkUnschedulable` | pkg/urth/service.go:1211-1235 | only a pending run is retired, through the guard |
| `Store.Store.Auth` | pkg/urth/service.go:914-987 | the deprecated claim competes through the same guard |
| `Store.Store.UpdateStatus` | pkg/urth/service.go:1338-1377 | accepted if and only if version and capability match, and then completed |
| `Store.Store.ExpireRun` | pkg/urth/reconcile_store.go:227-292 | expiry, recorded as a timeout, and retirement of the run's unpublished row commit together, or nothing does |
| `Store.Store.EnqueueDispatch` | pkg/urth/reconcile_store.go:294-308 | the row is written exactly when its event has none |
| `Store.Store.RetireDispatch` | pkg/urth/reconcile_store.go:378-396 | the row is retired once and its lease goes with it |
| `Store.Store.MarkPublished` | pkg/urth/outbox_store.go:122-145 | keyed by the row alone; a missing row is reported |
| `Store.Store.MarkFailed` | pkg/urth/outbox_store.go:147-168 | the lease is released and the row held back |
| `Store.Store.RecordDispatchFailure` | pkg/urth/dispatch_failure_store.go:31-94 | one record per event and reason, whatever run the report names, with the stranding in the same transaction; only an empty event is refused |
| `Store.Store.StrandRun` | pkg/urth/dispatch_failure_store.go:119-164 | only a pending run of the expected version is stranded |
| `Store.Store.RetryDispatchFailure` | pkg/urth/dispatch_failure_store.go:201-303 | exactly one of competing retries commits: a new run with the input and the runner of the old one, its row, and the link; a loser's are rolled back |
| `Store.Store.ResolveDispatchFailure` | pkg/urth/dispatch_failure_store.go:306-320 | resolution goes through the failure's own guard |
| `Reconciler.Reconciler.ExpireAbandonedRuns` | pkg/urth/reconcile.go:516-547 | the pass leaves the tables and the count of the expiries that applied |
| `Reconciler.Reconciler.ReconcilePendingDispatches` | pkg/urth/reconcile.go:616-669 | the pass treats each candidate by the state of its dispatch |
| `Reconciler.Reconciler.RetireStaleDispatches` | pkg/urth/reconcile.go:682-721 | a refused withdrawal is a failure and keeps its row, a granted one takes the message, and all others are retired |
| `Reconciler.JoinDispatches` | pkg/urth/reconcile_store.go:188-216 | each pending run is paired with the row of its own UID and version, or with none |
| `Reconciler.ExpirePassExpires` | pkg/urth/reconcile.go:516-547 | every listed run that still stands is expired as timed out at the time of the pass, one version further and otherwise as loaded, and nothing else changes |
| `Reconciler.PendingPassRepairs` | pkg/urth/reconcile.go:604-669 | a relay's row is left alone, a missing one is written with the run's own fields, a run whose message is lost is recorded as timed out, and nothing else changes |
| `Reconciler.ListedIffEnabled` | pkg/urth/reconcile_store.go:104-186 | a run is listed as lapsed or overdue exactly when the protocol allows its expiry or its scan, by the deadline and the grace, or by its age |
| `Reconciler.SweptIffEnabled` | pkg/urth/reconcile_store.go:323-376 | the sweep lists, and asks to withdraw, exactly what the protocol's sweep may |
| `Reconciler.PendingPassCounts` | pkg/urth/reconcile.go:627-669 | the report counts every lost message as an expiry and every missing row as a re-dispatch |
| `Reconciler.ExpirePassCounts` | pkg/urth/reconcile.go:516-547 | the report counts every expiry |
| `Reconciler.ExpiriesAddUp` | pkg/urth/reconcile.go:516-547 | disturbed or not, an expiry counts exactly when it finds its run at the version it was loaded at |
| `Reconciler.SweepRetires` | pkg/urth/reconcile.go:682-721 | every stale row is retired except one whose message could not be withdrawn; no run changes |
| `Reconciler.SweepWithdraws` | pkg/urth/reconcile.go:682-729 | a message leaves the queue if and only if some stale dispatch withdrew it |
| `Reconciler.RetiredMeansWithdrawn` | pkg/urth/reconcile.go:696-716 | a row is never retired while its withdrawable message is still queued |
| `Reconciler.ScanClears` | pkg/urth/reconcile.go:388-433 | an undisturbed scan, whatever its batches cover and whichever withdrawals succeed, takes exactly what it listed out of the backlog and makes no new work |
| `Reconciler.ScanSettles` | pkg/urth/reconcile.go:388-433 | so one that covers the backlog leaves nothing to do |
| `Relay.BackoffFor` | pkg/urth/outbox_relay.go:269-286 | the delay is what doubling in 64 bits gives, and min(max, base·2^(n−1)) for a positive base whose doublings below the limit do not reach 2^63 |
| `Relay.ExactIff` | pkg/urth/outbox_relay.go:269-286 | for all 64-bit settings: the delay is min(max, base·2^(n−1)) at every attempt if and only if the base is zero, or positive with no doubling below the limit reaching 2^63 |
| `Relay.BackoffIsDelay` | pkg/urth/outbox_relay.go:276-285 | at one attempt, it is so when the steps up to that attempt do not overflow |
| `Relay.SmallLimitsAreExact` | pkg/urth/outbox_relay.go:269-286 | every limit of up to 2^62 is safe, whatever the base |
| `Relay.LargeLimitFails` | pkg/urth/outbox_relay.go:109-115 | settings for which the second delay is minus 2^63 |
| `Relay.OverflowMayCancel` | pkg/urth/outbox_relay.go:276-285 | settings for which a step overflows and a later delay is right again |
| `Relay.DelayClimbs` | pkg/urth/outbox_relay.go:269-286 | the delay never shrinks, at most doubles, and stays at the limit |
| `Relay.DelayReachesLimit` | pkg/urth/outbox_relay.go:269-286 | and reaches the limit |
| `Relay.FoundWhenDue` | pkg/urth/outbox_store.go:55-69 | the query for work answers exactly the rows still to be published, not held back and in nobody's lease, earliest first, as far as the batch reaches |
| `Relay.HeldBackUntil` | pkg/urth/outbox_store.go:147-168 | a refused row is in a query's answer if and only if its delay is over |
| `Relay.LeasedUntil` | pkg/urth/outbox_store.go:62-66 | a leased row is in no answer before its lease runs out |
| `Relay.Relay.Claim` | pkg/urth/outbox_store.go:46-120 | exactly the due rows of the batch are leased, each with one more attempt, and handed out as stored |
| `Relay.Relay.Publish` | pkg/urth/outbox_relay.go:192-225 | the outcome of one publication is recorded against its own row |
| `Relay.Relay.RunOnce` | pkg/urth/outbox_relay.go:159-177 | for all settings, every row of the batch burns one attempt and ends released, published or held back by the delay its count asks for; one failure stops no other; no other row changes |
| `Handling.Worker.Handle` | pkg/worker/consume.go:205-260 | a run is executed exactly when its message is readable, ours, not held and granted; the in-flight set is given back; the message is settled as specified |
| `Handling.Worker.ApplyDisposition` | pkg/worker/consume.go:287-346 | execution follows an accepted claim and no other |
| `Handling.Worker.Terminate` | pkg/worker/report.go:157-169 | a message is removed only when its failure is on record or will be refused for ever |
| `Handling.StatusDecidesRemoval` | pkg/worker/consume.go:393-413 | over all status codes: only a conflict removes a message without a report, and nothing but a client error removes one |
| `Handling.OutcomeOfStatus` | pkg/worker/consume.go:393-413 | the outcome of every status code: 409 is stale, 400, 401, 403 and 404 are final, everything else is tried again |
| `Handling.DispositionsSurviveHttp` | pkg/apiserver/routes.go:80-90 | each disposition reaches the worker as its own outcome through its status code |
| `Handling.RemovedMeansSettled` | pkg/worker/report.go:47-91 | exactly when a message leaves the queue through a worker |
| `Handling.LeftAloneMeansAbandoned` | pkg/worker/consume.go:287-346 | a message is left to the broker's timer exactly when the worker was stopped while claiming |
| `Worker.InFlightRuns.Acquire` | pkg/worker/inflight.go:39-53 | granted exactly when nobody in the process holds the run |
| `Worker.InFlightRuns.Release` | pkg/worker/inflight.go:57-62 | gives up that run and no other |
| `Worker.Backpressure` | pkg/worker/consume.go:53-189 | in every run of the process, occupied slots are unfinished handlers plus the loop's reservation, within the limit; the in-flight set stays within the same bound; nothing is leaked |
| `Worker.NeverTwice` | pkg/worker/consume.go:227-252 | one process never has two live executions of one run |
| `Worker.NeverWedged` | pkg/worker/consume.go:150-170 | the semaphore never wedges the loop |
| `Worker.EveryRoutine` | pkg/worker/consume.go:205-260 | in every run of the process each handler keeps its message and takes exactly its own steps, in order |
| `Worker.SurplusIsHanded` | pkg/worker/consume.go:150-170 | a message delivered beyond the slot reserved for it stays in hand until it has a handler, unless the process shuts down |
| `Worker.ShutdownIsPrompt` | pkg/worker/consume.go:53-115 | once asked to stop, the loop stops consuming without waiting for any handler |
| `Labels.SafeValueIsLabel` | pkg/urth/labels.go:25-41 | the result is a label value or empty, and label values are unchanged |
| `Labels.SafeValueIsIdempotent` | pkg/urth/labels.go:25-41 | sanitising twice is sanitising once |
| `Labels.SafeValueIs` | pkg/urth/labels.go:25-41 | character by character: a dash for everything outside the alphabet, and exactly the ends that are no letter or digit cut |
| `Labels.NamesSpelledOut` | pkg/urth/dispatch_failure.go:247-249 | the stored names spelled out: UID, decimal version and reason, with dots between |
| `Labels.EventNameInjective` | pkg/urth/outbox.go:136-138 | the event name determines run and version |
| `Labels.FailureNameIsVerbatim` | pkg/urth/dispatch_failure.go:247-249 | for UIDs in the label alphabet the record name is not altered |
| `Labels.FailureNameInjective` | pkg/urth/dispatch_failure.go:247-249 | and determines run, version and reason |
| `Labels.FailureNameForm` | pkg/urth/labels.go:25-41 | for any UID at all, the record name is what mapping and trimming leave of the UID, then version and reason |
| `Labels.SharesNameIff` | pkg/urth/dispatch_failure.go:247-249 | a failure shares its name with another whose UID is in the alphabet if and only if its own UID is outside it and something is left of it |
| `Labels.ForeignUidsCollide` | pkg/urth/labels.go:25-41 | an instance |
| `Placement.SelectRunner` | pkg/urth/placement.go:390-472 | while somebody has room: one with the most of it, among those the smallest share of its workers taken, among those the lowest UID, in counts; otherwise the runner the draw falls on |
| `Placement.FirstIsBest` | pkg/urth/placement.go:411-424 | ranking first means exactly that, in counts |
| `Placement.FirstByRank` | pkg/urth/placement.go:411-424 | the chosen runner ranks before every other candidate, which `FirstIsBest` puts in counts |
| `Placement.BeforeIsTotal` | pkg/urth/placement.go:412-422 | the ranking decides between any two runners |
| `Placement.BeforeIsTransitive` | pkg/urth/placement.go:412-422 | and is consistent |
| `Placement.WeightsForDraw` | pkg/urth/placement.go:441-462 | the weights of the first tier that has any, with their total |
| `Placement.Draw` | pkg/urth/placement.go:464-471 | a draw below the total lands on the runner whose stretch it falls in; the fall-through is for draws outside |
| `Placement.WeightedDrawIsExact` | pkg/urth/placement.go:436-471 | of all possible draws a runner is selected by as many as it has workers online, or registered when nobody has any online, or by one; each draw selects one runner |
| `Placement.Place` | pkg/urth/placement.go:290-325 | a run is placed if and only if its requirements parse and match an active runner, and carries the reason otherwise; each regime is taken exactly in its case |
| `Placement.Choose` | pkg/urth/placement.go:334-354 | nothing to decide, no counts to decide on, or the ranked selection |
| `Placement.EligibleIffActive` | pkg/urth/placement.go:262-281 | somebody is eligible exactly when a matching runner is active |
| `Placement.EligibleInOrder` | pkg/urth/placement.go:262-281 | the eligible runners are the active ones, in the order they matched |
| `Placement.Preview` | pkg/urth/placement.go:475-521 | refuses exactly what placement refuses, for the same reason, and reports the counts and all totals of the eligible runners, with spare capacity exactly when somebody has room |
| `Placement.EnqueueConserves` | pkg/urth/placement.go:156-171 | placing on a runner with room uses one unit of the fleet's spare capacity |
| `Placement.BurstFillsTheFleet` | pkg/urth/placement.go:390-424 | a burst of exactly the spare capacity oversubscribes nobody, fills every runner that had room, stays balanced within one, and is followed by the first saturated placement |
| `HttpParser.TrimIsTrimmed` | pkg/http-parser/parser.go:438-440 | what is left of a line has no white space at its ends |
| `HttpExpand.EveryTextExpands` | pkg/http-parser/parser.go:141-170 | every text is plain stretches and references, and expands to the stretches with the declared value in place of each reference, or fails if and only if a name is not declared, as the first such name says |
| `HttpExpand.ExpandReplaces` | pkg/http-parser/parser.go:141-170 | the same for any division of the text into stretches and references |
| `HttpExpand.DeclaredValueIsUsed` | pkg/http-parser/parser.go:303-358 | a script that declares a variable and uses it in a request line asks for the URL with the value in place |
| `HttpLines.HandlerLineRead` | pkg/http-parser/parser.go:424-431 | inside a handler nothing counts but the closing marker |
| `HttpLines.SeparatorRead` | pkg/http-parser/parser.go:275-287 | three or more number signs end a request and title the next |
| `HttpLines.BlankRead` | pkg/http-parser/parser.go:438-452 | what a blank line does before, behind and at the end of a request |
| `HttpLines.OtherCommentRead` | pkg/http-parser/parser.go:289-301 | a comment without the name marker says nothing |
| `HttpLines.NameCommentRead` | pkg/http-parser/parser.go:289-301 | with it, it names the request |
| `HttpLines.SaysContent` | pkg/http-parser/parser.go:546-577 | white space around a line and a comment behind white space do not count |
| `HttpLines.VariableRead` | pkg/http-parser/parser.go:303-322 | a declaration, its value expanded |
| `HttpLines.VariableRefused` | pkg/http-parser/parser.go:303-322 | when a declaration is malformed or out of place |
| `HttpLines.RequestWordsRead` | pkg/http-parser/parser.go:324-358 | a request line by its number of words: what is remembered, and what is malformed |
| `HttpLines.HeaderRead` | pkg/http-parser/parser.go:360-382 | a header, its value expanded and added behind those of its canonical name; Host in any case is kept aside |
| `HttpLines.HeaderRefused` | pkg/http-parser/parser.go:360-370 | words without a colon are no header |
| `HttpLines.ShortFormRead` | pkg/http-parser/parser.go:494-516 | a bare URL ends the request and starts the next |
| `HttpLines.UrlStartsRequest` | pkg/http-parser/parser.go:505-516 | exactly which single words are bare URLs |
| `HttpLines.HandlerStarts` | pkg/http-parser/parser.go:579-590 | exactly which lines of a body are handlers, and when one stays open |
| `HttpLines.FileReferenceRefused` | pkg/http-parser/parser.go:592-604 | a payload from a file is refused |
| `HttpLines.PayloadRead` | pkg/http-parser/parser.go:388-418 | every other line of a body is payload, expanded |
| `HttpLines.BlockFinishes` | pkg/http-parser/parser.go:209-273 | a block with a target becomes exactly the request it describes, field by field, or is refused at its request line, if and only if the method, the URL or the protocol is not acceptable |
| `HttpLines.BlockRefused` | pkg/http-parser/parser.go:174-207 | a target that does not parse or names no host is refused at its request line |
| `HttpLines.TargetResolves` | pkg/http-parser/parser.go:174-207 | the URL a target and a Host header come to |
| `HttpLines.CrlfReadsBack` | pkg/http-parser/parser.go:621-638 | lines may end in a carriage return and a line feed |
| `HttpReader.ParseScript` | pkg/http-parser/parser.go:621-638 | the loop over lines computes the parse, or its first error, of which `HttpLines` and `HttpExpand` say what they are |
| `HttpReader.RequestParser.OnScriptLine` | pkg/http-parser/parser.go:420-486 | one line moves the object as the line machine moves |
| `HttpReader.RequestParser.OnFinishRequest` | pkg/http-parser/parser.go:209-273 | finishing appends the block's request or reports its error |
| `HttpReader.RequestParser.ResolveTarget` | pkg/http-parser/parser.go:174-207 | the URL a target and a Host header resolve to |
| `HttpReader.RequestParser.OnBodyLineContent` | pkg/http-parser/parser.go:388-418 | the object moves as `HttpLines.HandlerStarts`, `FileReferenceRefused` and `PayloadRead` say |
| `HttpReader.RequestParser.OnHeaderLineContent` | pkg/http-parser/parser.go:360-382 | the object moves as `HttpLines.HeaderRead` and `HeaderRefused` say |
| `HttpReader.RequestParser.OnRequestLineContent` | pkg/http-parser/parser.go:324-358 | the object moves as `HttpLines.RequestWordsRead` says |
| `HttpReader.RequestParser.OnVariableLine` | pkg/http-parser/parser.go:303-322 | the object moves as `HttpLines.VariableRead` and `VariableRefused` say |
| `HttpReader.CanonicalKeyIsStable` | pkg/http-parser/parser.go:374-381 | a canonical header name is its own canonical form |
| `HttpReader.CopyHeaders` | pkg/http-parser/parser.go:250-254 | adding every value again, in any order of names, gives the same headers |
| `HttpReader.WithoutTrailingComment` | pkg/http-parser/parser.go:563-571 | the loop finds the first comment after white space |
| `HttpReader.WithoutBlankEnds` | pkg/http-parser/parser.go:606-617 | the loops drop exactly the blank lines framing a body |
| `HttpReader.MethodToken` | pkg/http-parser/parser.go:529-543 | the loop decides the method alphabet |
| `HttpConcat.ExpandBehind` | pkg/http-parser/parser.go:141-170 | a text that expands with some variables expands the same when more are known |
| `HttpConcat.ReadBehind` | pkg/http-parser/parser.go:420-486 | a script that reads alone reads the same behind another |
| `HttpConcat.Concatenation` | pkg/http-parser/parser.go:275-285 | two scripts joined by a separator line parse to the requests of both, in order |
| `HttpConcat.ScriptsConcatenate` | pkg/http-parser/parser.go:518-524 | the same over text |
| `HttpConcat.FirstErrorWins` | pkg/http-parser/parser.go:275-285 | an error in the first script is the error of the whole |
| `HttpConcat.OpenHandlerContinues` | pkg/http-parser/parser.go:424-431 | a first script that ends inside a handler swallows the second up to its first closing marker and goes on, in its last request, with the line after it |
| `HttpConcat.UnclosedHandlerLosesTheRest` | pkg/http-parser/parser.go:426-431 | with no closing marker the second script is lost |
| `HttpExamples.OpenLosesTheRest` | pkg/http-parser/parser.go:398-402 | a script that ends inside a handler, and one it loses |
| `HttpWriter.Writer.MarshalRequest` | pkg/http-parser/writer.go:38-76 | what one entry appends, for any order of its headers |
| `HttpWriter.Writer.Marshal` | pkg/http-parser/writer.go:78-90 | entries separated by a separator line, none after the last |
| `HttpWriter.DefaultProtocolPrints` | pkg/http-parser/writer.go:38-60 | a request without a protocol prints as one with the default |
| `HttpWriter.HostHeaderIsSilent` | pkg/http-parser/writer.go:52-62 | a Host header prints nothing of its own |
| `HttpRoundTrip.EntryRoundTrips` | pkg/http-parser/writer.go:38-76 | the lines of a well-formed request parse to it |
| `HttpRoundTrip.PrintThenParse` | pkg/http-parser/writer.go:38-90 | printing and parsing is the identity on every list of well-formed requests |
| `HttpRoundTrip.SurvivesIffSingleValued` | pkg/http-parser/writer.go:56-60 | and on otherwise well-formed ones if and only if every header has a single value |
| `HttpExamples.RepeatedHeaderIsLost` | pkg/http-parser/writer.go:56-60 | a script with a repeated header parses; printed and parsed again its request is another |

## Left out

- Errors of the store itself: a call that fails is a step that does not happen, and a pass goes on with the rest.
- HTTP routing, REST client, command line and web interfaces, beyond the status code of a refused claim.
- Signing and parsing of tokens: a capability is a record of subject, version and expiry that only the control plane makes.
- The database, NATS and asynq clients: writes are atomic, keys unique, delivery at least once.
- Deleting a run is soft, as the API deletes; a record removed from the table outright is not modelled.
- Row numbers: to the model a row written again after a removal is the same row, so a mark or retirement meant for the removed one may reach it; the program's row numbers prevent that, and the model allows more.
- A stream restored from an old copy: a recreated stream starts empty.
- What a preview reports when the capacity query fails half way, and its explanatory text.
- Result labels, error texts, retirement reasons and log lines; no transition depends on them.
- Probes, artifacts, run logs and metrics.
- Worker presence, eviction and sessions, runner channels and the scan lease: a scan is any sequence of its steps, and two scans may interleave.
- Unreadable messages in the protocol model: `System` delivers readable envelopes, `Handling` treats both kinds.
- The claim's time budget and repeated acknowledgements: an answer or an acknowledgement may be lost at any time.
- Order and limit of reconciler queries: a pass works on any batch; the relay's query keeps both.
- The relay's sink and the broker's advisories appear as the ledger steps they take, not as calls from the relay.
- The row schema version: a row of another version is one whose publication is impossible.
- Rounding of the pressure ratio, which is real-valued, and the sort that puts eligible runners in UID order.
- Width of versions, sequences and counters, which are unbounded; the relay's delay is 64-bit.
- The URL library, which is a parameter; the line length limit; a writer whose body cannot be read; the texts of parse errors, of which line and kind are kept.
- A service without a scheduler and the SQLite fallback of the outbox claim, which no deployment uses.
