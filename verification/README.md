# Models of the marketplace worker, checkout policy, init publisher and parsing kernels

This Dafny project models the parts of the repository whose correctness depends on the order of
steps, on crashes, or on exact arithmetic, and proves what those parts promise. `dafny verify
dfyconfig.toml` checks everything.

**State-directory lock** (`StateLock`, `StateLockSafety`, `StateLockTheorems`, `StateLockRecovery`,
`StateLockMisfire`). Every system call of `acquireStateLock`, of the reaper marker and of the release
closure is one step. Steps of any number of sessions interleave; processes start and die between any
two; inode numbers and pids may be reused. Every call may fail, except that the removal of a session's
own view of a marker, whose failure the code ignores, is taken to work. The lock excludes as long as no
session unlinks a marker other than the one it inspected, and that cannot happen unless a process
dies with its marker linked. `ReaperDeathBreaksExclusion` gives a run in which a process does, and two
running sessions end up holding the lock, so the condition cannot be dropped. Recovery is exact
(`RecoversExactly`): from every crash state, misfires included, a new process gets the lock if and only
if it cannot be mistaken for the dead owner of the lock or of its marker, and `OwnPidIsNeverRecovered`
gives a crash state it is stuck on for ever. Where the code throws
although its comments suggest it carries on (`readReaperOwner` and `readLockOwner` wrap a missing
file in an error without a code), the model throws.

**Worker lifecycle** (`WorkerState` ... `WorkerRuntime`). `WorkerProtocol` is the write-ahead log as an
automaton: every durable write, broadcast and chain read is an event, allowed only on certain durable
states and evidence, and a restart forgets everything but the disk. The theorems are about all its
histories. `WorkerRuntime.Runtime` is the code: a class whose methods change the durable state in the
branches of `runtime.ts`, and whose `Ready` invariant says that the log of what they did is a history
of the automaton, so every theorem holds of every run of those methods. What the outside world
answers (reads, SDK verdicts, executor, uploader) is a parameter. `ClaimsNeverOverlap` needs two things
the code does not guarantee. Recovery ledgers a claim attempt at once when it reads no claim but a
submission left from an earlier engagement (`packages/agenc-worker/src/runtime.ts:1518-1602`), without
waiting out the grace; `WorkerOverlap.RecoverInHaste` makes the methods of `Runtime` do so, and two
claims overlap. And a task whose settled record has been pruned is claimed again without asking
whether its old claim is still open; `WorkerReclaims.ReclaimOverlaps` is a history in which the old
claim is then taken for the new one.

**Checkout policy** (`Checkout`, `CheckoutStore`, `CheckoutRuns`, `CheckoutAborts`, `CheckoutSpending`, `CheckoutHires`,
`CheckoutTwice`).
The module generated by `templates.ts`. `CheckoutStore` has the policy as two classes, the store and
the handle, each method proved equal to a specification function; the other modules prove what any
interleaving of those operations keeps, and what the generated `executeCheckout` makes of them.

**Batch publisher** (`InitPublish`, `InitProject`, `InitAtomicity`, `InitConcurrency`). `writePlanned`
over a tree of files. What other processes do to the tree before each call, and how each call ends
(including after a file is in place, in the directory sync), is a `World`; what a run does is a log of
events. `InitProject.Project` is the code, with its growing lists and its flag, proved to produce the
specified log, tree and report in every world; the other modules prove what those logs keep. The code
comment promises that a concurrent edit is never overwritten. That holds up to the moment between the
rollback's check of a target and its write, and `ClobberingRun` is a run in which an edit falls there.

**Schema compiler** (`SchemaCompiler`). What a schema means is said keyword by keyword over the schema
value (`Allows`, `WellFormed`) and location by location (`Conforms`, `Legal`), without the compiler's
intermediate facets; the compiler is proved exact for that meaning. **Base58** (`Base58`), **canonical JSON** (`CanonicalJson`),
**IP addresses** (`IpAddress`) and the **package-name normaliser** (`PackageName`) are each proved
against an independent reference.

Times are integers, in milliseconds unless said otherwise. Addresses, hashes, signatures and nonces
are opaque numbers. `Hasher` is an arbitrary function.

## Model

| member | source | states |
|---|---|---|
| StateLock.LivenessNeverCondemnsARunningOwner | packages/agenc-worker/src/state.ts:870-880 | on truthful answers about the pid, the liveness test never calls a running owner dead, whatever identity was recorded |
| StateLockSafety.SessionStepKeepsInv | packages/agenc-worker/src/state.ts:1033-1257 | one system call of any session, failing or not, keeps the whole-system invariant, unless it unlinks a marker it did not inspect |
| StateLockSafety.StaleLockHasOneRemover | packages/agenc-worker/src/state.ts:1188-1222 | a session about to unlink a stale lock leaves no running session relying on that lock, but one that holds the same generation's marker |
| StateLockTheorems.InvOverRuns | packages/agenc-worker/src/state.ts:1033-1257 | the invariant holds after every run without a misfire |
| StateLockTheorems.GroundedOverRuns | packages/agenc-worker/src/state.ts:1033-1257 | after every run, misfires included, every linked file is authentic and of the kind its name promises |
| StateLockTheorems.MutualExclusion | packages/agenc-worker/src/state.ts:1128-1257 | in every interleaving without a misfire, two running sessions that believe they hold the lock are one session |
| StateLockTheorems.OnlyTheOwnerRemovesALiveLock | packages/agenc-worker/src/state.ts:1166-1222 | a lock whose owner runs is unlinked or replaced only by a step of that owner's session |
| StateLockTheorems.ClearedMarkerIsDead | packages/agenc-worker/src/state.ts:1076-1105 | a session about to clear a marker has inspected one whose owner is dead; if the step is no misfire, that is the marker it unlinks |
| StateLockTheorems.MarkersLiveOverRuns | packages/agenc-worker/src/state.ts:1063-1126 | if no process dies with its marker linked, every linked marker has a running owner, and no step of the run is a misfire |
| StateLockTheorems.ExclusionWithoutReaperDeaths | packages/agenc-worker/src/state.ts:1033-1257 | mutual exclusion, under the sole condition that no process dies while its marker is linked |
| StateLockMisfire.ReaperDeathBreaksExclusion | packages/agenc-worker/src/state.ts:1076-1105 | a run from the empty directory in which a reaper dies with its marker linked, a session unlinks a live reaper's marker by name, and two running sessions hold the lock |
| StateLockRecovery.StrangerIsStale | packages/agenc-worker/src/state.ts:870-880 | a dead session's file is taken for a running owner's exactly when it has the contender's own pid and no recorded identity |
| StateLockRecovery.LoneStep | packages/agenc-worker/src/state.ts:1070-1247 | each call of a lone contender keeps it on a recoverable path and strictly closer to the lock |
| StateLockRecovery.LoneRun | packages/agenc-worker/src/state.ts:1070-1247 | a run of a lone contender is no longer than the distance it started at |
| StateLockRecovery.LoneNeverStuck | packages/agenc-worker/src/state.ts:1140-1247 | until it holds the lock, a lone contender has an enabled next call |
| StateLockRecovery.LoneContenderAcquires | packages/agenc-worker/src/state.ts:1140-1257 | with no other process and no failing call, the contender stays within three attempts and 92 calls, and is never stuck before it holds the lock |
| StateLockRecovery.LoneContenderCompletes | packages/agenc-worker/src/state.ts:1140-1257 | such a run to the lock exists from every such state |
| StateLockRecovery.CrashLeavesALoneContender | packages/agenc-worker/src/state.ts:1070-1113 | whatever any run leaves when every process is dead, misfires included, a new process is a lone contender, if the lock and marker owners can be told from it |
| StateLockRecovery.StuckForEver | packages/agenc-worker/src/state.ts:1158-1186 | a contender that takes the lock's or the marker's dead owner for itself never holds the lock, whatever its calls answer |
| StateLockRecovery.RecoversExactly | packages/agenc-worker/src/state.ts:1140-1257 | from every crash state a run of clean calls to the lock exists if and only if the contender cannot be mistaken for the owner of the lock or of its marker; otherwise no run of its own calls gets it the lock |
| StateLockRecovery.OwnPidIsNeverRecovered | packages/agenc-worker/src/state.ts:870-880 | a concrete run that leaves a lock with the next process's pid and no identity, which that process never gets |
| WorkerState.MigrationAccepted | packages/agenc-worker/src/state.ts:512-538 | a migrated v0.1.1 state is accepted exactly when its ledger is and its open task is not already in the ledger |
| WorkerState.KeepNewestKeeps | packages/agenc-worker/src/state.ts:555-579 | pruning leaves the unsettled records as they were, in order, and keeps exactly the newest settled ones that fit |
| WorkerState.PruneSettled | packages/agenc-worker/src/state.ts:555-579 | the countdown loop refuses exactly the invalid retentions and otherwise computes that pruning and the number dropped |
| WorkerState.PrunedValid | packages/agenc-worker/src/state.ts:446-509 | a pruned valid state is valid, has at most 11,000 records, and loses no unsettled one |
| WorkerProtocol.CommitValid | packages/agenc-worker/src/runtime.ts:958-1009 | moving the marker's task into a ledger with fewer than 10,000 unsettled records gives a state the validator accepts |
| WorkerProtocol.ReconcileValid | packages/agenc-worker/src/runtime.ts:1936-2056 | so does any reconciliation |
| WorkerProtocol.DiskSound | packages/agenc-worker/src/state.ts:765-800 | after every history the disk holds a valid, pruned state |
| WorkerProtocol.EverySaveIsAccepted | packages/agenc-worker/src/state.ts:264-509 | in every history, with crashes anywhere, each state handed to `saveState` passes the validator, and the disk has at most 11,000 records |
| WorkerHistory.ResultIsFinal | packages/agenc-worker/src/runtime.ts:1110-1230 | once a result is durable, the executor runs again only after the round has ended, and a new round opens only on a Rejected submission whose count the marker has not acknowledged |
| WorkerHistory.BroadcastIsPersistedOutput | packages/agenc-worker/src/runtime.ts:1012-1042 | every broadcast proof hash is the hash of output persisted earlier in the same round for the same task |
| WorkerHistory.BroadcastsSpaced | packages/agenc-worker/src/runtime.ts:1553-1575 | two broadcast stamps of one submission intent are at least 120,000 ms apart, across crashes |
| WorkerHistory.LandedIsNotResent | packages/agenc-worker/src/runtime.ts:1510-1551 | nothing is stamped or sent after a read that shows the submission landed, until a later read shows otherwise or a new result is prepared |
| WorkerClaims.OpenClaimsAreTracked | packages/agenc-worker/src/runtime.ts:1361-1466 | every claim of this worker open on chain belongs to the open-claim marker or to a task that was ledgered, at every point of every history |
| WorkerClaims.SeenSettles | packages/agenc-worker/src/runtime.ts:1691-1720 | a claim account absent when the attempt began and read as present proves that every broadcast so far has landed or never will |
| WorkerClaims.LeavingSettles | packages/agenc-worker/src/runtime.ts:1603-1656 | whichever way a marker leaves the claiming phase, no claim broadcast before can land later |
| WorkerClaims.NoHastyCommit | packages/agenc-worker/src/runtime.ts:1510-1602 | where no leftover submission is read, a claim attempt is ledgered within the grace only if its claim was read as present |
| WorkerClaims.ClaimsNeverOverlap | packages/agenc-worker/src/runtime.ts:558-563 | no claim is broadcast while an earlier one could still land, if no ledgered task is claimed again with its claim open and no attempt meets a leftover submission within its grace |
| WorkerOverlap.RecoverInHaste | packages/agenc-worker/src/runtime.ts:1239-1602 | the methods themselves: an unheard claim, then a recovery that reads no claim but a stale Rejected submission and ledgers the attempt inside its grace, then a second claim; the history is believable and the claims overlap |
| WorkerOverlap.StaleSubmissionOverlaps | packages/agenc-worker/src/runtime.ts:1582-1602 | in that history nothing is re-claimed and a leftover is read, and the first claim can land after the second is sent |
| WorkerReclaims.ReclaimOverlaps | packages/agenc-worker/src/runtime.ts:1265-1375 | a believable history without leftovers in which a pruned task is claimed again with its claim open, and two claims overlap |
| WorkerEarnings.AttributionBounded | packages/agenc-worker/src/runtime.ts:1936-2056 | between any two points of a history the earnings baseline does not decrease and the lamports attributed to records are at most its growth |
| WorkerEarnings.SettledStays | packages/agenc-worker/src/runtime.ts:1773-1800 | no event changes a settled record; it can only be pruned |
| WorkerEarnings.SettlesOnce | packages/agenc-worker/src/runtime.ts:1773-2056 | a settled record never changes or settles again while its task stays in the ledger |
| WorkerEarnings.SettledHasOrigin | packages/agenc-worker/src/runtime.ts:1994-2056 | every settled record of the ledger, at any point of any history, was settled by a reconciliation |
| WorkerEarnings.AcceptedSolWasEarned | packages/agenc-worker/src/runtime.ts:1936-2056 | every accepted record of a task read to pay in SOL was settled by a reconciliation that observed earnings strictly above the baseline, and made them the baseline |
| WorkerSettlement.SweepLedger | packages/agenc-worker/src/runtime.ts:1773-1934 | one sweep examines each record at one moment, reopens at most one revision round, and takes only that task out of the ledger |
| WorkerSettlement.CountPaid | packages/agenc-worker/src/runtime.ts:1936-1960 | counts the SOL payments that wait for the earnings to grow |
| WorkerSettlement.SettleItems | packages/agenc-worker/src/runtime.ts:1936-2056 | each resolved record gets its terminal fields exactly when it may settle now, and no other field of any record changes |
| WorkerSettlement.GainsWithinGrowth | packages/agenc-worker/src/runtime.ts:1936-2056 | the lamports attributed by one reconciliation are at most the observed growth, and nothing unless it settles a single SOL payment |
| WorkerSettlement.AcceptedKnowsSol | packages/agenc-worker/src/runtime.ts:1845-1930 | an accepted verdict counts as a SOL payment exactly when the task's reward mint is SOL |
| WorkerSettlement.AcceptedSolNeedsGrowth | packages/agenc-worker/src/runtime.ts:1936-2056 | a task whose reward mint is SOL becomes accepted only if the observed earnings strictly exceed the baseline |
| WorkerSettlement.ReconcilesHolds | packages/agenc-worker/src/runtime.ts:1773-2056 | what the sweep and the settlement produce is one reconciliation step of the protocol |
| WorkerRuntime.Runtime.Save | packages/agenc-worker/src/state.ts:765-800 | the write either happens, validated and pruned, and is one event of the history, or leaves the disk alone; a failure may come after the write |
| WorkerRuntime.Runtime.Load | packages/agenc-worker/src/state.ts:688-737 | returns the durable state |
| WorkerRuntime.Runtime.Commit | packages/agenc-worker/src/runtime.ts:957-1009 | the marker becomes an unsettled record with the intent's hash; with 10,000 unsettled records nothing changes |
| WorkerRuntime.Runtime.StampAndSend | packages/agenc-worker/src/runtime.ts:1027-1042 | the broadcast time is durable before the send, and the prepared result is unchanged |
| WorkerRuntime.Runtime.SubmitPrepared | packages/agenc-worker/src/runtime.ts:1012-1103 | a confirmed or read-back delivery is ledgered under the sent hash; a ledgering that fails after a confirmed send is caught and the submission read back; otherwise the marker keeps the prepared result |
| WorkerRuntime.Runtime.ReconcileSent | packages/agenc-worker/src/runtime.ts:1062-1100 | with saves that succeed, the marker is ledgered exactly if the submission read back shows the delivery; a failure there keeps it |
| WorkerRuntime.Runtime.ContinueExecuted | packages/agenc-worker/src/runtime.ts:1110-1180 | uploads and submits the persisted output; a failed upload keeps it in the uploading phase |
| WorkerRuntime.Runtime.RunExecutor | packages/agenc-worker/src/runtime.ts:1182-1229 | executor output is durable, with its hash, before anything else happens; failure changes nothing |
| WorkerRuntime.Runtime.ExecuteAndSubmit | packages/agenc-worker/src/runtime.ts:1182-1237 | a failed executor leaves the claim as it was; a submitted result is a ledger record of the marker's task |
| WorkerRuntime.Runtime.SettleClaim | packages/agenc-worker/src/runtime.ts:1376-1464 | a promotion that fails after a confirmed claim is caught and the claim account read; the marker is dropped only on a definite failure with the claim read as absent; an unknown outcome keeps it |
| WorkerRuntime.Runtime.ProcessCandidate | packages/agenc-worker/src/runtime.ts:1239-1469 | nothing is written for a skipped or dry-run candidate; the marker is dropped only on a definite failure with the claim read as absent; an unknown outcome keeps it |
| WorkerRuntime.Runtime.RestoreRevision | packages/agenc-worker/src/runtime.ts:927-955 | a new round replaces the marker by a claimed one acknowledging the rejected count |
| WorkerRuntime.Runtime.RetireMarker | packages/agenc-worker/src/runtime.ts:1646-1656 | only the marker is dropped |
| WorkerRuntime.Runtime.CommitPrepared | packages/agenc-worker/src/runtime.ts:1624-1645 | a prepared submission whose accounts are closed is ledgered under its own hash |
| WorkerRuntime.Runtime.Acknowledge | packages/agenc-worker/src/runtime.ts:1489-1508 | the round changes exactly when the chain asks for a revision with an unacknowledged count |
| WorkerRuntime.Runtime.Continue | packages/agenc-worker/src/runtime.ts:1657-1768 | a dry run or a task that is not executable changes nothing; otherwise work continues from the durable phase |
| WorkerRuntime.Runtime.Resume | packages/agenc-worker/src/runtime.ts:1476-1768 | a landed submission of the round is ledgered; ambiguity inside the grace changes nothing; within the grace of an attempt whose claim does not show, the attempt is ledgered if and only if a leftover submission shows; the marker is dropped only when claim and submission are both gone |
| WorkerRuntime.Runtime.Decide | packages/agenc-worker/src/runtime.ts:1510-1614 | the same once the chain is known and any new revision round has been acknowledged |
| WorkerRuntime.Runtime.CheckSettlements | packages/agenc-worker/src/runtime.ts:1773-2056 | a failed read changes nothing; otherwise the new state is the sweep and settlement of the old one, saved at most once, and the history records which ledger tasks pay in SOL and the earnings observed |
| WorkerRuntime.Runtime.EnsureRegistered | packages/agenc-worker/src/runtime.ts:420-440 | an agent id is persisted once and never replaced |
| WorkerRuntime.Runtime.Tick | packages/agenc-worker/src/runtime.ts:2081-2130 | a whole tick only extends the history, so every theorem about histories covers it |
| Checkout.TotalWithout | packages/agenc-cli/src/templates.ts:728-730 | the reserved total is one reservation's amount plus the total of the others, whichever is taken |
| CheckoutStore.FilterRecent | packages/agenc-cli/src/templates.ts:669-673 | keeps exactly the request times inside the window, in order |
| CheckoutStore.CollectRetained | packages/agenc-cli/src/templates.ts:655-663 | collects exactly the reservations of pending or blocked keys |
| CheckoutStore.AddUp | packages/agenc-cli/src/templates.ts:728-730 | computes the principal's reserved total |
| CheckoutStore.Store.PruneAll | packages/agenc-cli/src/templates.ts:641-674 | the three loops compute the specified pruning |
| CheckoutStore.Store.AdmitCheckout | packages/agenc-cli/src/templates.ts:676-766 | refusals, their statuses, the new policy and the handle are those of the specification |
| CheckoutStore.Admission.BindIntent | packages/agenc-cli/src/templates.ts:778-785 | binds exactly when the specification allows it, with its effect |
| CheckoutStore.Admission.Recheck | packages/agenc-cli/src/templates.ts:786-791 | `checkpoint`: passes exactly for the current generation, and restarts the reservation's window |
| CheckoutStore.Admission.PreserveRecovery | packages/agenc-cli/src/templates.ts:792-801 | a current handle keeps its key, with the recovery evidence, for ever, and settles; otherwise nothing changes |
| CheckoutStore.Admission.BlockOutcome | packages/agenc-cli/src/templates.ts:802-812 | a current handle locks its key for ever, keeps its reservation, drops the recovery evidence, and settles; otherwise nothing changes |
| CheckoutStore.Admission.DiscardRecovery | packages/agenc-cli/src/templates.ts:813-818 | a current handle forgets its key and its reservation, and settles; otherwise nothing changes |
| CheckoutStore.Admission.CompleteWith | packages/agenc-cli/src/templates.ts:819-830 | a current handle records the body for ever, restarts its reservation's window unless it replays, and settles; otherwise nothing changes |
| CheckoutStore.Admission.AbortCheckout | packages/agenc-cli/src/templates.ts:831-845 | a current handle puts back what its admission replaced, drops a reservation the admission created, and settles; otherwise nothing changes |
| CheckoutRuns.StepKeepsInv | packages/agenc-cli/src/templates.ts:676-847 | every operation on any handle, current or stale, keeps the ownership and spending invariant |
| CheckoutRuns.ReservationsAreOwned | packages/agenc-cli/src/templates.ts:655-766 | in every run each pending or blocked key that is not a replay owns a reservation of its own for its full debit, and no principal's total exceeds the limit |
| CheckoutRuns.StaleHandleDoesNothing | packages/agenc-cli/src/templates.ts:766-846 | a settled handle, or one whose key another generation holds, changes nothing |
| CheckoutRuns.RefusedBindDoesNothing | packages/agenc-cli/src/templates.ts:778-785 | a refused bind changes nothing |
| CheckoutAborts.WasCurrent | packages/agenc-cli/src/templates.ts:766 | a handle that is not current never becomes current again |
| CheckoutAborts.StandsUntil | packages/agenc-cli/src/templates.ts:716-791 | while a handle is current, whatever other checkouts do, what it would restore is as its admission found it after pruning |
| CheckoutAborts.AbortRestores | packages/agenc-cli/src/templates.ts:831-845 | in every run, abort puts the key's entry back as admission found it after pruning; the reservation it refers to is there exactly if it was, for the same debit; one the admission made is gone |
| CheckoutSpending.RollingSpendBound | packages/agenc-cli/src/templates.ts:641-674 | in every run and every window of an hour, the full debits behind the checkpoints passed, and not aborted or discarded, total at most the limit |
| CheckoutSpending.SpendChargesFullDebit | packages/agenc-cli/src/templates.ts:786-791 | a passed non-replay checkpoint charges the key's full debit to its principal |
| CheckoutHires.HireIsTheSame | packages/agenc-cli/src/templates.ts:1278-1364 | a hire of a key that has one possibly sent is for the same task, and a completed key is never hired |
| CheckoutHires.OneHirePerKey | packages/agenc-cli/src/templates.ts:1172-1514 | all hires possibly sent for a key, with no discard in between, are for one task, if this key's admissions settle within the hour and no possibly sent hire is reported as a plain error; what other keys do is no matter |
| CheckoutHires.CompletedKeyOnlyReplays | packages/agenc-cli/src/templates.ts:1278-1284 | a completed key keeps its body, sends nothing more, and every later admission of it replays that body |
| CheckoutHires.UnsettledIsRememberedForItsHour | packages/agenc-cli/src/templates.ts:641-654 | a first admission that has not settled survives pruning exactly while its hour lasts |
| CheckoutHires.ForgottenKeyHiresAnew | packages/agenc-cli/src/templates.ts:641-654 | once forgotten, the first handle can no longer record its outcome, and an admission of the key starts with nothing |
| CheckoutTwice.TwoHiresForOneKey | packages/agenc-cli/src/templates.ts:641-654 | a run in which one key is hired under two tasks, because the first admission did not settle within its hour |
| InitAtomicity.UndoLast | packages/agenc-cli/src/init.ts:490-525 | restoring or unlinking the last published target gives the tree before it |
| InitAtomicity.PublishAt | packages/agenc-cli/src/init.ts:456-484 | after publication each target holds its planned content |
| InitAtomicity.PublishAway | packages/agenc-cli/src/init.ts:456-484 | publication reaches no other path |
| InitAtomicity.QuietRollback | packages/agenc-cli/src/init.ts:490-525 | rollback that nobody disturbs gives back the tree before the run, but for a late failure |
| InitAtomicity.PublishedWhole | packages/agenc-cli/src/init.ts:456-541 | a complete publication changes only planned paths and removed leftovers |
| InitAtomicity.AllOrNothing | packages/agenc-cli/src/init.ts:352-541 | with distinct paths, nobody else writing and a working rollback: every planned file has its content, or the tree is exactly as before but for a target whose publication failed after the new bytes were in place; stale files go only in the first case |
| InitConcurrency.RollbackIsCareful | packages/agenc-cli/src/init.ts:490-525 | with any edits at any point, each write of the rollback is to a target this run published and the rollback found unchanged two events before |
| InitConcurrency.OverwritesItsOwnExactly | packages/agenc-cli/src/init.ts:494-511 | the bytes a rollback overwrites are this run's exactly if nobody edited that path between its check and its write |
| InitConcurrency.ForeignBytesAreSpared | packages/agenc-cli/src/init.ts:494-499 | a target whose bytes are not this run's when it is checked is not touched by the rollback at all |
| InitConcurrency.ClobberingRun | packages/agenc-cli/src/init.ts:494-511 | a concrete run in which an edit falls between check and write and the rollback unlinks bytes this run never wrote |
| InitPublish.LeftoversExactly | packages/agenc-cli/src/init.ts:393-412 | every generated file that exists and is not planned is reported, and nothing else is; it is to be removed exactly if it is marker-owned and force is given |
| InitProject.Project.PublishAtomic | packages/agenc-cli/src/init.ts:179-228 | a failure before the rename or link changes nothing; without overwrite an existing target is refused |
| InitProject.Project.Preflight | packages/agenc-cli/src/init.ts:365-391 | the loop computes each target's refusal, skip or write, from what it was when looked at |
| InitProject.Project.FindStale | packages/agenc-cli/src/init.ts:393-412 | the loop computes exactly the specified leftovers |
| InitProject.Project.Publish | packages/agenc-cli/src/init.ts:456-484 | in every world, publication does and remembers what is specified: in order, up to the first failure |
| InitProject.Project.RollBackOne | packages/agenc-cli/src/init.ts:494-511 | in every world, one publication is checked and taken back as specified |
| InitProject.Project.RollBack | packages/agenc-cli/src/init.ts:490-525 | in every world, rollback in reverse order as specified |
| InitProject.Project.RemoveStale | packages/agenc-cli/src/init.ts:526-541 | in every world, leftovers are revalidated and removed as specified |
| InitProject.Project.Write | packages/agenc-cli/src/init.ts:352-541 | in every world, the whole run produces the specified log, tree and report |
| SchemaCompiler.ConformsByParts | packages/marketplace-tools/src/types.ts:369-397 | a value conforms exactly when it is fine itself and its governed parts conform |
| SchemaCompiler.LegalByChildren | packages/marketplace-tools/src/types.ts:334-368 | a schema is legal exactly when its node and its children are |
| SchemaCompiler.FacetsAreKeywords | packages/marketplace-tools/src/types.ts:548-717 | the compiler extracts facets from exactly the nodes whose keywords are legal, each keyword judged on the schema itself |
| SchemaCompiler.ChecksAreKeywords | packages/marketplace-tools/src/types.ts:718-802 | the facets' check accepts exactly the values every keyword of the node allows |
| SchemaCompiler.CompilerIsExact | packages/marketplace-tools/src/types.ts:548-826 | the compiler accepts exactly the schemas all of whose nodes are legal, and its validator exactly the values that break no keyword at any location |
| SchemaCompiler.DefaultsKeepFacets | packages/marketplace-tools/src/types.ts:916-931 | writing out the defaults leaves every local rule of a node as it was |
| SchemaCompiler.DefaultsKeepKeywords | packages/marketplace-tools/src/types.ts:916-931 | and what its keywords say of any value |
| SchemaCompiler.DefaultsCommute | packages/marketplace-tools/src/types.ts:916-931 | and the schema at each location is the rewritten schema of that location |
| SchemaCompiler.DefaultsPreserveMeaning | packages/marketplace-tools/src/types.ts:916-949 | writing out `additionalProperties: false` changes neither which schemas compile nor any verdict |
| SchemaCompiler.RootDefaultsPreserveMeaning | packages/marketplace-tools/src/types.ts:828-858 | the same for a tool's root schema |
| Base58.BigEndianLength | packages/marketplace-tools/src/types.ts:446 | a big-endian form of n bytes without leading zeros holds exactly the numbers from 256^(n-1) to 256^n - 1 |
| Base58.SignificantBytesExact | packages/marketplace-tools/src/types.ts:446 | the significant bytes of a minimal little-endian accumulator are as many as the number's big-endian bytes |
| Base58.TimesFiftyEightPlus | packages/marketplace-tools/src/types.ts:433-445 | one round of the carry loop makes the accumulator 58 times itself plus the digit, and keeps it minimal |
| Base58.DecodedBase58Length | packages/marketplace-tools/src/types.ts:423-447 | null exactly on a foreign character, else the number of bytes standard decoding gives |
| Base58.IsSolanaAddress | packages/marketplace-tools/src/types.ts:457-462 | accepts exactly base58 texts of 32 to 44 characters that decode to 32 bytes |
| CanonicalJson.StringRoundTrip | packages/marketplace-moderation/src/index.ts:92-196 | reading a string token by section 7 of RFC 8259 gives the string back and stops at its closing quote |
| CanonicalJson.QuoteInjective | packages/marketplace-moderation/src/index.ts:92-196 | string tokens are injective and self-delimiting |
| CanonicalJson.SortByKeySorts | packages/marketplace-moderation/src/index.ts:167-190 | sorting by key gives a strictly increasing permutation of the members |
| CanonicalJson.SortedUnique | packages/marketplace-moderation/src/index.ts:167-190 | a set of members has one sorted order |
| CanonicalJson.SameEncodesAlike | packages/marketplace-moderation/src/index.ts:92-196 | equal JSON data has equal text, whatever the insertion order of keys |
| CanonicalJson.ValuesSplit | packages/marketplace-moderation/src/index.ts:92-196 | two encodings followed by ends that cannot extend a number are equal only for equal data and equal remainders |
| CanonicalJson.CanonicalTextDecidesEquality | packages/marketplace-moderation/src/index.ts:92-196 | two encodable values have one canonical text exactly when they are the same JSON data |
| CanonicalJson.EncodesExactlyJson | packages/marketplace-moderation/src/index.ts:92-196 | the encoder refuses exactly the trees with a foreign value or more than 256 levels below the root |
| CanonicalJson.PreimageDecidesVersionAndPayload | packages/marketplace-moderation/src/index.ts:203-233 | two hash preimages coincide exactly for the same version and the same payload data |
| CanonicalJson.VersionsNeverCollide | packages/marketplace-moderation/src/index.ts:203-233 | no v1 preimage is a v2 preimage |
| IpAddress.Ipv4Number | packages/agenc-worker/src/job-spec.ts:67-78 | the loop accepts exactly four octets and gives their number, below 2^32 |
| IpAddress.QuadExact | packages/agenc-worker/src/job-spec.ts:67-78 | a text has a value exactly when it is four octets joined by dots with that value |
| IpAddress.ParseOfText | packages/agenc-worker/src/job-spec.ts:95-107 | every text of eight groups, or of two runs of groups around `::`, is read as its value |
| IpAddress.TextOfParse | packages/agenc-worker/src/job-spec.ts:95-107 | and nothing else is accepted |
| IpAddress.Ipv6Exact | packages/agenc-worker/src/job-spec.ts:86-108 | accepts exactly the text forms of section 2.2 of RFC 4291, in either case, with any `::` and any embedded dotted quad, whose octets may have leading zeros as the code accepts them, each with its value |
| IpAddress.CidrComparesBits | packages/agenc-worker/src/job-spec.ts:110-114 | the shift test holds exactly when the first prefix bits agree |
| IpAddress.TopBits | packages/agenc-worker/src/job-spec.ts:141 | the top three bits of a number are those of its first group |
| IpAddress.PublicIpv6Exact | packages/agenc-worker/src/job-spec.ts:136-172 | the public IPv6 addresses are exactly 2000::/3 without the seven blocked prefixes inside it |
| IpAddress.ShiftDivides | packages/agenc-worker/src/job-spec.ts:80-84 | shifting is division by the size of the block |
| IpAddress.Cidr4ComparesBits | packages/agenc-worker/src/job-spec.ts:80-84 | the division test of IPv4, too, holds exactly when the first prefix bits agree |
| IpAddress.PublicIpv4Exact | packages/agenc-worker/src/job-spec.ts:123-145 | the IPv4 block list refuses exactly the octet ranges it names |
| PackageName.NpmPackageName | packages/agenc-cli/src/templates.ts:18-63 | the loop that keeps at most 214 characters computes the unbounded normalisation |
| PackageName.NormalisedShape | packages/agenc-cli/src/templates.ts:18-63 | every result is 1 to 214 allowed characters, the first of them allowed first |
| PackageName.NormalisingAgain | packages/agenc-cli/src/templates.ts:58-61 | normalising a result again leaves it alone exactly when it does not end in a hyphen |
| PackageName.TruncationCanExposeAHyphen | packages/agenc-cli/src/templates.ts:58-61 | a concrete name whose truncation ends in a hyphen, and so is not stable |

## Left out

- StateLockTheorems.MutualExclusion: holds on runs without a misfire only; `ReaperDeathBreaksExclusion` shows why, and `ExclusionWithoutReaperDeaths` gives the condition on processes that rules misfires out.
- StateLockRecovery.CrashLeavesALoneContender: needs the dead owners to be recognizable; `RecoversExactly` shows that this is exactly when recovery works.
- WorkerClaims.ClaimsNeverOverlap: excludes attempts that meet a leftover submission, because of `RecoverInHaste`, and re-claims of a ledgered task with its claim open, because of `ReclaimOverlaps`; landing time plus read latency is assumed to fit in the grace, and the SDK's definite verdicts and the reads to be true.
- WorkerEarnings.SettlesOnce: speaks of a record while its task stays in the ledger; a pruned settled record is gone.
- WorkerRuntime.Runtime.Tick: its contract states only that the history grows; what each part does is stated by the methods it calls.
- CheckoutHires.OneHirePerKey: assumes that the key's own admissions settle within the hour, because of `TwoHiresForOneKey`, and that the SDK reports every possibly sent hire as such.
- InitAtomicity.AllOrNothing: a target whose directory sync fails after its new bytes are in place keeps them, because the code does not roll that target back; planned paths are assumed distinct, and the preflight to see one tree.
- InitConcurrency.RollbackIsCareful: does not rule out overwriting an edit made between check and write, because of `ClobberingRun`.
- CanonicalJson.CanonicalTextDecidesEquality: number tokens are assumed injective and made of number characters; `JSON.stringify` of numbers is not modelled.
- WorkerRuntime assumes on-chain revision counts in 1..65535, the range of the account field.
- Legacy reaper markers that are hard links to the lock, unreadable or foreign lock files, and the shape checks of lock files.
- The text form of the worker state (JSON, hex, base64, dates) and its 16 MB limit; the model starts from parsed fields.
- File permissions, ownership and symlink checks; directory creation; temporary file names.
- RPC, HTTP, DNS and process I/O: their outcomes are parameters. Funding checks, job-spec verification, prompts and filters are one verdict each.
- The timer loop of `runUp`, WebSocket wake-ups and log events.
- `authorizePrincipal` and `debitLimit` of the generated policy, which read the environment; their outcomes are parameters. Block reasons and error texts.
- The Solana calls of the generated checkout: the SDK's progress records are opaque and its outcomes are the steps of `CheckoutHires`.
- Schemas as JavaScript objects: sparse arrays, accessors, non-enumerable keys, prototypes and freezing; the in-place edit of the cloned schema is modelled as a function of it. String formats other than `solana-address` are a parameter.
- Error messages and paths of the schema validator, and which of several violations is reported first.
- `toLowerCase` outside ASCII, and `isIP`, whose answer selects the family.
- Cycle detection, accessors and exotic objects in canonical JSON: all are one rejected value.
- `planInitFiles` and the file templates, `config.ts`, `promote.ts`, `localnet.ts`, React components, the MCP server and the Rust program.
