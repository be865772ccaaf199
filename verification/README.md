# Git mirror operator: a Dafny model

The operator keeps a target Git repository in step with a GitHub source. A `GitMirror`
object asks for it; the webhook server records each push in the object's status; the
reconciler turns pending work into sync Jobs under a per-repository Lease and reflects
finished Jobs back into status; the sync runner inside a Job clones the source and pushes to
the target. This project models that path from push to pushed refs and proves what holds in
every run.

## Reading order

| files | subject |
|---|---|
| `Status.dfy`, `StatusPatch.dfy` | the status record, its transitions in place, and the merge patch that stores them |
| `Scheduling.dfy`, `Controller.dfy` | the meaning of each phase of Reconcile, and the methods that refine it |
| `Invariants.dfy`, `Runs.dfy`, `Decisions.dfy`, `Convergence.dfy`, `Reachability.dfy`, `FallbackRate.dfy` | failure-free runs: Reconcile as one step among pushes, edits, completions and removals |
| `Activity.dfy` | which Jobs count as running, and whom they keep out |
| `SmallStep.dfy`, `Exclusion.dfy`, `Isolation.dfy`, `ManyReconcilers.dfy` | one API call at a time, with crashes and interference |
| `PushFate.dfy` | what becomes of a push that lands anywhere during a reconcile |
| `Limits.dfy` | where the guarantees stop, each with the exact condition |
| `Witnesses.dfy`, `SoloWitness.dfy`, `Crews.dfy`, `RunWitnesses.dfy` | runs that reach the failing side of each limit |
| `Commands.dfy`, `Credentials.dfy`, `GitSync.dfy`, `SyncTheorems.dfy`, `CredentialUse.dfy` | the runner: credentials, commands, their effect on ref maps, and who is contacted with what |
| `Names.dfy`, `Metadata.dfy`, `JobBuilder.dfy`, `Pipeline.dfy` | names, labels and annotations; from spec to Job environment and back |
| `Base.dfy` | `Option` |

## What the runs assume

- One GitMirror per owner and repository, and every Job carries a generation annotation.
  Un-annotated Jobs are modelled in the filters and transitions only.
- A trigger id names one Job: Job names are identified with triggers (`JobName`), and
  `Names` shows that equal names mean equal triggers or a hash collision. In a failure-free
  run an accepted delivery id is new.
- In failure-free runs the reconciler's clock grows from one reconcile to the next, and the
  last Job of the current generation is removed only when it is reflected and alone.
  `Runs.OldestFirstRemovable` derives this from removing reflected Jobs oldest first.
  `Limits.RemovalKeepsOrder` says of every removal, assumed or not, exactly when the next
  reconcile still reflects Jobs in order.
- Call-by-call runs make neither of these two assumptions. They ask that a Job name is not
  used again after removal and, for exclusion, that the lease of a running Job is not given
  back after a create that reported an error (`Exclusion.ClearRunIsClean`: it is not, if such
  a create has stored nothing; `Limits.LockedCreationExact` says exactly when it is). Webhook
  writes, deletions and removals are arbitrary, and a reconcile may end after any call.
  `SoloWitness.SoloExclusionLost` shows that one reconciler without a spec edit breaks
  exclusion when the lease is given back.
- Every Get and List, call by call too, returns what is stored at that moment. The reconciler
  is given the manager's client (cmd/main.go:218), whose reads come from an informer cache
  and may lag behind; `ManyReconcilers` allows arbitrarily stale Job lists, the other modules
  do not.
- The spec is one the Job builder accepts; `Pipeline.ValidSpecsAccepted` says which are.

## Where the documentation and the code differ

- The status reference says `pendingResync` is true when a push arrived while another Job
  was active (the repository's README.md:182). The code sets it on every accepted push
  (internal/controller/status.go:35) and the next reconcile that schedules a Job clears it.
  The model follows the code.
- The feature list says the Lease prevents concurrent Job creation across reconciler
  instances (the repository's README.md:14). That holds when taking the Lease and creating the Job is one
  step (`ManyReconcilers.ManyReconcilersExclude`) or when reconciles are serialised
  (`Exclusion.MutualExclusion`); `Limits` gives the interleavings where it does not, and
  `Crews` a run for each.
- The feature list says the webhook records intent and the reconciler owns Job creation (the
  repository's README.md:13). For a push between reconciles the intent always becomes a Job
  (`Runs.NoPushForgotten`, `Convergence.Converges`); for one that lands during a reconcile,
  `PushFate.PushDuringReconcile` says exactly when, and `Witnesses` has a run for each loss.

## Model

| member | source | states |
|---|---|---|
| `Runs.RunInv` | internal/controller/gitmirror_controller.go:56-241 | Every state of every failure-free run satisfies the invariant: exclusion, ordered status, covered pushes, a truthful SyncPending condition, times in the past. |
| `Runs.MutualExclusion` | internal/controller/gitmirror_controller.go:243-350 | In every reachable state at most one Job of the current generation is active, and it holds the Lease. |
| `Runs.NoPushForgotten` | internal/controller/gitmirror_controller.go:86-241 | After any run the last accepted push is pending, or the first Job created after it carries the latest requested revision; SyncPending is true exactly while pending. |
| `Runs.StatusNeverRunsBackwards` | internal/controller/gitmirror_controller.go:122-168 | Jobs are reflected in strictly increasing creation order within and across generations; LastCompletedJobName, LastError and LastMirroredRevision show the newest of them. |
| `Runs.OutcomeReported` | internal/controller/status.go:71-84 | After any run, once a Job has been reflected, Ready is true exactly if the newest one completed and carries that Job's generation; LastError is empty or the failure's reason and message; LastSuccessAt and LastFailureAt are when the newest success and the newest failure were reflected, if any. |
| `Runs.ReflectsLastJob` | internal/controller/gitmirror_controller.go:122-165 | A reconcile reflects the last Job, with its phase and revision and the reconcile's time, exactly if it is of the stored generation, has ended and is not reflected; and no other. |
| `Runs.LeaseFollowsLastJob` | internal/controller/gitmirror_controller.go:148-150 | In every reachable state the Lease is absent or held by the last created Job, which is not reflected yet. |
| `Runs.LatestMirroredMeaning` | internal/controller/status.go:74-79 | The reported revision is carried by some reflected success, and no later success carries one; it is empty exactly if none did. |
| `Runs.CreatesOnlyWhenIdle` | internal/controller/gitmirror_controller.go:56-241 | A reconcile creates at most one Job, none while a current-generation Job is active; the Job is a due scheduled sync or carries the requested revision. |
| `Decisions.CreatedExactly` | internal/controller/gitmirror_controller.go:56-241 | After any run the next reconcile creates exactly one Job or none, told from phases, annotations, status and schedule: a follow-up, the generation's Job, the pending push's, a scheduled one, each with its name, generation and revision. |
| `Decisions.ScheduledSyncStarts` | internal/controller/gitmirror_controller.go:202-241 | After any run that leaves the generation observed, nothing pending and no Job running, a reconcile starts a scheduled sync exactly if the schedule's next time after the last trigger is not ahead; the Job runs, holds the Lease and counts as the last trigger. |
| `Decisions.ScheduledSyncWaits` | internal/controller/gitmirror_controller.go:226-231 | With a Job running it creates nothing, and asks for a resync under the same condition. |
| `Decisions.FallbackExact` | internal/controller/gitmirror_controller.go:202-231 | The fallback phase in any state, for a missing last trigger, a missing next time and a Lease held by another too. |
| `Runs.StepInv` | internal/webhook/server.go:106-120 | A push, spec edit, completion, removal or reconcile each keeps the invariant. |
| `Runs.OldestFirstRemovable` | internal/controller/gitmirror_controller.go:122-131 | Removing finished, reflected Jobs oldest first never removes the last Job of a generation while an older one remains. |
| `Invariants.ReconcileIsResult` | internal/controller/gitmirror_controller.go:56-84 | In every invariant state, and for every order in which Jobs are listed, the four phases amount to one closed form that settles, launches or coalesces at most one Job. |
| `Invariants.CompletedLoop` | internal/controller/gitmirror_controller.go:122-168 | The completion loop acts on the last Job if it is finished and unreflected, and on no other, whatever the listing order. |
| `Convergence.Converges` | internal/controller/gitmirror_controller.go:56-200 | After any schedule-free run, five rounds of Reconcile and Job completion end in a state Reconcile leaves as it is: generation observed, nothing pending or active; if the last sync succeeded, LastMirroredRevision is LastRequestedRevision. |
| `Convergence.RoundProgress` | internal/controller/gitmirror_controller.go:56-200 | Each such round strictly decreases an explicit measure until it is zero, and then changes nothing. |
| `Convergence.QuiescentMirrored` | internal/controller/status.go:71-96 | At rest after a successful last sync the mirrored revision is the requested one. |
| `FallbackRate.FallbackRateBound` | internal/controller/gitmirror_controller.go:202-241 | For every schedule that always fires again, whose next time lies ahead and never moves back, scheduled Jobs are a next time apart, and any count that grows from each time to its next bounds their number. |
| `FallbackRate.TickRate` | internal/controller/gitmirror_controller.go:446-455 | For one given by ticks, no more scheduled Jobs than ticks elapsed. |
| `FallbackRate.EveryRate` | internal/controller/gitmirror_controller.go:446-455 | For "@every", no more scheduled Jobs than periods elapsed, each a period after the last. |
| `FallbackRate.RateBoundExact` | internal/controller/gitmirror_controller.go:446-455 | Whatever gives the schedule its next times, all runs keep scheduled Jobs a next time apart exactly if it is absent, malformed, or has a next time after every time past the start. |
| `FallbackRate.TickRateExact` | internal/controller/gitmirror_controller.go:446-455 | The same condition for the number of scheduled Jobs, counted in ticks. |
| `FallbackRate.ExhaustedReconcile` | internal/controller/gitmirror_controller.go:209-216 | With no next tick the library returns the zero time, which is never after now: every reconcile of an idle state starts a scheduled sync. |
| `FallbackRate.ExhaustedRounds` | internal/controller/gitmirror_controller.go:202-241 | n rounds of such a schedule create n scheduled Jobs. |
| `Activity.AcquireExactly` | internal/controller/gitmirror_controller.go:270-350 | A name is refused the Lease exactly if it is held for a stored Job of another name that has not ended, is not being deleted, and has the caller's generation or no annotation. |
| `Activity.RunningHolderStopsAll` | internal/controller/gitmirror_controller.go:56-350 | In any state, while such a Job holds the Lease no reconcile creates a Job or changes the Lease, whatever is stored, finished, pending or due. |
| `Activity.RunningJobStopsPhases` | internal/controller/gitmirror_controller.go:86-241 | Even without the Lease, a running undeleted Job that is listed stops the three creating phases, an un-annotated one in every generation. |
| `Activity.DeletingHolderYields` | internal/controller/status.go:109-111 | A Lease whose holder is being deleted is given to whoever asks. |
| `Activity.DeletedJobMakesWay` | internal/controller/gitmirror_controller.go:170-200 | After any run that leaves a Job running, once that Job gets its deletion timestamp the Job of a new push is created in the next reconcile and takes the Lease. |
| `SmallStep.Uninterrupted` | internal/controller/gitmirror_controller.go:56-350 | The API calls of a reconcile nobody interferes with add up to the atomic Reconcile. |
| `SmallStep.LockCalls` | internal/controller/gitmirror_controller.go:243-324 | The create, get, get-holder, update and create-Job calls together are the atomic locked creation. |
| `SmallStep.CallProgress` | internal/controller/gitmirror_controller.go:56-350 | Every call decreases a bound on the calls left, so a reconcile terminates. |
| `Exclusion.MutualExclusion` | internal/controller/gitmirror_controller.go:56-350 | The same at-most-one with spec edits between any two calls as well, unless the lease of a running Job is given back after an error. |
| `Exclusion.SerialisedExclusion` | internal/controller/gitmirror_controller.go:243-350 | With one reconcile at a time and edits only between reconciles, no crash, error, conflict, push, completion, deletion or removal between any two calls lets two current-generation Jobs be active; the active one holds the Lease. |
| `Exclusion.LeaseHeldExactly` | internal/controller/gitmirror_controller.go:296-322 | In every such run active current Jobs hold the Lease throughout exactly if no request takes it from one and none is given back. |
| `Exclusion.OnlyOutdatedFallbackSteals` | internal/controller/gitmirror_controller.go:202-224 | Only the scheduled request of a snapshot older than the stored generation can take the Lease from a running Job of that generation. |
| `Exclusion.LeaseStepExact` | internal/controller/gitmirror_controller.go:270-339 | A single step loses the Lease of an active current Job exactly by taking it over for another name or by giving it back. |
| `Exclusion.ClearRunIsClean` | internal/controller/gitmirror_controller.go:261-266 | If a create that reports an error has stored nothing, no running Job's lease is given back. |
| `Exclusion.StepGood` | internal/controller/gitmirror_controller.go:270-350 | Every act but giving back a running Job's lease keeps the invariant and what each program point relies on, for up-to-date and outdated reconciles. |
| `Isolation.GenerationIsolation` | internal/controller/gitmirror_controller.go:112-165 | With one reconcile at a time and spec edits between any two of its calls, ObservedGeneration never decreases nor exceeds Generation, and the outcome fields change only in the patch of a Job annotated with the generation that patch read. |
| `ManyReconcilers.ManyReconcilersExclude` | internal/controller/gitmirror_controller.go:243-339 | From every safe pool, with Jobs of any generation, any number of reconcilers with arbitrarily stale Job lists, and deletions, at most one Job of the current generation is active when acquire-and-create and release are single steps. |
| `ManyReconcilers.SafePools` | internal/controller/gitmirror_controller.go:243-350 | Every state a serialised run of one reconciler reaches is such a pool. |
| `Limits.InterleavedCreatesBreakExclusion` | internal/controller/gitmirror_controller.go:303-312 | Two acquires before either create keep exclusion exactly when the first finds the Lease taken: a holder without a Job reads as stale. |
| `Limits.StaleGenerationBreaksExclusion` | internal/controller/gitmirror_controller.go:303-312 | A caller with another generation keeps exclusion exactly when it was up to date or nothing was running. |
| `Limits.AmbiguousCreateBreaksExclusion` | internal/controller/gitmirror_controller.go:261-266 | Giving the Lease back after a failed create is safe exactly when the Job was not stored after all. |
| `Limits.LockedCreationExact` | internal/controller/gitmirror_controller.go:243-339 | For all answers of the API server to a locked creation, active Jobs still hold the Lease exactly unless the create reports an error, the lease is given back and a Job of that name runs. |
| `Limits.CrashAfterReflect` | internal/controller/gitmirror_controller.go:133-159 | After any run, a crash after the completion patch keeps the last push exactly when a Job has been created since it. |
| `Limits.CrashAfterReflectUnscheduled` | internal/controller/status.go:89-94 | After any schedule-free run such a crash keeps the push exactly when PendingResync was not set. |
| `RunWitnesses.CrashLossReached` | internal/controller/status.go:89-94 | A failure-free run after which such a crash loses a push. |
| `Limits.CrashLossIsPermanent` | internal/controller/gitmirror_controller.go:56-241 | Without a schedule, an edit or a new push, no later reconcile creates a Job or changes the status after such a loss. |
| `RunWitnesses.StoredStateCannotTell` | internal/controller/status.go:15-27 | With a schedule, two runs end in the same stored state of which a crash loses the push in one and keeps it in the other. |
| `PushFate.PushDuringReconcile` | internal/controller/gitmirror_controller.go:56-241 | After any failure-free run, a push with a new delivery id that lands after any number of calls of the next reconcile is in the end pending, or served by a later Job with its revision, exactly if it survives at that point: not after the Job's creation unless nothing was pending at the patch's read; before it if the request is refused or carries that revision; around a completion patch if nothing was pending or the revision is the same; before a fallback if that starts no sync. |
| `Limits.PushBeforeRequest` | internal/controller/gitmirror_controller.go:95-119 | In any state, a push between forming a request and its first call is kept by the request exactly when it is refused, its patch abstains for an outdated generation, or its Job is created with the revision asked for. |
| `Limits.PushBeforeCreate` | internal/controller/gitmirror_controller.go:243-268 | The same between taking the Lease and creating the Job, which can no longer be refused. |
| `Limits.PushBeforeScheduleRead` | internal/controller/gitmirror_controller.go:186-199 | A push between Job creation and the scheduling patch's read is kept exactly when that patch abstains. |
| `Limits.PushAfterScheduleRead` | internal/controller/status_update.go:12-22 | A push between that read and the patch is kept exactly when nothing was pending at the read or the patch abstains. |
| `Limits.PushDuringReflect` | internal/controller/gitmirror_controller.go:133-146 | A push between read and write of the completion patch is kept by it exactly when it asks for no follow-up. |
| `Limits.PushBeforeFallback` | internal/controller/gitmirror_controller.go:202-241 | In any state, a push before the fallback of an older snapshot is kept exactly when that starts no sync, or creates a Job when no revision is asked for. |
| `Limits.ReusedTriggerLosesPush` | internal/controller/gitmirror_controller.go:261-267 | After any run that ends at rest, a push is kept by the pending phase exactly when no Job of its delivery id is stored: AlreadyExists counts as success. |
| `Limits.RemovalKeepsOrder` | internal/controller/gitmirror_controller.go:122-131 | Removing a current Job in any phase keeps the next reconcile's reflections in creation order exactly when it is not the last Job, or no other is stored but LastCompletedJobName. |
| `SoloWitness.SoloExclusionLost` | internal/controller/gitmirror_controller.go:122-166 | A run of one reconciler, without an edit, in which a stored Job's lease is given back and a follow-up starts beside it. |
| `Crews.InterleavedCreatesReached` | internal/controller/gitmirror_controller.go:303-312 | A run of two reconcilers that both acquire before either creates and end with two active Jobs. |
| `Crews.StaleGenerationReached` | internal/controller/gitmirror_controller.go:303-312 | A run in which a request of an old generation takes the Lease from a running Job and a current one takes it in turn. |
| `Crews.AmbiguousCreateReached` | internal/controller/gitmirror_controller.go:261-266 | A run in which the lease of a stored Job is given back and an older list lets another reconciler in. |
| `Witnesses.PushBeforeCreateReached` | internal/controller/gitmirror_controller.go:95-104 | A run in which a push before the Job's creation is lost: the Job carries the earlier revision. |
| `Witnesses.PushBeforeFallbackReached` | internal/controller/gitmirror_controller.go:217-230 | A run in which a push before any request is lost to the due fallback. |
| `Witnesses.PushDuringReflectReached` | internal/controller/gitmirror_controller.go:133-146 | A run in which a second push during the completion patch is lost: the follow-up serves the first. |
| `Witnesses.PushBeforeReadReached` | internal/controller/gitmirror_controller.go:111-115 | A run in which a push before the scheduling read is lost. |
| `Witnesses.PushAfterReadReached` | internal/controller/status_update.go:12-22 | A run in which a push between read and patch is lost. |
| `Witnesses.StolenLeaseReached` | internal/controller/gitmirror_controller.go:202-224 | A run in which the fallback of an outdated snapshot takes the Lease from the Job of the newer generation. |
| `RunWitnesses.ReusedTriggerReached` | internal/controller/gitmirror_controller.go:261-267 | A failure-free run after which a delivery id used before loses its push. |
| `RunWitnesses.RemovalReached` | internal/controller/gitmirror_controller.go:122-131 | A failure-free run after which removing the last Job makes the next reconcile reflect an older one again. |
| `StatusPatch.PatchIsMerge` | internal/controller/status_update.go:12-22 | Encode, diff, apply and decode (section 2 of RFC 7396) are the field-wise three-way merge: the mutation's value where it changed a field, the server's elsewhere; the mutation itself on an unchanged server, nothing for an empty mutation. |
| `StatusPatch.MergeField` | internal/controller/status_update.go:18-20 | Every serialised field of the merge is the mutated one where it differs from the base, else the server's. |
| `StatusPatch.RoundTrip` | internal/controller/status_update.go:14-20 | Serialising a status with omitted zero fields and reading it back loses nothing. |
| `StatusPatch.DisjointPatchesCommute` | internal/controller/status_update.go:12-22 | Patches that change disjoint fields, whatever each of them had read, commute on every server state. |
| `StatusPatch.Server.PatchGitMirrorStatus` | internal/controller/status_update.go:12-22 | The retry loop of five attempts succeeds exactly when its first attempt not answered by a conflict is accepted, and then stores the merge of that attempt's own read. |
| `GitMirrorStatus.GitMirror.ApplyWebhookState` | internal/controller/status.go:15-27 | In place, the whole new status: coalesced while a Job is active, scheduled otherwise; the result tells which. |
| `GitMirrorStatus.GitMirror.ApplyWebhookIntent` | internal/controller/status.go:29-37 | In place, the whole new status of a push: delivery, requested revision unless empty, pending. |
| `GitMirrorStatus.GitMirror.ApplySyncScheduled` | internal/controller/status.go:39-45 | In place, the whole new status once a Job is scheduled. |
| `GitMirrorStatus.GitMirror.ApplySyncScheduledForGeneration` | internal/controller/status.go:47-53 | The same for a matching generation, and no change for another. |
| `GitMirrorStatus.GitMirror.ApplyCompletedJobStatusForGeneration` | internal/controller/status.go:55-65 | In place, outcome and consumed pending push for a matching generation, and the follow-up it asks for; no change for another. |
| `GitMirrorStatus.GitMirror.ApplyCompletedLegacyJobStatus` | internal/controller/status.go:67-69 | The outcome of an un-annotated Job under the observed generation; pending is left alone and no follow-up asked. |
| `GitMirrorStatus.GitMirror.ApplyOutcome` | internal/controller/status.go:71-96 | In place: a success sets its time, Ready and the mirrored revision and clears the error, a failure its time, Ready and the error text, each leaving the other's time alone; then the pending push is consumed, and a follow-up asked exactly when one was pending. |
| `Controller.Cluster.Reconcile` | internal/controller/gitmirror_controller.go:56-84 | One failure-free reconcile on the stored cluster is the Reconcile the run theorems are about. |
| `Controller.Cluster.ReconcileCompletedJobs` | internal/controller/gitmirror_controller.go:122-168 | The loop with its patches, releases and follow-ups equals its recursive meaning, including the early stop. |
| `Controller.Cluster.ReconcileUnobservedGeneration` | internal/controller/gitmirror_controller.go:86-120 | A sync for a new generation, on the re-read object, stopping the reconcile. |
| `Controller.Cluster.ReconcilePendingResync` | internal/controller/gitmirror_controller.go:170-200 | A sync for a pending push under its delivery id, on the re-read object. |
| `Controller.Cluster.ReconcileFallback` | internal/controller/gitmirror_controller.go:202-241 | A due scheduled sync, or its coalescing while a Job is active. |
| `Controller.Cluster.CreateLockedSyncJob` | internal/controller/gitmirror_controller.go:243-268 | For all answers of the API server: the Job exists under the Lease, the Lease is another's and nothing changed, or an error left the Job stored or not and the lease given back or not. |
| `Scheduling.SmoothCreate` | internal/controller/gitmirror_controller.go:243-324 | Answered without errors, acquiring and creating are the locked creation the phases and runs use. |
| `Controller.Cluster.AcquireSyncLease` | internal/controller/gitmirror_controller.go:270-324 | For all answers: the Lease is taken exactly when free, its own, or held for a Job not active in the caller's generation; a conflict refuses, every other error is reported and changes nothing. |
| `Controller.Cluster.ReleaseSyncLease` | internal/controller/gitmirror_controller.go:326-339 | The Lease goes away exactly when the holder releases it. |
| `Controller.Cluster.JobNameActiveForGeneration` | internal/controller/gitmirror_controller.go:341-350 | True exactly for a stored Job that has not ended, has no deletion timestamp, and is annotated with that generation or not at all. |
| `Controller.FilterGeneration` | internal/controller/gitmirror_controller.go:361-369 | The loop keeps, in order, exactly the Jobs annotated with the generation or not at all. |
| `Scheduling.FilterMembers` | internal/controller/gitmirror_controller.go:361-401 | A Job is in the filtered list exactly when it is listed and matches; un-annotated Jobs match every generation, malformed annotations none. |
| `Scheduling.ListedItems` | internal/controller/gitmirror_controller.go:62-68 | Whatever the listing order, the filtered list holds exactly the stored Jobs that match. |
| `Controller.AnyActive` | internal/controller/gitmirror_controller.go:352-359 | True exactly when some listed Job has neither ended nor a deletion timestamp. |
| `Controller.NameExists` | internal/controller/gitmirror_controller.go:371-378 | True exactly when some listed Job has the name. |
| `Controller.Cluster.HandlePush` | internal/webhook/server.go:106-120 | A repeat of the last delivery changes nothing; any other push is recorded: its id, its time, its revision unless empty, and that it is pending. |
| `SyncTheorems.ExactMode` | sync/main.go:97-152 | For every pair of repositories a successful exact sync leaves the target's branches and tags equal to the source's, every other ref of every repository untouched, and a second sync, even a failing one, changes nothing. |
| `SyncTheorems.AdditiveMode` | sync/main.go:143-147 | An additive sync, failed or not and with failing queries or not, deletes nothing, moves no tag and moves branches only to descendants; after a success every pushed source ref is on the target. |
| `SyncTheorems.AdditiveHistory` | sync/main.go:143-147 | The same over any series of additive syncs with any configurations, failures and source history. |
| `SyncTheorems.SkipPreservesMeaning` | sync/main.go:97-118 | Against running every command, the shortcut ends in the same remotes exactly unless one of its queries fails and the tag push would have changed something; and exactly when the verdicts differ. |
| `SyncTheorems.FailingQueryKeepsTag` | sync/main.go:161-185 | The exact sync of a source without tags onto a target with one: the remote query fails, the tag stays and the run fails, where the push would have pruned it and succeeded. |
| `SyncTheorems.PushOkExact` | sync/main.go:111-117 | A push with nothing failed, rejected or needlessly refused is one after which the target agrees with the clone in its namespace, and conversely. |
| `SyncTheorems.PushChangesExact` | sync/main.go:111-117 | A push changes the target exactly if some ref may be created, moved or pruned. |
| `SyncTheorems.SyncHasForm` | sync/main.go:93-119 | The interpreted command list equals clone, branch push, tag push as a closed form on two ref maps. |
| `GitSync.Runner.Run` | sync/main.go:81-120 | Nothing runs unless the credentials can be prepared and are valid and the commands can be built; then the loop with its skip test ends in the interpretation of the built list, stopping at the first failure, and the remotes contacted and the credentials used are those of `Contacts`. |
| `CredentialUse.CredentialsKept` | sync/main.go:97-118 | For every configuration of plain strings, every contact the runner makes is a clone of the source URL with the source's prepared credentials, or a query or push to the target URL with the target's. |
| `GitSync.Runner.ShouldSkipEmptyTagPush` | sync/main.go:161-185 | The decision, and whether a query failed, from the scanned command, both repositories and the fate of each query. |
| `GitSync.RunnerSpecs` | sync/main.go:139-147 | The four wildcard refspecs parse to branches or tags, with or without force. |
| `Commands.BuildGitCommands` | sync/main.go:122-152 | The commands a configuration denotes, and an error exactly for a missing URL or unknown mode. |
| `Commands.CommandsParseBack` | sync/main.go:187-226 | For plain paths and URLs the scanners recover from every built command its repository, target, whether it is the tag push, and whether it reads from the source. |
| `Commands.PushScans` | sync/main.go:187-226 | For every path and URL, exactly when each scanner is right about a built push. |
| `Commands.CloneScans` | sync/main.go:187-202 | For every path and URL, a built clone reads from the source, and exactly when it would be taken for a tag push. |
| `Commands.IsTagWildcardPush` | sync/main.go:187-202 | The two flags of the loop decide that both a push and a tag refspec occur. |
| `Commands.CommandRepoPath` | sync/main.go:204-211 | The argument after the first -C that has one. |
| `Commands.PushTargetURL` | sync/main.go:213-226 | The first argument without a dash after the first push that has one. |
| `Commands.AuthForCommand` | sync/main.go:417-424 | The source's credentials exactly when the command is a clone. |
| `Credentials.PreparedExactly` | sync/main.go:264-346 | Both endpoints pass preparation and validation exactly when each is usable: a copied key, or an HTTPS URL with user and password or a token. |
| `Credentials.PreparedSides` | sync/main.go:264-307 | Each side keeps its own credentials: ssh its own copied key, basic unchanged, a GitHub App the user x-access-token with its own token; nothing else changes. |
| `Credentials.PreparedCommands` | sync/main.go:82-96 | Preparation changes no command. |
| `Pipeline.SpecRoundTrip` | sync/main.go:69-79 | For every accepted spec the runner reads back the spec's URLs, mode, effective tag setting and both credentials, and so builds exactly the commands the spec denotes. |
| `Pipeline.SpecCredentials` | sync/main.go:69-120 | End to end, from an accepted spec with plain URLs: whatever remote the runner contacts, it does so with the user and password, token or copied key of that endpoint's spec. |
| `Pipeline.FilesDelivered` | internal/jobs/builder.go:210-339 | Reading the paths the runner gets through the Job's mounts and volumes gives the values of the secret keys the spec declares for each endpoint, and the known hosts of its ConfigMap. |
| `Pipeline.HomeWritable` | internal/jobs/builder.go:105-184 | HOME, under which the default clone lies, is a mounted empty directory. |
| `Pipeline.MountPathsDistinct` | internal/jobs/builder.go:154-170 | No two mounts are at one path. |
| `Pipeline.JobsNamedApart` | internal/jobs/builder.go:194-298 | Two built Jobs have one name only for the same namespace, mirror and trigger, or by a hash collision. |
| `Pipeline.AnyEnvironment` | sync/main.go:69-79 | In every environment, also one no Job builder wrote: a bare key path means ssh, a missing mode exact, and tags are included unless refused in one of the spellings of false. |
| `Pipeline.RunnerStartsExactly` | sync/main.go:81-96 | The runner of an accepted spec gets past its checks exactly when both endpoints of the spec are usable, and then still builds the denoted commands. |
| `Pipeline.PartDecodes` | sync/main.go:247-262 | The variables written for an endpoint decode to the credentials it denotes, for all three kinds. |
| `Pipeline.JobWellFormed` | internal/jobs/builder.go:89-264 | Variable names are spelled pairwise differently, each mount refers to exactly one volume, and every variable ending in _PATH holds a mount path. |
| `Pipeline.ValidSpecsAccepted` | api/v1alpha1/gitmirror_types.go:46-70 | Every spec the resource validation admits is accepted, given an image. |
| `JobBuilder.BuildSyncJob` | internal/jobs/builder.go:46-208 | Metadata, environment, mounts and volumes of the Job, and an error exactly for a missing image, an unknown mode or unusable credentials; image, limits, account and resources are the spec's where given, else the documented defaults. |
| `JobBuilder.EndpointAuthPart` | internal/jobs/builder.go:210-274 | Variables, mount and volume of one endpoint, and an error exactly where its declared kind lacks its credentials. |
| `Metadata.MetaReadsBack` | internal/jobs/builder.go:114-121 | From a built Job the controller reads back the mirror's generation, the revision, and the label its own selector asks for; the name is fixed exactly for a trigger. |
| `Metadata.LabelsReadBack` | internal/jobs/builder.go:85-88 | The labels are the application, and sanitised the mirror's, owner's and repository's names and the trigger, if any. |
| `Metadata.NotesReadBack` | internal/jobs/builder.go:114-121 | The annotations are the full names of mirror, owner and repository and the revision, if any. |
| `Metadata.GeneratedNameSpelled` | internal/jobs/builder.go:194-198 | Without a trigger the name prefix is gitmirror and the mirror's name in lower case. |
| `Metadata.IntRoundTrip` | internal/controller/gitmirror_controller.go:391-401 | Every 64-bit generation survives being written in decimal and parsed. |
| `Metadata.JobLabelsValid` | internal/jobs/builder.go:85-88 | Every label value of a Job is valid, whatever the mirror and trigger. |
| `Metadata.BuildMeta` | internal/jobs/builder.go:286-315 | Labels, annotations and name, step by step, are the metadata the read-back is about. |
| `JobBuilder.EnvTextInjective` | internal/syncenv/env.go:14-36 | No two variables share a spelling. |
| `JobBuilder.GetenvFinds` | sync/main.go:247-262 | Looking a variable up by its spelling finds the one that was meant. |
| `Names.JobNameValid` | internal/jobs/builder.go:286-298 | Job names are labels in the sense of section 2.1 of RFC 1123, at most 63 characters, for all inputs; the empty-base fallback is unreachable. |
| `Names.JobNameSpelled` | internal/jobs/builder.go:286-298 | For a mirror name of letters, digits and dashes that fits, the Job name is gitmirror, that name in lower case, and the hash of namespace, mirror and trigger. |
| `Names.LeaseNameValid` | internal/controller/gitmirror_controller.go:403-415 | The same for Lease names. |
| `Names.LeaseNameSpelled` | internal/controller/gitmirror_controller.go:403-427 | The same for Lease names, of owner and repository. |
| `Names.EqualJobNames` | internal/jobs/builder.go:286-298 | With slash-free namespace and name, equal Job names mean the same mirror and trigger or a truncated-hash collision. |
| `Names.EqualLeaseNames` | internal/controller/gitmirror_controller.go:403-415 | With slash-free namespace, provider and owner, equal Lease names mean the same repository or a truncated-hash collision. |
| `Names.TriggerInputInjective` | internal/jobs/builder.go:287 | The slash-joined hash input of a Job name determines its parts. |
| `Names.LeaseInputInjective` | internal/controller/gitmirror_controller.go:405 | The slash-joined hash input of a Lease name determines its parts. |
| `Names.BuildDnsLabel` | internal/jobs/builder.go:329-340 | The rune loop replaces every character outside a-z, 0-9 and dash, then trims. |
| `Names.SanitizeValid` | internal/jobs/builder.go:342-359 | Every sanitised value is a valid label value. |
| `Names.SanitizeFixpoints` | internal/jobs/builder.go:342-359 | Exactly the valid values are left as they are, and sanitising is idempotent. |
| `Names.LabelBaseSpelled` | internal/jobs/builder.go:361-375 | The base runs from the first to the last letter or digit, with a dash for each character a label value cannot have. |
| `Names.EqualLabelValues` | internal/jobs/builder.go:300-307 | Two mirrors share a selector value only by equal names, a hash collision, or one being named like the other's hashed value. |
| `Names.BuildLabelValueBase` | internal/jobs/builder.go:361-375 | The rune loop replaces invalid characters, trims both ends and never returns an empty base. |
| `Names.IsValidLabelValue` | internal/jobs/builder.go:377-390 | True exactly for valid label values. |

## Left out

- GitMirrorStatus.FailureText: the default text for a failure without reason and message does not name the Job, because Job names are triggers here.
- Exclusion.SerialisedExclusion: assumes that no running Job's lease is given back after a create that reported an error; Limits.LockedCreationExact and SoloWitness.SoloExclusionLost show the other case.
- FallbackRate.RateBoundExact: a missing next time is read as none ever; the library gives up after searching about five years.
- PushFate.PushDuringReconcile: the run before that reconcile is failure-free and one push interrupts it; the lemmas of Limits on pushes hold in any state, for one request or patch each.
- SyncTheorems.SkipPreservesMeaning: paths and URLs are plain strings; Commands.PushScans gives the exact condition under which the scanners can be misled.
- GitSync.Runner.Run: copying a key, fetching a token and the scheme of a URL are parameters.
- JobBuilder.BuildSyncJob: leaves out the security context, pull and restart policy, file modes, namespace and owner reference, which are constants or copies.
- The condition messages and LastTransitionTime, and the second precision of stored times.
- Job conditions are a phase (running, complete, failed), so a Job with both conditions true counts as complete.
- RequeueAfter results and the log lines of a reconcile.
- The webhook push is one step in failure-free runs; call by call it is an arbitrary change of the webhook fields.
- HTTP serving, signature check, JSON extraction and findMirror: a push is a delivery id and a revision.
- The GitHub App token exchange, the askpass script and the SSH command line: foreign calls and file system.
- SHA-256, cron parsing and timestamp formatting: parameters with the properties used stated where they are used.
- Kubernetes expansion of `$(VAR)` references inside environment values.
- Git's own rules beyond branches, tags, fast-forward, force and prune (hooks, symbolic HEAD, protected refs are arbitrary refusals).
- Log redaction, the manager binary, charts, manifests and scripts: plumbing.
