# The LabOS control plane, verified

A Dafny model of the LabOS control plane: the tables of labs, storage rows, approvals, exports, runs, secret leases
and scheduler jobs, their append-only event log, the files under managed storage, and the calls and worker passes that
change them. `dafny verify dfyconfig.toml` checks everything.

The model has three layers.

* **Transition functions** say what each call or pass does to the rows: `Governance.dfy` (labs, runs, approval
  decisions, exports), `Reconciler.dfy` (the pass, phase by phase), `Scheduler.dfy`, `Leases.dfy`, with `Schema.dfy`
  for the rows, `Policy.dfy` for profiles and decisions, `Paths.dfy` for path resolution and `FileTree.dfy` and
  `Files.dfy` for disks. `ControlPlane.dfy` makes them one transition system of twelve kinds of step; a refused call
  leaves the tables alone.
* **The code as it runs**, where the source works by assignment and loops, is imperative and proved equal to those
  functions: `Api.dfy` (endpoints over a session with commit and rollback), `ReconcilerWorker.dfy` (the loops of the
  pass and the report they fill), `SchedulerWorker.dfy` (the savepoint around a callback), `LeaseWorker.dfy`,
  `ExportGate.dfy`, `Snapshots.dfy`, `Allocator.dfy` and `DockerRuntime.dfy` (the build, its rollback loop and the
  destroy loop).
* **The laws**, over every input, every run or every reachable state. `CallLaws.dfy`, `CopyLaws.dfy`,
  `PassLaws.dfy`, `QueueLaws.dfy` and `DockerLaws.dfy` say, in the columns' own terms and without the functions above,
  when each operation succeeds, what each error means and what it leaves; `RowLaws.dfy` says what becomes of single
  rows over whole runs. The others are `GovernanceLaws.dfy` (the joint invariant), `ReleaseSafety.dfy`, `ReconcilerLaws.dfy`, `ReportLaws.dfy`,
  `DestroyLaws.dfy`, `SchedulerLaws.dfy`, `ExactlyOnce.dfy`, `Audit.dfy`, `LeaseLaws.dfy`, `Quarantine.dfy`,
  `SnapshotLaws.dfy`, `StorageLaws.dfy` (deletions and restores as the quarantine sees them), `ExportAudit.dfy`,
  `Site.dfy` (one disk under all of it).

Some results differ from what the repository's documentation or its names suggest; the code is modelled as it is.

* REJECTED is final only once no request about the export can still be decided: a direct denial does not close the
  approval, and an approval before it expires revives the export (`RejectedIsFinalIff`, `ApprovalRevives`). An overdue
  request can no longer revive it, but its expiry rewrites the denial reason (`RejectedRowIsFinalIff`).
* DESTROYED is final under passes, but a lab destroyed while its creation request is pending can be approved
  afterwards, until that request expires (`DestroyedIsFinalIff`).
* The policy allows exports from `/artifacts/approved/`; the export gate refuses every one of them, and no other
  source that the policy allows, as no guest path (`AllowedSourcesIff`).
* The confinement check looks at where a path ends up: `../<root name>/x` is accepted, and so is any path that comes
  back in by the names it left by; these, the paths that never climb out, and no others (`AcceptedIff`,
  `ReentryIsAccepted`).
* A rollback of a lab's creation removes volumes that existed before it, since asking Docker for an existing volume
  succeeds (`RollbackRestoresIff`): destroying a lab keeps its volumes by default, and a failed attempt to create it
  again deletes them (`RetriedCreationLosesVolumes`).
* A restore into a workspace of another name takes along what lies in a stale sibling directory named `workspace`, and
  fails where that has a file for a directory or the reverse (`RestoreIsInverseIff`).
* An API decision on an expired request marks the row before it raises; the mark is lost with the rollback, so such a
  row stays pending until a pass expires it (`Api.Endpoints.Decide`).

## Model

| member | source | states |
|---|---|---|
| `GovernanceLaws.StepKeeps` | labos/api/app.py:208-244 | Every step of the whole system keeps the joint invariant: approvals agree with the lab or export they are about (pending means approval still required and not released; approved, rejected, expired each pin the row), one approval a resource, `released_path` set iff RELEASED, `denial_reason` set iff REJECTED, exports gated iff their profile says so |
| `GovernanceLaws.ReachableInv` | labos/api/app.py:1004-1199 | The joint invariant holds in every state reachable by any interleaving of the twelve kinds of step |
| `GovernanceLaws.ExpireKeeps` | labos/workers/reconciler.py:260-314 | The reconciler's expiry, which overwrites `export.state` without looking at it, keeps the joint invariant |
| `GovernanceLaws.DecideKeeps` | labos/api/app.py:208-244 | An approval decision, which overwrites lab and export states without looking at them, keeps the joint invariant |
| `ReleaseSafety.ReleasedWasApproved` | labos/api/app.py:1112-1167 | Over all runs: a gated export is RELEASED only if its own approval row is APPROVED, and one step of the run, found by the lemma, is the approval that took that row from pending to APPROVED, strictly before its `expires_at` |
| `ReleaseSafety.StagedForApprovalNeedsIt` | labos/api/app.py:1082-1091 | An export staged with approval required, after any steps before and any steps since, is RELEASED only if some step took its own request from pending to APPROVED strictly before its expiry |
| `ReleaseSafety.HighRiskReleasedWasApproved` | labos/core/policy_models.py:82-83 | Over all runs: an export of a HIGH or CRITICAL profile is never RELEASED without such an approving step |
| `ReleaseSafety.StagedIsGated` | labos/api/app.py:1082-1091 | An export staged as needing approval gets its approval row in the same step, and otherwise gets none |
| `ReleaseSafety.ReleasedIsFinal` | labos/api/app.py:1148-1150 | No run of any steps changes anything in a RELEASED export's row |
| `ReleaseSafety.RejectedIsFinalIff` | labos/api/app.py:193-244 | From any moment on, over every run in time order, a REJECTED export stays REJECTED if and only if no request about it can still be decided: none is pending short of its expiry |
| `ReleaseSafety.RejectedRowIsFinalIff` | labos/workers/reconciler.py:292-297 | From any moment on its whole row stays as it is if and only if no request about it is pending at all: an approval in time revives it, and the expiry of an overdue request rewrites its denial reason |
| `ReleaseSafety.ApprovalRevives` | labos/api/app.py:238-241 | Approving an outstanding request moves its export to APPROVED whatever state it was in, a direct denial included |
| `ReleaseSafety.StepRefinesApprovals` | labos/core/state_machine.py:31-40 | Every step moves approval rows only along the approval transition table, keeps their subject and expiry, and makes one APPROVED only by a decision before its expiry; new rows are pending |
| `ReleaseSafety.DecidableIffNotStale` | labos/api/app.py:193-205 | At any moment a pending approval can be decided by the API exactly when a reconciliation at that moment would not expire it |
| `ReleaseSafety.DecidedOnce` | labos/api/app.py:193-195 | A decided approval is refused to every later decision and is left alone by every later expiry |
| `ReleaseSafety.PendingLabHasOneRequest` | labos/api/app.py:432-475 | A PENDING_APPROVAL lab has exactly one approval row, and it is pending |
| `ReleaseSafety.ApprovedLabWasApproved` | labos/api/app.py:227-233 | Over all runs: a gated lab is APPROVED only if some step took its request from pending to APPROVED strictly before its expiry |
| `RowLaws.RiskyLabWasApproved` | labos/api/app.py:432-475 | Over all runs: a lab made by a call or by a dispatched job, whose profile asks for approval on start or is HIGH or CRITICAL without a human asking, is APPROVED at any later point only if one step of the run took its own request from pending to APPROVED in time |
| `RowLaws.RequestFate` | labos/api/app.py:193-225 | From any reachable state and over every run, a waiting request is closed by the first decision on it before its expiry (a denial only with a comment) or the first pass from its expiry on, whichever comes first, and by nothing else ever; the row keeps what that step decided, who decided it, when, and the comment |
| `RowLaws.LabStays` | labos/api/app.py:420-507 | No run ever drops a lab or changes its profile, its runtime or its creation time |
| `ReleaseSafety.NoLabWaitsOnAStaleRequest` | labos/workers/reconciler.py:274-291 | After a pass at a moment no lab is still pending on a request that had expired by then |
| `ReleaseSafety.DestroyedIsFinalIff` | labos/api/app.py:193-233 | From any moment on, over every run in time order, a DESTROYED lab stays destroyed if and only if no request about it can still be decided: none is pending short of its expiry |
| `ReleaseSafety.ReconcileKeepsDestroyed` | labos/workers/reconciler.py:89-91 | A pass never touches a destroyed lab's row, whatever the destroyer and the inventory do |
| `GovernanceLaws.StepFramed` | labos/api/app.py:420-1199 | Each of the twelve kinds of step leaves every table alone but the ones named for it |
| `ControlPlane.RefusedCommitsNothing` | labos/api/app.py:1128-1144 | A refused call leaves every table as it was, except that a release blocked for want of approval commits its one event |
| `CallLaws.LabCreated` | labos/api/app.py:420-507 | Column by column what creating a lab leaves: its state PENDING_APPROVAL with one request open for a day iff its profile asks for approval on start or it is HIGH or CRITICAL and no human asks, and APPROVED with none otherwise; four directories under its own root; its events |
| `CallLaws.LabAnswered` | labos/api/app.py:420-507 | When creating a lab succeeds, and exactly what each of its errors means |
| `CallLaws.LabDeleted` | labos/api/app.py:583-612 | When deleting a lab succeeds, what each error means, and that it marks that lab and nothing else |
| `CallLaws.RunCreated` | labos/api/app.py:509-535 | A run can be queued in any lab there is, and its row: deadline the configured minutes from now, not finished |
| `CallLaws.DecisionAnswered` | labos/api/app.py:193-244 | When a decision is accepted and exactly what each of its errors means: pending and short of its expiry, a denial with more than white space said, the row it is about still there |
| `CallLaws.ApprovalGiven` | labos/api/app.py:222-241 | Column by column what an approval leaves: the request APPROVED by whom and when, its lab APPROVED, or its export APPROVED, no longer gated and without a denial reason; nothing else changes |
| `CallLaws.DenialGiven` | labos/api/app.py:222-244 | Column by column what a denial leaves: the request REJECTED, its lab FAILED, or its export REJECTED for the comment given; nothing else changes |
| `CallLaws.GateAnswered` | labos/security/export_gate.py:61-77 | Exactly what each refusal of the export gate means, and that it lets through just the guest paths that lead to a file below the exports root |
| `CallLaws.ExportAnswered` | labos/api/app.py:1004-1091 | When an export call succeeds and exactly what each of its errors means, in their order |
| `CallLaws.ExportIsStaged` | labos/api/app.py:1044-1091 | Column by column what staging leaves: the row QUARANTINED under its own id and file name with the digest and size of its copy, gated iff its profile says so, with a request open for a day iff gated |
| `CallLaws.ReleaseAnswered` | labos/security/export_gate.py:99-116 | A release succeeds if and only if the export is neither REJECTED nor RELEASED, needs no approval any more, and its copy is there; and exactly what each of its errors means |
| `CallLaws.ExportIsReleased` | labos/api/app.py:1146-1167 | Column by column what a release leaves: RELEASED, the path in its own directory, no denial reason; nothing else changes |
| `CallLaws.ApprovedExportIsReleased` | labos/api/app.py:1112-1167 | Once an outstanding request about an export is approved, whatever happened to the export before, a release succeeds iff the copy is there and its lab has storage, and then the export is RELEASED |
| `CallLaws.ExportIsDenied` | labos/api/app.py:1169-1199 | When a direct denial succeeds, what each of its errors means, and the row it leaves |
| `Api.Endpoints.RecordApprovalRequest` | labos/api/app.py:167-190 | Adds one pending, unapproved row with the default expiry and logs the request |
| `Api.Endpoints.CreateLabRecord` | labos/api/app.py:420-507 | The assignments in sequence give the lab, storage, approval and event rows of the lab transition, or its error |
| `Api.Endpoints.CreateRunRecord` | labos/api/app.py:509-535 | The assignments give the run row with its timeout and its event, or the error |
| `Api.Endpoints.PostLab` | labos/api/app.py:552-557 | Commits exactly the lab transition, or rolls back and reports its error |
| `Api.Endpoints.PostRun` | labos/api/app.py:697-702 | Commits exactly the run transition, or rolls back and reports its error |
| `Api.Endpoints.DeleteLab` | labos/api/app.py:583-612 | Removes the directories first, then marks the lab destroyed; every refusal leaves rows and disk alone |
| `Api.Endpoints.EnsureApprovalPending` | labos/api/app.py:193-205 | Accepts a pending request short of its expiry unchanged, refuses a decided one unchanged, and marks an expired one EXPIRED before refusing it |
| `Api.Endpoints.ApplyDecision` | labos/api/app.py:208-244 | The assignments to approval, lab and export rows amount to the decision transition, with its errors in the source's order |
| `Api.Endpoints.Decide` | labos/api/app.py:826-894 | Approve and deny commit exactly the decision transition and its event, or roll everything back |
| `Api.Endpoints.StageExport` | labos/api/app.py:1004-1110 | The export call's rows, errors and disk: copy first, rows after, approval request only if required |
| `Api.Endpoints.PostExport` | labos/api/app.py:1108-1110 | Commits exactly the export transition for the bytes found at the source, or rolls the rows back |
| `Api.Endpoints.Release` | labos/api/app.py:1112-1167 | Release copies the quarantined file and commits RELEASED, commits only the blocking event, or changes nothing |
| `Api.Endpoints.Deny` | labos/api/app.py:1169-1199 | Denial commits REJECTED with its reason, or changes nothing |
| `Policy.HighRiskExportsAreGated` | labos/core/policy_engine.py:209-226 | For a valid HIGH or CRITICAL profile every export decision asks for approval and quarantine |
| `Policy.RiskyStartsAreGated` | labos/core/policy_engine.py:180-187 | A micro-VM lab, and a high-risk lab of a non-human requester, never starts without approval |
| `Policy.DefaultsAreValid` | labos/config/profiles/base.py:12-89 | The built-in profiles satisfy the profile validator and are registered under their own names |
| `Policy.DefaultsGate` | labos/config/profiles/base.py:12-89 | Of the built-in profiles which wait for approval on start, export without approval, run in a micro-VM and are cut off the network; none allows a secret |
| `ReconcilerWorker.ReconciliationService.Reconcile` | labos/workers/reconciler.py:53-163 | The pass, loop by loop with its report object, leaves exactly the rows and log of the phase functions, and returns their lists sorted |
| `ReconcilerWorker.ReconciliationService.RunPhases` | labos/workers/reconciler.py:56-160 | The phases run in the source's order and scan the lab list that was loaded before any of them |
| `ReconcilerWorker.ReconciliationService.ExpireStaleApprovals` | labos/workers/reconciler.py:260-314 | The expiry loop over pending approvals changes approvals, labs, exports, log and list as its set-based form says |
| `ReconcilerWorker.ReconciliationService.RevokeExpiredSecretLeases` | labos/workers/reconciler.py:316-344 | The revocation loop ends exactly the due leases, logging and listing them in query order |
| `ReconcilerWorker.ReconciliationService.TimeoutOverdueRuns` | labos/workers/reconciler.py:346-386 | The timeout loop ends exactly the due active runs, logging and listing them in query order |
| `ReconcilerWorker.ReconciliationService.RetryOne` | labos/workers/reconciler.py:182-258 | One retry: missing row, success, failure short of the limit and at the limit, with the events and lists of each |
| `ReconcilerWorker.ReconciliationService.RetryDestroyingLabs` | labos/workers/reconciler.py:165-258 | The retry loop does one retry a destroying lab, in query order |
| `ReconcilerWorker.ReconciliationService.ScanStorage` | labos/workers/reconciler.py:89-116 | The scan fails and reports every lab short of DESTROYED whose storage row or root is missing |
| `ReconcilerWorker.ReconciliationService.CompareInventory` | labos/workers/reconciler.py:118-160 | The inventory comparison reports and logs orphans and zombies and changes no row |
| `PassLaws.ApprovalAfterPass` | labos/workers/reconciler.py:268-286 | For every approval and every pass: EXPIRED by the reconciler at that moment iff it was pending and its expiry had come, and otherwise as it was |
| `PassLaws.ExportAfterPass` | labos/workers/reconciler.py:292-297 | For every export: REJECTED as expired and ungated iff a pending request about it had run out, and otherwise as it was |
| `PassLaws.LeaseAfterPass` | labos/workers/reconciler.py:324-333 | For every lease: ended at that moment iff it was open and its expiry had come, and otherwise as it was |
| `PassLaws.RunAfterPass` | labos/workers/reconciler.py:354-370 | For every run: TIMED_OUT and finished at that moment iff it was queued, starting or running and its time was up, and otherwise as it was |
| `PassLaws.LabAfterPass` | labos/workers/reconciler.py:89-116 | For every lab: which of a retry, missing storage, a last failed attempt or an expired request decides its state; its attempts and its last error; every other column as it was |
| `RowLaws.RunFate` | labos/workers/reconciler.py:354-370 | Over every run a run under way is timed out by the first pass at or after its deadline, and by nothing else ever |
| `RowLaws.NewRunFate` | labos/api/app.py:509-535 | A new run is timed out, whatever else happens, by the first pass once the configured minutes are over |
| `ReconcilerLaws.TwoPassesAreOne` | labos/workers/reconciler.py:53-163 | With no destroyer and an unchanged file system, a pass at t1 and then one at t2 >= t1 leave the states one pass at t2 leaves (equal rows up to decision, end and revocation stamps) |
| `ReconcilerLaws.PassesAreOne` | labos/workers/reconciler.py:53-163 | The same for any number of passes in time order: only the last one's moment matters |
| `ReconcilerLaws.SecondPassChangesNothing` | labos/workers/reconciler.py:260-386 | A second pass at the same moment changes no row of any table |
| `ReconcilerLaws.SecondPassOnlyReportsAgain` | labos/workers/reconciler.py:53-163 | Its report is the first one's without expired approvals, revoked leases and timed-out runs |
| `ReportLaws.PassAppends` | labos/workers/reconciler.py:53-163 | A pass only appends to the log, and this is what it appends, phase by phase |
| `ReportLaws.ReportMatchesLog` | labos/workers/reconciler.py:389-397 | For each of the eight lists: it is sorted and names an id exactly as often as the pass logs the matching event about it |
| `ReportLaws.FailedExactly` | labos/workers/reconciler.py:89-105 | `failed_lab_ids` names a lab once iff the retry phase left it short of DESTROYED and its storage row or root is missing, and never otherwise |
| `ReportLaws.DestroyedExactly` | labos/workers/reconciler.py:204-247 | `destroyed_lab_ids` names a lab once iff it was being destroyed, has a storage row, and the destroyer did not fail on it |
| `ReportLaws.FailedDestroysExactly` | labos/workers/reconciler.py:183-243 | The list of failed destroys names a lab once iff it was being destroyed and either has no storage row or failed the last attempt allowed |
| `ReportLaws.OrphansExactly` | labos/workers/reconciler.py:123-138 | The list of orphans names an id once for each container found of it iff there is no such lab, and never otherwise |
| `PassLaws.TimedOutExactly` | labos/workers/reconciler.py:354-371 | `timed_out_run_ids` names once exactly the runs that were queued, starting or running and whose time was up |
| `PassLaws.RevokedExactly` | labos/workers/reconciler.py:324-334 | The list of revoked leases names once exactly the open leases whose expiry had come |
| `PassLaws.ExpiredExactly` | labos/workers/reconciler.py:268-287 | The list of expired approvals names once exactly the pending requests whose expiry had come |
| `PassLaws.FaultsExactly` | labos/workers/reconciler.py:89-116 | `failed_lab_ids` on the rows before the pass: exactly the labs without storage that were not destroyed, neither before nor by a retry that succeeded |
| `PassLaws.ZombiesCounted` | labos/workers/reconciler.py:139-160 | `zombie_lab_ids` names a lab once for each container of it that is created, restarting, running or paused, iff the pass leaves the lab in no state that has one |
| `PassLaws.PassTells` | labos/workers/reconciler.py:104-257 | Every event of a pass names the lab of its row, and the attempt or the fault it is about |
| `ReportLaws.FailedAndDestroyedDisjoint` | labos/workers/reconciler.py:82-105 | No lab is in both lists of one pass |
| `ReportLaws.ZombiesExactly` | labos/workers/reconciler.py:413-425 | `zombie_lab_ids` names a lab iff it exists, has an active container, and this pass leaves it in a state that may have none |
| `ReportLaws.EndedWithContainerIsZombie` | labos/workers/reconciler.py:139-160 | A lab that a pass leaves FAILED or DESTROYED with an active container is reported as a zombie by that pass |
| `DestroyLaws.StillDestroyingIff` | labos/workers/reconciler.py:173-258 | For any destroyer: after n >= 1 passes a lab is still DESTROYING iff every attempt failed, its storage row and root were there, and attempts + n is below the limit |
| `DestroyLaws.DestroyRetriesEnd` | labos/workers/reconciler.py:204-243 | For any destroyer: a DESTROYING lab leaves that state within max(1, limit - attempts) passes |
| `DestroyLaws.AttemptsAreLogged` | labos/workers/reconciler.py:204-258 | Over any passes: attempts never decrease, each failed attempt logs one retry-failed event, and attempts made are the failures and successes logged |
| `SchedulerWorker.SchedulerService.Enqueue` | labos/workers/scheduler.py:25-55 | Adds the queued row unless the requester has as many pending jobs as the quota |
| `SchedulerWorker.SchedulerService.PostJob` | labos/api/app.py:718-748 | Commits exactly the enqueue transition, or refuses |
| `SchedulerWorker.SchedulerService.ListJobs` | labos/workers/scheduler.py:57-66 | All jobs, by the moment asked for, then creation, then id |
| `SchedulerWorker.SchedulerService.RunOne` | labos/workers/scheduler.py:92-126 | Marks the job, runs the callback in a savepoint, and on an error rolls back to it and requeues or fails the job |
| `SchedulerWorker.SchedulerService.RunNext` | labos/workers/scheduler.py:68-126 | Runs the queued job whose moment has come that was asked for the earliest moment, then created first, then has the smallest id; or none iff there is none |
| `SchedulerWorker.SchedulerService.DispatchNext` | labos/api/app.py:756-816 | Commits exactly the dispatch transition with its two events |
| `Scheduler.HeadRunsNext` | labos/workers/scheduler.py:77-90 | The job picked is queued, its moment has come, and every other such job was asked for a later moment, or for the same and enqueued later, or at once under a larger id; none is picked iff there is none |
| `CallLaws.JobAnswered` | labos/workers/scheduler.py:25-55 | When enqueueing succeeds, what each of its errors means, and the row it stores: the moment asked for or now, and action, payload, requester and attempts as asked |
| `QueueLaws.DispatchRuns` | labos/api/app.py:756-816 | A dispatch is the call its job asks for, made directly by the scheduler: if that succeeds, all it leaves and SUCCEEDED with its result; if not, only the job row, queued again while attempts are left and FAILED after the last; and the two events of the attempt |
| `QueueLaws.DispatchRefused` | labos/workers/scheduler.py:77-90 | A dispatch is refused iff no queued job has come due |
| `RowLaws.JobKeepsRequest` | labos/workers/scheduler.py:42-55 | Over every run a job keeps what was asked for it: action, payload, requester, attempts and the moment |
| `RowLaws.JobsDoAsAsked` | labos/workers/scheduler.py:92-126 | Over every run no job is dispatched before the moment it was asked for, and what a SUCCEEDED job names is there and is what was asked: a lab of its profile, or a run of its command in its lab |
| `SchedulerLaws.JobsAlwaysOk` | labos/workers/scheduler.py:26-126 | In every reachable state: no requester over quota, no job left DISPATCHED, QUEUED has attempts left, FAILED has none with an error and no result, SUCCEEDED has a result and no error, and no job ever failed on a payload assertion |
| `SchedulerLaws.PayloadHolds` | labos/core/models.py:180-194 | The payload asserts in `run_next` never fire on a job whose request was validated |
| `SchedulerLaws.QueueAfter` | labos/workers/scheduler.py:77-87 | A dispatched job keeps its place at the head if it is requeued and leaves if not; all others keep their places |
| `SchedulerLaws.DrainEnds` | labos/workers/scheduler.py:68-126 | Draining at one moment makes at most the sum of (max_attempts - attempt_count) dispatches, and with that many draws nothing due is left |
| `SchedulerLaws.DrainSettlesTheDue` | labos/workers/scheduler.py:106-126 | Then every job that was queued and whose moment had come is SUCCEEDED or FAILED and every other job's row is untouched, whatever the callbacks do |
| `SchedulerLaws.DrainsInOrder` | labos/workers/scheduler.py:83-87 | Draining dispatches by the moment asked for, then creation, then id, and a job again only right after itself |
| `SchedulerLaws.RetriesAreContiguous` | labos/workers/scheduler.py:106-114 | Nothing else is dispatched between two attempts of one job |
| `ExactlyOnce.FailedAttemptLeavesNothing` | labos/workers/scheduler.py:92-114 | A failed attempt leaves all tables as before the callback, but for its job and the two events of the dispatch |
| `ExactlyOnce.ScheduledOnce` | labos/workers/scheduler.py:116-126 | Over every run: labs (and runs) made by dispatches and SUCCEEDED jobs of that action are in bijection through the jobs' results |
| `Audit.JobLogReplays` | labos/api/app.py:733-813 | Over every run: the log holds, about each job, exactly the events its row implies in order, and none about ids that are no job |
| `Audit.JobLogTellsRow` | labos/api/app.py:780-813 | At every commit a job's attempt count is its number of dispatched events and its state is the one its last event names |
| `Audit.ApprovalLogReplays` | labos/api/app.py:840-892 | Over every run: each approval has one requested event, then one approved, denied or expired event iff it is no longer pending; nothing else has any |
| `ExportAudit.ExportLogReplays` | labos/api/app.py:1023-1199 | Over every run: each export has one requested and one staged event, first, then only blocked and denied ones, and one released event, last, iff its row is RELEASED; nothing else has any |
| `Audit.DrainIsLogged` | labos/api/app.py:780-791 | The log records a drain's dispatches in the order they were made |
| `Paths.NormIdempotent` | labos/security/export_gate.py:164-165 | Resolving is idempotent |
| `Paths.NormConcat` | labos/security/export_gate.py:164-165 | Resolving in two stages is resolving once: norm(a + b) = norm(norm(a) + b) |
| `Paths.NormIsNet` | labos/security/export_gate.py:164-165 | Resolving below a root is going up by the steps left over, the top being its own parent, and then down by the names left over |
| `Paths.WalkIsNet` | labos/security/export_gate.py:164-169 | Followed step by step a path never leaves its start if and only if no steps up are left over, and then it lands where the left-over names lead |
| `Paths.AcceptedIsConfined` | labos/security/export_gate.py:157-170 | For every source string: an accepted path has the resolved exports root as prefix and no dot components |
| `Paths.InsideIsAccepted` | labos/security/export_gate.py:157-170 | A guest path under /lab/exports/ that never climbs out is accepted and resolves to the root and its own walk |
| `Paths.DotFreeIsAccepted` | labos/security/export_gate.py:157-170 | A guest path with no `..` is never an escape and resolves to root plus its components |
| `Paths.AcceptedIff` | labos/security/export_gate.py:157-170 | For every path under /lab/exports/: it is accepted if and only if what it finally goes down by begins with the names of the root it finally went up past, and then where it lands; every other one is an escape |
| `Paths.ReentryIsAccepted` | labos/security/export_gate.py:164-169 | Of every root, climbing any number of its levels out and back in by the names left passes the check and lands inside, though following the path step by step leaves the root |
| `Governance.AllowedSourcesIff` | labos/core/policy_engine.py:209-226 | Of the sources the policy allows, the gate refuses as no guest path exactly those under the policy's second managed prefix, and as escapes exactly those under the first that leave the exports root for good |
| `Governance.AllowedArtifactsAreRefused` | labos/core/policy_engine.py:209-226 | Every path under the policy's second managed prefix is allowed by the policy and refused by the gate as no guest path |
| `Paths.SafeMemberWalk` | labos/storage/snapshots.py:152-161 | An archive member whose relative name never climbs above the root passes the check and lands under it |
| `Paths.SafeMemberIff` | labos/storage/snapshots.py:152-161 | A relative member name is safe if and only if it never leaves the root for good |
| `Paths.Confined` | labos/storage/allocator.py:66-71 | Whatever passes the managed-path check is the root and a dot-free rest |
| `Files.HashFile` | labos/security/export_gate.py:172-177 | The chunked hash loop gives the digest of the whole content, for any byte-wise hash |
| `ExportGate.ExportGate.StageExport` | labos/security/export_gate.py:61-97 | Staging copies the resolved source into the export's own quarantine directory with its digest and size, or refuses and leaves the disk alone |
| `ExportGate.ExportGate.ReleaseExport` | labos/security/export_gate.py:99-130 | Release copies the quarantined bytes to the released path, or refuses and leaves the disk alone |
| `Quarantine.MoveKeepsIntact` | labos/security/export_gate.py:78-92 | Every guest write, loss of files, staging, release and control step keeps all exports' copies intact |
| `Quarantine.QuarantineIntegrity` | labos/security/export_gate.py:78-92 | Over every run: an export's row holds digest and size of the bytes it staged; its quarantined and released copies are those bytes or gone |
| `Quarantine.ReleaseCopiesWhatWasStaged` | labos/security/export_gate.py:108-125 | A release that succeeds puts exactly the staged bytes at the path it records |
| `CopyLaws.StageCopies` | labos/security/export_gate.py:61-97 | An export call that the rows let through succeeds iff its source is a guest path to a file below the exports root, and then puts exactly that file's bytes into the export's own quarantine directory, with their digest and size in the row |
| `CopyLaws.ReleaseCopies` | labos/security/export_gate.py:99-130 | A release of an export that nothing holds back succeeds iff its copy is there, and then puts exactly those bytes at the path it records; a refused one leaves the disk |
| `Quarantine.RowsAreReachable` | labos/api/app.py:1004-1167 | The rows of every run with files are rows of a run of the control plane, so the safety results hold of them |
| `FileTree.Tree.ClearDirectory` | labos/storage/snapshots.py:204-209 | The loop over a directory's entries leaves it there and empty, and everything else as it was |
| `FileTree.Tree.ExtractAll` | labos/storage/snapshots.py:161 | Members are unpacked in order, stopping at the first that cannot be |
| `FileTree.Tree.MoveEntries` | labos/storage/snapshots.py:164-168 | The loop over children moves the whole tree below one directory into the other |
| `Snapshots.ManifestBesideArchive` | labos/storage/snapshots.py:192-196 | The manifest looked up for `<id>.tar.gz` is `<id>.json` beside it, where it was written |
| `Snapshots.SnapshotManager.CreateSnapshot` | labos/storage/snapshots.py:84-118 | Succeeds exactly for a container lab whose directories, archive and manifest can be made and whose workspace exists; packs the workspace, writes archive and manifest and changes nothing else but directories made on the way; and says what each failure leaves on disk |
| `Snapshots.SnapshotManager.RestoreSnapshot` | labos/storage/snapshots.py:130-190 | The imperative restore leaves exactly the disk and result of the restore function, on every failure path too |
| `Snapshots.SnapshotManager.Refill` | labos/storage/snapshots.py:152-169 | Unpack beside the workspace and, when that is another directory, clear and move the entries in |
| `SnapshotLaws.ExtractGrafts` | labos/storage/snapshots.py:100-101 | Unpacking a packed workspace lays it over what is there, member by member |
| `SnapshotLaws.RestoreGives` | labos/storage/snapshots.py:148-169 | Snapshot, then anything that keeps the archive and a manifest of it, earlier restores included, then restore, into a workspace that exists or not: the target holds the saved workspace, none of its own former content, and besides only stale entries of a sibling `workspace`; all else but the manifest is unchanged, and the snapshot can be restored again |
| `SnapshotLaws.TakenIsSaved` | labos/storage/snapshots.py:110-118 | Right after it is taken a snapshot can be restored: its archive is there and its manifest reads back as the metadata returned |
| `SnapshotLaws.ManifestTells` | labos/storage/snapshots.py:84-118 | What the manifest says right after a snapshot: whose it is, when, of what runtime, digest and size of the archive on the disk; and the archive holds every file of the workspace under its own name |
| `SnapshotLaws.RestoreIsInverseIff` | labos/storage/snapshots.py:148-169 | The restore succeeds and gives back exactly what was saved if and only if no file is where the target's directories should be and the target is named `workspace` or its sibling of that name holds no stale entry that the snapshot lacks or has as the other kind |
| `SnapshotLaws.AllocatedRoundTrip` | labos/storage/snapshots.py:94-169 | Between allocated labs a restore succeeds iff the target's directories can be made, and then, each time it is repeated, gives back exactly the saved workspace and leaves exports, quarantine and other snapshots alone |
| `SnapshotLaws.RestoreConfined` | labos/storage/snapshots.py:148-169 | For any archive and any manifest a restore, failed or not, changes nothing outside the directory its workspace lies in but the manifest's own file, and adds at most directories missing above the workspace |
| `SnapshotLaws.RestoreAnswered` | labos/storage/snapshots.py:130-190 | For any archive and manifest what each answer of a restore means: containers only, an archive refused iff a member would leave the directory, what each early refusal leaves on disk, and the restore recorded in the manifest |
| `Allocator.ManagedStorageAllocator.Allocate` | labos/storage/allocator.py:15-35 | Makes the four directories in turn and returns where they are |
| `Allocator.ManagedStorageAllocator.Destroy` | labos/storage/allocator.py:37-40 | Removes the tree under the root path unless it is outside the managed root |
| `Allocator.AllocateGives` | labos/storage/allocator.py:15-35 | Allocation gives four directories under the managed root, changes nothing that existed, and is idempotent |
| `Allocator.DestroyUndoesAllocate` | labos/storage/allocator.py:15-40 | Destroying right after allocating leaves the disk as it was, or, for the first lab, with only the directories down to `labs` made |
| `Allocator.DestroyLeavesOthers` | labos/storage/allocator.py:37-40 | Destroying one lab leaves every other lab's storage alone |
| `StorageLaws.DeletionIsALoss` | labos/storage/allocator.py:37-40 | For exports, deleting a lab's storage is exactly the loss of the files below its root, so the quarantine results hold across it |
| `StorageLaws.RestoreKeepsCopies` | labos/storage/snapshots.py:148-169 | Restoring a snapshot of any lab into any lab, whether it succeeds or not, keeps every export's quarantined and released copies intact |
| `Site.ActKeepsWhole` | labos/api/app.py:583-612 | Guest writes, losses, exports, releases, lab deletions, snapshots taken or failed, restores done or failed and control-plane steps each keep every export's copies and every snapshot's two files as recorded or gone |
| `Site.SiteIntegrity` | labos/security/export_gate.py:78-125 | Over every run of all of these on one disk: an export's row holds digest and size of the bytes it staged; its quarantined and released copies are those bytes or gone |
| `Site.SnapshotsLast` | labos/storage/snapshots.py:84-190 | Over every such run: a snapshot whose files are not lost and whose lab is not deleted can be restored at any later point into any lab whose directories can be made, and gives back the workspace as it was when taken |
| `Site.SiteRowsAreReachable` | labos/api/app.py:1004-1199 | The rows of every such run are rows of a run of the control plane, so the safety results hold of them |
| `LeaseWorker.SecretLeaseService.PostLease` | labos/api/app.py:614-657 | Commits exactly the issue transition and its event, or refuses |
| `LeaseWorker.SecretLeaseService.IssueLease` | labos/security/secret_broker.py:49-80 | The checks in order, then one approved, unrevoked row |
| `LeaseWorker.SecretLeaseService.PostRevocation` | labos/api/app.py:667-695 | Commits exactly the revocation and its event, or refuses |
| `CallLaws.LeaseAnswered` | labos/security/secret_broker.py:49-80 | When a lease is issued and exactly what each refusal means, in order: minutes, lab, profile, a secret the profile allows and the broker holds; and the row it stores |
| `CallLaws.RevocationAnswered` | labos/security/secret_broker.py:82-89 | When a revocation succeeds, what each refusal means, and that it stamps that lease and nothing else |
| `RowLaws.LeaseFate` | labos/security/secret_broker.py:82-89 | Over every run an open lease is ended by the first revocation of it or the first pass once it has expired, and by nothing else ever |
| `RowLaws.NewLeaseLasts` | labos/security/secret_broker.py:100-118 | A new lease short of being revoked is handed to its lab from the moment it was issued until exactly its minutes are over, through any run, and to no other lab ever |
| `RowLaws.RevokedStaysRevoked` | labos/security/secret_broker.py:82-118 | A revoked lease is never handed out again |
| `RowLaws.LeasesAlwaysAllowed` | labos/security/secret_broker.py:65-67 | Over every run every lease is for a secret that the profile of its lab allows |
| `RowLaws.HandsOutOnlyAllowed` | labos/security/secret_broker.py:65-118 | Hence no lab is ever handed a secret that its profile does not allow |
| `LeaseLaws.MaterializesExactly` | labos/security/secret_broker.py:100-118 | Exactly the lab's approved, unrevoked, unexpired leases are handed out, in (created_at, id) order, with their values; only an unresolvable secret stops that |
| `LeaseLaws.RuntimeAcceptsIff` | labos/runtimes/base.py:24-26 | What was handed out at one moment the runtime accepts at another iff none of those leases has expired by then |
| `LeaseLaws.RuntimeAgrees` | labos/runtimes/docker_runtime.py:167-175 | At the same moment the runtime refuses nothing that was handed out |
| `LeaseLaws.EnvironmentIsTheSecrets` | labos/runtimes/docker_runtime.py:167-175 | The environment binds exactly the leased secrets' names, each to its value |
| `LeaseLaws.PassKeepsHandout` | labos/workers/reconciler.py:324-333 | A pass at a moment changes nothing in what is handed out then or later |
| `LeaseLaws.LeasesEndOnce` | labos/security/secret_broker.py:82-89 | Over every run a lease has one revoked-or-expired event iff its row is revoked, and never more |
| `Leases.BoundBinds` | labos/runtimes/docker_runtime.py:167-175 | Binding grants in turn maps each name to the value of its last grant and nothing else |
| `DockerRuntime.DockerRuntime.BuildEnvironment` | labos/runtimes/docker_runtime.py:167-175 | Refuses at the first unapproved or expired grant, with its name; otherwise binds them all |
| `DockerRuntime.DockerRuntime.CreateLab` | labos/runtimes/docker_runtime.py:63-102 | Network, volumes, environment, container in order with the rollback loop, which stops at the first removal the engine refuses: the failing step, whether everything was undone, and the engine's state after it |
| `DockerRuntime.DockerRuntime.DestroyLab` | labos/runtimes/docker_runtime.py:118-134 | Container first, then its network and, when asked, each volume it mounts, going on past refusals: the error and the engine's state after it |
| `DockerLaws.CreatedAsAsked` | labos/runtimes/docker_runtime.py:63-96 | What a creation that succeeds leaves: a network under the lab's name, internal iff the mode is RESTRICTED and none for DENY; the container with the image, network, secrets, binds and read-only flag asked for; new volumes empty and old ones as they were |
| `DockerLaws.CreationAnswered` | labos/runtimes/docker_runtime.py:63-96 | At which step a creation fails and why: the first thing that could not be done |
| `DockerLaws.EnvironmentAnswered` | labos/runtimes/docker_runtime.py:167-175 | The environment is refused for the first grant that is not approved or has expired, and for which of the two |
| `DockerLaws.UndoneIff` | labos/runtimes/docker_runtime.py:97-102 | A rollback runs to its end iff the new network goes and every volume asked for is unmounted and goes; then exactly those are gone and the rest is as it was |
| `DockerLaws.DestroyedAsAsked` | labos/runtimes/docker_runtime.py:118-134 | When destroying a lab fails and, if not, exactly which of its container, network and volumes go |
| `DockerRuntime.RollbackRestoresIff` | labos/runtimes/docker_runtime.py:97-102 | Whichever step fails and whatever the engine refuses to remove, networks, volumes and containers are as before if and only if a network just made could be removed, no volume up to the first refusal existed already, and every later one did |
| `DockerRuntime.FreshRollback` | labos/runtimes/docker_runtime.py:97-102 | With fresh volume names and no refusals every failure leaves everything as before |
| `DockerRuntime.CreationAdds` | labos/runtimes/docker_runtime.py:71-96 | A creation that succeeds keeps everything that existed and adds exactly its own network, volumes and container |
| `DockerRuntime.DestroyUndoesCreateIff` | labos/runtimes/docker_runtime.py:118-134 | Destroying a lab just created, volumes included, gives back the engine as it was if and only if it had no network under the lab's name and, of the volumes mounted, exactly those another container uses |
| `DockerRuntime.RetriedCreationLosesVolumes` | labos/runtimes/docker_runtime.py:97-134 | After a destroy that keeps the volumes, as by default, a new creation that fails past the volumes removes all of them and what they held, whatever their number and the network mode |

## Left out

- Database concurrency: each call or pass is one atomic step that commits or leaves the tables as they were; flushes,
  isolation levels and foreign keys are not modelled, and unique-key clashes are an `IntegrityError`.
- Row objects and identity maps: a session holds tables as maps that the methods reassign row by row, so two handles
  on one row are not distinguished.
- Clocks: a call reads the time once (a dispatch twice), where the source reads it at each use; times are integers, so
  naive and aware datetimes do not differ.
- Identifiers: UUIDs are natural numbers supplied to each step and printed in decimal; a clash is an error of the
  call, and `Quarantine` assumes export ids fresh, because the copy is made before the clash would be noticed.
- Event rows: kind, resource, lab and attempt number are kept; actors, run ids and the rest of the payload are not.
- Directories left behind: when a lab's creation fails after allocating, its directories stay on disk; creating a lab
  takes "the directories could be made" as an outcome, and only `Allocator` models the disk side of it.
- Symbolic links, permissions and other file-system errors: `resolve` is lexical, and a step fails only for the
  reasons the model names.
- Archive and manifest encodings and SHA-256: any lossless codecs and any byte-wise hash; gzip headers, tar metadata
  and JSON text are not modelled. Packing lists shorter paths first instead of walking directories by name.
- Absolute member names: the unpacking filter's stripping of leading slashes is modelled as unpacking below the root;
  such names occur in no archive that `CreateSnapshot` writes.
- Snapshot rows and the snapshot endpoints: lookups around `SnapshotManager`, with the events they log.
- Profile numbers (CPU, memory, disk, retention), host-mount strings, request overrides and retention deadlines:
  checks of single values.
- `strip()` in denial reasons and comments trims ASCII white space only.
- Docker: start, stop, exec, logs, inspection, labels, commands and resource limits. Which creations and removals fail
  is an input, besides what the code relies on: a taken name fails, and a volume that a container mounts is not
  removed.
- Snapshots: the round trips are about a source workspace that is a directory with ordinary entry names (no slash, no
  dot name), and a target workspace (with its sibling named `workspace`) that does not contain the snapshot's own two
  files; the latter holds between allocated labs. In runs of `Site` snapshot ids are fresh, and directories may come
  and go with every file move.
- Labs in PROVISIONING, RUNNING, STOPPED or DESTROYING: no call of the modelled API creates one, so the destroy-retry
  and zombie laws are stated for all tables, reachable or not.
- The CLI, list endpoints, response mappers, release helpers and the Docker probe: input and output around these rows.
