/** The event log replays the tables: every job's and every approval's history is exactly what its row says. */
module Audit {
  import opened Basics
  import opened Schema
  import opened Policy
  import opened Governance
  import opened Q = Scheduler
  import opened ControlPlane
  import opened GovernanceLaws
  import opened ReconcilerLaws
  import opened ReportLaws
  import opened SchedulerLaws
  import R = Reconciler
  import L = Leases

  // ---------- what each step appends ----------

  /** The log grows by `log`. */
  predicate Appends(s: Tables, t: Tables, log: seq<Event>) { t.events == s.events + log }

  /** The log grows by events of these kinds only. */
  ghost predicate AppendsOnly(s: Tables, t: Tables, kinds: set<EventKind>) {
    exists log :: Appends(s, t, log) && OnlyKinds(log, kinds)
  }

  lemma AppendsNothing(s: Tables, t: Tables, kinds: set<EventKind>)
    requires t.events == s.events
    ensures AppendsOnly(s, t, kinds)
  {
    assert s.events + [] == s.events;
    assert Appends(s, t, []) && OnlyKinds([], kinds);
  }

  lemma AppendsOne(s: Tables, t: Tables, e: Event, kinds: set<EventKind>)
    requires t.events == s.events + [e] && e.kind in kinds
    ensures AppendsOnly(s, t, kinds)
  {
    assert Appends(s, t, [e]) && OnlyKinds([e], kinds);
  }

  lemma HistUnmoved(s: Tables, t: Tables, kinds: set<EventKind>, asked: set<EventKind>, id: Id)
    requires AppendsOnly(s, t, kinds) && kinds !! asked
    ensures Hist(t.events, asked, id) == Hist(s.events, asked, id)
  {
    var log :| Appends(s, t, log) && OnlyKinds(log, kinds);
    HistConcat(s.events, log, asked, id);
    OtherKinds(log, kinds, asked, id, |log|);
  }

  lemma RunAppends(c: Config, s: Tables, lab: Id, command: string, run: Id, now: Time)
    ensures AppendsOnly(s, AddRun(c, s, lab, command, run, now).rows, {RunQueued})
  {
    var o := AddRun(c, s, lab, command, run, now);
    if o.error.Some? { AppendsNothing(s, o.rows, {RunQueued}); }
    else { AppendsOne(s, o.rows, Event(RunQueued, run, Some(lab), Plain), {RunQueued}); }
  }

  lemma DestroyAppends(c: Config, s: Tables, lab: Id, removed: bool)
    ensures AppendsOnly(s, Governance.DestroyLab(c, s, lab, removed).rows, {LabDestroyed})
  {
    var t := Governance.DestroyLab(c, s, lab, removed).rows;
    if t.events == s.events { AppendsNothing(s, t, {LabDestroyed}); }
    else { AppendsOne(s, t, Event(LabDestroyed, lab, Some(lab), Plain), {LabDestroyed}); }
  }

  lemma ReleaseAppends(s: Tables, e: Id, present: bool)
    ensures AppendsOnly(s, Governance.ReleaseExport(s, e, present).rows, {ExportReleased, ExportReleaseBlocked})
  {
    var t := Governance.ReleaseExport(s, e, present).rows;
    if t.events == s.events { AppendsNothing(s, t, {ExportReleased, ExportReleaseBlocked}); }
    else { AppendsOne(s, t, t.events[|t.events| - 1], {ExportReleased, ExportReleaseBlocked}); }
  }

  lemma DenyAppends(s: Tables, e: Id, reason: string)
    ensures AppendsOnly(s, Governance.DenyExport(s, e, reason).rows, {ExportDenied})
  {
    var t := Governance.DenyExport(s, e, reason).rows;
    if t.events == s.events { AppendsNothing(s, t, {ExportDenied}); }
    else { AppendsOne(s, t, t.events[|t.events| - 1], {ExportDenied}); }
  }

  lemma IssueAppends(
    c: Config, b: L.Broker, s: Tables, lab: Id, secret: string, ttl: int, lease: Id, now: Time)
    ensures AppendsOnly(s, L.Issue(c, b, s, lab, secret, ttl, lease, now).rows, {LeaseIssued})
  {
    var o := L.Issue(c, b, s, lab, secret, ttl, lease, now);
    if o.error.Some? { AppendsNothing(s, o.rows, {LeaseIssued}); }
    else { AppendsOne(s, o.rows, Event(LeaseIssued, lease, Some(lab), Plain), {LeaseIssued}); }
  }

  lemma RevokeAppends(s: Tables, lease: Id, now: Time)
    ensures AppendsOnly(s, L.Revoke(s, lease, now).rows, {LeaseRevoked})
  {
    var o := L.Revoke(s, lease, now);
    if o.error.Some? { AppendsNothing(s, o.rows, {LeaseRevoked}); }
    else { AppendsOne(s, o.rows, Event(LeaseRevoked, lease, Some(s.leases[lease].lab), Plain), {LeaseRevoked}); }
  }

  // ---------- jobs ----------

  const JOB_KINDS := {JobEnqueued, JobDispatched, JobRequeued, JobSucceeded, JobFailed}

  function Dispatched(id: Id, n: nat): Event { Event(JobDispatched, id, None, Attempt(n)) }

  function Closed(id: Id, st: JobState, n: nat): Event { Event(ClosingKind(st), id, None, Attempt(n)) }

  /** Enqueued, and then dispatched and requeued `n` times. */
  function Tried(id: Id, n: nat): seq<Event> {
    if n == 0 then [Event(JobEnqueued, id, None, Plain)]
    else Tried(id, n - 1) + [Dispatched(id, n), Closed(id, JobState.Queued, n)]
  }

  /** The whole history of a job with this row. */
  function JobStory(id: Id, j: Job): seq<Event>
    requires JobOk(j)
  {
    if j.state.Queued? then Tried(id, j.attempts)
    else Tried(id, j.attempts - 1) + [Dispatched(id, j.attempts), Closed(id, j.state, j.attempts)]
  }

  ghost predicate JobsReplay(s: Tables) {
    && JobsOk(s.jobs)
    && forall id :: JobLog(s, id) == if id in s.jobs then JobStory(id, s.jobs[id]) else []
  }

  function JobLog(s: Tables, id: Id): seq<Event> { Hist(s.events, JOB_KINDS, id) }

  lemma AddLabAppends(c: Config, s: Tables, profile: string, requester: Requester, d: LabDraft, now: Time)
    ensures AppendsOnly(s, AddLab(c, s, profile, requester, d, now).rows, {ApprovalRequested, LabRequested})
  {
    var o := AddLab(c, s, profile, requester, d, now);
    var kinds := {ApprovalRequested, LabRequested};
    if o.error.Some? {
      AppendsNothing(s, o.rows, kinds);
    } else {
      var made := Event(LabRequested, d.labId, Some(d.labId), Plain);
      if StartNeedsApproval(c.profiles[profile], requester) {
        var log := [Event(ApprovalRequested, d.approvalId, Some(d.labId), Plain)] + [made];
        assert Appends(s, o.rows, log) && OnlyKinds(log, kinds);
      } else {
        AppendsOne(s, o.rows, made, kinds);
      }
    }
  }

  /** What staging logs, given what it wrote. */
  lemma StageLog(c: Config, s: Tables, lab: Id, source: string, run: Option<Id>, d: ExportDraft, now: Time)
    requires CreateExport(c, s, lab, source, run, d, now).error.None?
    ensures var t := CreateExport(c, s, lab, source, run, d, now).rows;
      && d.exportId in t.exports
      && Appends(s, t,
           [Event(ExportRequested, d.exportId, Some(lab), Plain)] + [Event(ExportStaged, d.exportId, Some(lab), Plain)]
           + (if t.exports[d.exportId].approvalRequired
              then [Event(ApprovalRequested, d.approvalId, Some(lab), Plain)] else []))
  {
  }

  lemma StageAppends(c: Config, s: Tables, lab: Id, source: string, run: Option<Id>, d: ExportDraft, now: Time)
    ensures AppendsOnly(s, CreateExport(c, s, lab, source, run, d, now).rows,
                        {ExportRequested, ExportStaged, ApprovalRequested})
  {
    var o := CreateExport(c, s, lab, source, run, d, now);
    if o.error.Some? {
      AppendsNothing(s, o.rows, {ExportRequested, ExportStaged, ApprovalRequested});
    } else {
      StageLog(c, s, lab, source, run, d, now);
    }
  }

  lemma DecideAppends(s: Tables, a: Id, d: Decision, actor: string, comment: Option<string>, now: Time)
    ensures var o := Governance.Decide(s, a, d, actor, comment, now);
      o.rows.events == if o.error.Some? || a !in s.approvals then s.events
                       else s.events + [Event(DecisionKind(d), a, s.approvals[a].lab, Plain)]
  {
  }

  const PASS_KINDS :=
    {ApprovalExpired, LeaseExpired, RunTimedOut, LabReconciliationFailed} + RETRY_KINDS + INVENTORY_KINDS

  lemma PassAppendsOnly(s: Tables, now: Time, w: R.World, max: int)
    ensures AppendsOnly(s, R.Reconcile(s, now, w, max), PASS_KINDS)
  {
    var swept := R.Sweep(s, now);
    var retried := R.Retry(swept, w, max);
    PassAppends(s, now, w, max);
    SweepKinds(s, now);
    RetryLogKinds(swept, w, max);
    FaultKinds(retried, w);
    FoundKinds(R.ScanLabs(retried, w), w);
    SixKinds(StaleLog(s, now), LeasesLog(s, now), RunsLog(s, now), RetriesLog(swept, w, max),
             FaultsLog(retried, w), FoundLog(R.ScanLabs(retried, w), w));
    assert Appends(s, R.Reconcile(s, now, w, max), PassLog(s, now, w, max));
  }

  lemma SixKinds(a: seq<Event>, b: seq<Event>, c: seq<Event>, d: seq<Event>, e: seq<Event>, f: seq<Event>)
    requires OnlyKinds(a, {ApprovalExpired}) && OnlyKinds(b, {LeaseExpired}) && OnlyKinds(c, {RunTimedOut})
    requires OnlyKinds(d, RETRY_KINDS) && OnlyKinds(e, {LabReconciliationFailed}) && OnlyKinds(f, INVENTORY_KINDS)
    ensures OnlyKinds(a + b + c + d + e + f, PASS_KINDS)
  {
  }

  /** The kinds of events a step other than enqueueing and dispatching can log. */
  function StepKinds(step: Step): set<EventKind>
    requires !TouchesJobs(step)
  {
    match step
    case CreateLab(_, _, _, _) => {ApprovalRequested, LabRequested}
    case DestroyLab(_, _) => {LabDestroyed}
    case CreateRun(_, _, _, _) => {RunQueued}
    case Decide(_, _, _, _, _) => {ApprovalApproved, ApprovalDenied}
    case StageExport(_, _, _, _, _) => {ExportRequested, ExportStaged, ApprovalRequested}
    case ReleaseExport(_, _) => {ExportReleased, ExportReleaseBlocked}
    case DenyExport(_, _) => {ExportDenied}
    case IssueLease(_, _, _, _, _, _) => {LeaseIssued}
    case RevokeLease(_, _) => {LeaseRevoked}
    case Reconcile(_, _) => PASS_KINDS
  }

  lemma DecideAppendsOnly(s: Tables, a: Id, d: Decision, actor: string, comment: Option<string>, now: Time)
    ensures AppendsOnly(s, Governance.Decide(s, a, d, actor, comment, now).rows, {ApprovalApproved, ApprovalDenied})
  {
    var t := Governance.Decide(s, a, d, actor, comment, now).rows;
    DecideAppends(s, a, d, actor, comment, now);
    if t.events == s.events {
      AppendsNothing(s, t, {ApprovalApproved, ApprovalDenied});
    } else {
      AppendsOne(s, t, Event(DecisionKind(d), a, s.approvals[a].lab, Plain), {ApprovalApproved, ApprovalDenied});
    }
  }

  lemma StepAppendsOnly(c: Config, s: Tables, step: Step)
    requires !TouchesJobs(step)
    ensures AppendsOnly(s, Next(c, s, step), StepKinds(step))
  {
    match step
    case CreateLab(profile, requester, draft, now) => AddLabAppends(c, s, profile, requester, draft, now);
    case DestroyLab(lab, removed) => DestroyAppends(c, s, lab, removed);
    case CreateRun(lab, command, run, now) => RunAppends(c, s, lab, command, run, now);
    case Decide(a, d, actor, comment, now) => DecideAppendsOnly(s, a, d, actor, comment, now);
    case StageExport(lab, source, run, draft, now) => StageAppends(c, s, lab, source, run, draft, now);
    case ReleaseExport(e, present) => ReleaseAppends(s, e, present);
    case DenyExport(e, reason) => DenyAppends(s, e, reason);
    case IssueLease(broker, lab, secret, ttl, lease, now) => IssueAppends(c, broker, s, lab, secret, ttl, lease, now);
    case RevokeLease(lease, now) => RevokeAppends(s, lease, now);
    case Reconcile(now, w) => PassAppendsOnly(s, now, w, c.maxDestroyAttempts);
  }

  lemma NoJobKinds(step: Step)
    requires !TouchesJobs(step)
    ensures StepKinds(step) !! JOB_KINDS
  {
  }

  lemma OthersLogNoJobs(c: Config, s: Tables, step: Step, id: Id)
    requires !TouchesJobs(step)
    ensures JobLog(Next(c, s, step), id) == JobLog(s, id)
  {
    StepAppendsOnly(c, s, step);
    NoJobKinds(step);
    HistUnmoved(s, Next(c, s, step), StepKinds(step), JOB_KINDS, id);
  }

  const CALLBACK_KINDS := {ApprovalRequested, LabRequested, RunQueued}

  lemma AttemptAppends(c: Config, s: Tables, j: Job, cb: Callback, now: Time)
    ensures AppendsOnly(s, Attempted(c, s, j, cb, now).rows, CALLBACK_KINDS)
  {
    var o := Attempted(c, s, j, cb, now);
    if j.action.CreateLab? && j.profile.Some? {
      AddLabAppends(c, s, j.profile.value, Requester.Scheduler, cb.draft, now);
      WidenKinds(s, o.rows, {ApprovalRequested, LabRequested}, CALLBACK_KINDS);
    } else if j.action.StartRun? && j.lab.Some? && j.command.Some? {
      RunAppends(c, s, j.lab.value, j.command.value, cb.runId, now);
      WidenKinds(s, o.rows, {RunQueued}, CALLBACK_KINDS);
    } else {
      AppendsNothing(s, o.rows, CALLBACK_KINDS);
    }
  }

  lemma WidenKinds(s: Tables, t: Tables, kinds: set<EventKind>, wider: set<EventKind>)
    requires AppendsOnly(s, t, kinds) && kinds <= wider
    ensures AppendsOnly(s, t, wider)
  {
    var log :| Appends(s, t, log) && OnlyKinds(log, kinds);
    assert OnlyKinds(log, wider);
  }

  /** A dispatch logs what its callback logs, if it succeeds, and then two events about its job. */
  lemma DispatchAppends(c: Config, s: Tables, cb: Callback, now: Time, done: Time)
    requires var q := DueQuery(s.jobs, now); q != [] && q[0] in s.jobs
    ensures var q, t := DueQuery(s.jobs, now), Q.Dispatch(c, s, cb, now, done).rows;
      && q[0] in t.jobs
      && var r, row := RunJob(c, s, q[0], cb, now, done), t.jobs[q[0]];
      && r.jobs == t.jobs
      && AppendsOnly(s, r, CALLBACK_KINDS)
      && t.events == r.events + [Dispatched(q[0], row.attempts)] + [Closed(q[0], row.state, row.attempts)]
  {
    var id := DueQuery(s.jobs, now)[0];
    var started := Started(s.jobs[id], now);
    RunJobAppends(c, s, id, cb, now, done);
  }

  lemma RunJobAppends(c: Config, s: Tables, id: Id, cb: Callback, now: Time, done: Time)
    requires id in s.jobs
    ensures AppendsOnly(s, RunJob(c, s, id, cb, now, done), CALLBACK_KINDS)
  {
    var r, started := RunJob(c, s, id, cb, now, done), Started(s.jobs[id], now);
    var s1 := s.(jobs := s.jobs[id := started]);
    AttemptAppends(c, s1, started, cb, now);
    if AttemptError(c, s, id, cb, now).Some? {
      AppendsNothing(s, r, CALLBACK_KINDS);
    } else {
      var log :| Appends(s1, Attempted(c, s1, started, cb, now).rows, log) && OnlyKinds(log, CALLBACK_KINDS);
      assert Appends(s, r, log);
    }
  }

  lemma DispatchJobLog(c: Config, s: Tables, cb: Callback, now: Time, done: Time, id: Id)
    requires var q := DueQuery(s.jobs, now); q != [] && q[0] in s.jobs
    ensures var q, t := DueQuery(s.jobs, now), Q.Dispatch(c, s, cb, now, done).rows;
      && q[0] in t.jobs
      && var row := t.jobs[q[0]];
      JobLog(t, id) == JobLog(s, id)
        + (if id == q[0] then [Dispatched(id, row.attempts), Closed(id, row.state, row.attempts)] else [])
  {
    var q, t := DueQuery(s.jobs, now), Q.Dispatch(c, s, cb, now, done).rows;
    var r := RunJob(c, s, q[0], cb, now, done);
    DispatchAppends(c, s, cb, now, done);
    LogOfPair(s, r, t, q[0], t.jobs[q[0]], id);
  }

  lemma LogOfPair(s: Tables, r: Tables, t: Tables, q: Id, row: Job, id: Id)
    requires AppendsOnly(s, r, CALLBACK_KINDS)
    requires t.events == r.events + [Dispatched(q, row.attempts)] + [Closed(q, row.state, row.attempts)]
    ensures JobLog(t, id) == JobLog(s, id)
        + (if id == q then [Dispatched(id, row.attempts), Closed(id, row.state, row.attempts)] else [])
  {
    var a, b := Dispatched(q, row.attempts), Closed(q, row.state, row.attempts);
    HistUnmoved(s, r, CALLBACK_KINDS, JOB_KINDS, id);
    HistAppend(r.events, a, JOB_KINDS, id);
    HistAppend(r.events + [a], b, JOB_KINDS, id);
  }

  lemma DispatchReplays(c: Config, s: Tables, cb: Callback, now: Time, done: Time)
    requires JobsReplay(s)
    ensures JobsReplay(Q.Dispatch(c, s, cb, now, done).rows)
  {
    var q, t := DueQuery(s.jobs, now), Q.Dispatch(c, s, cb, now, done).rows;
    if q == [] {
      DrainIdle(c, s, cb, now, done);
    } else {
      DispatchKeepsJobOk(c, s, cb, now, done);
      DrainStep(c, s, cb, now, done);
      StoryGrows(q[0], s.jobs[q[0]], t.jobs[q[0]]);
      forall id ensures JobLog(t, id) == if id in t.jobs then JobStory(id, t.jobs[id]) else [] {
        DispatchJobLog(c, s, cb, now, done, id);
      }
    }
  }

  /** A dispatched job's history is its history so far and the two events of this dispatch. */
  lemma StoryGrows(id: Id, before: Job, after: Job)
    requires JobOk(before) && before.state.Queued? && JobOk(after) && after.attempts == before.attempts + 1
    ensures JobStory(id, after)
         == JobStory(id, before) + [Dispatched(id, after.attempts), Closed(id, after.state, after.attempts)]
  {
  }

  lemma EnqueueReplays(c: Config, s: Tables, r: JobRequest, id: Id, now: Time)
    requires JobsReplay(s)
    ensures JobsReplay(Q.Enqueue(c, s, r, id, now).rows)
  {
    var o := Q.Enqueue(c, s, r, id, now);
    if o.error.None? { NewJobReplays(s, o.rows, id, NewJob(r, now)); }
  }

  lemma NewJobReplays(s: Tables, t: Tables, id: Id, row: Job)
    requires JobsReplay(s) && id !in s.jobs && JobOk(row) && row.state.Queued? && row.attempts == 0
    requires t.jobs == s.jobs[id := row] && t.events == s.events + [Event(JobEnqueued, id, None, Plain)]
    ensures JobsReplay(t)
  {
    forall x ensures JobLog(t, x) == if x in t.jobs then JobStory(x, t.jobs[x]) else [] {
      HistAppend(s.events, Event(JobEnqueued, id, None, Plain), JOB_KINDS, x);
    }
  }

  lemma StepReplaysJobs(c: Config, s: Tables, step: Step)
    requires JobsReplay(s)
    ensures JobsReplay(Next(c, s, step))
  {
    match step
    case Enqueue(request, job, now) => EnqueueReplays(c, s, request, job, now);
    case Dispatch(cb, now, done) => DispatchReplays(c, s, cb, now, done);
    case _ =>
      OthersKeepJobs(c, s, step);
      forall id ensures JobLog(Next(c, s, step), id) == JobLog(s, id) { OthersLogNoJobs(c, s, step, id); }
  }

  /** Over every run: the log holds exactly the history each job's row implies, and none for jobs that never were. */
  lemma {:induction false} JobLogReplays(c: Config, steps: seq<Step>)
    ensures JobsReplay(RunFrom(c, EMPTY, steps))
  {
    if steps != [] {
      var n := |steps| - 1;
      JobLogReplays(c, steps[..n]);
      StepReplaysJobs(c, RunFrom(c, EMPTY, steps[..n]), steps[n]);
    }
  }

  // ---------- reading a job's state and attempts back from its log ----------

  /** How many of the first `n` events dispatch a job. */
  function Dispatches(log: seq<Event>, n: nat): nat
    requires n <= |log|
  {
    if n == 0 then 0 else Dispatches(log, n - 1) + (if log[n - 1].kind.JobDispatched? then 1 else 0)
  }

  /** The state that a job's last event leaves it in. */
  function StateAfter(last: EventKind): JobState {
    if last.JobSucceeded? then JobState.Succeeded
    else if last.JobFailed? then JobState.Failed
    else if last.JobDispatched? then JobState.Dispatched
    else JobState.Queued
  }

  lemma {:induction false} DispatchesPrefix(a: seq<Event>, b: seq<Event>, n: nat)
    requires n <= |a|
    ensures Dispatches(a + b, n) == Dispatches(a, n)
  {
    if n > 0 { DispatchesPrefix(a, b, n - 1); }
  }

  lemma {:induction false} TriedCounts(id: Id, n: nat)
    ensures Tried(id, n) != [] && Dispatches(Tried(id, n), |Tried(id, n)|) == n
    ensures StateAfter(Tried(id, n)[|Tried(id, n)| - 1].kind) == JobState.Queued
  {
    if n > 0 {
      TriedCounts(id, n - 1);
      var before := Tried(id, n - 1);
      var log := before + [Dispatched(id, n), Closed(id, JobState.Queued, n)];
      DispatchesPrefix(before, [Dispatched(id, n), Closed(id, JobState.Queued, n)], |before|);
      assert Dispatches(log, |before| + 1) == Dispatches(log, |before|) + 1;
    } else {
      assert Dispatches(Tried(id, 0), 1) == Dispatches(Tried(id, 0), 0);
    }
  }

  /** A job's story tells its row. */
  lemma StoryTells(id: Id, j: Job)
    requires JobOk(j)
    ensures var log := JobStory(id, j);
      log != [] && j.attempts == Dispatches(log, |log|) && j.state == StateAfter(log[|log| - 1].kind)
  {
    if j.state.Queued? {
      TriedCounts(id, j.attempts);
    } else {
      var before := Tried(id, j.attempts - 1);
      var pair := [Dispatched(id, j.attempts), Closed(id, j.state, j.attempts)];
      TriedCounts(id, j.attempts - 1);
      DispatchesPrefix(before, pair, |before|);
      assert Dispatches(before + pair, |before| + 1) == Dispatches(before + pair, |before|) + 1;
    }
  }

  /**
   * At every commit a job's attempt count is the number of its dispatched events, and its state is the one its
   * last event names.
   */
  lemma JobLogTellsRow(c: Config, steps: seq<Step>, id: Id)
    requires id in RunFrom(c, EMPTY, steps).jobs
    ensures var s := RunFrom(c, EMPTY, steps);
      var log := JobLog(s, id);
      && log != []
      && s.jobs[id].attempts == Dispatches(log, |log|)
      && s.jobs[id].state == StateAfter(log[|log| - 1].kind)
  {
    JobLogReplays(c, steps);
    StoryTells(id, RunFrom(c, EMPTY, steps).jobs[id]);
  }

  // ---------- approvals ----------

  const APPROVAL_KINDS := {ApprovalRequested, ApprovalApproved, ApprovalDenied, ApprovalExpired}

  function ApprovalLog(s: Tables, a: Id): seq<Event> { Hist(s.events, APPROVAL_KINDS, a) }

  function ClosingOf(st: ApprovalState): EventKind {
    if st.Approved? then ApprovalApproved else if st.Rejected? then ApprovalDenied else ApprovalExpired
  }

  /** One request, and one decision or expiry once it is no longer pending. */
  function ApprovalStory(a: Id, row: Approval): seq<Event> {
    [Event(ApprovalRequested, a, row.lab, Plain)]
    + (if row.state.Requested? then [] else [Event(ClosingOf(row.state), a, row.lab, Plain)])
  }

  ghost predicate ApprovalsReplay(s: Tables) {
    forall a :: ApprovalLog(s, a) == if a in s.approvals then ApprovalStory(a, s.approvals[a]) else []
  }

  lemma NoApprovalKinds(step: Step)
    requires !TouchesJobs(step)
    requires !step.CreateLab? && !step.StageExport? && !step.Decide? && !step.Reconcile?
    ensures StepKinds(step) !! APPROVAL_KINDS
  {
  }

  /** A new pending row logs its request, after events about other things. */
  lemma RequestReplays(s: Tables, t: Tables, gated: bool, g: Id, row: Approval, before: seq<Event>, after: seq<Event>)
    requires ApprovalsReplay(s) && GateAdded(s, t, gated, g, row) && row.state.Requested?
    requires OnlyKinds(before, {ExportRequested, ExportStaged}) && OnlyKinds(after, {LabRequested})
    requires Appends(s, t, before + (if gated then [Event(ApprovalRequested, g, row.lab, Plain)] else []) + after)
    ensures ApprovalsReplay(t)
  {
    var asked := if gated then [Event(ApprovalRequested, g, row.lab, Plain)] else [];
    forall a ensures ApprovalLog(t, a) == if a in t.approvals then ApprovalStory(a, t.approvals[a]) else [] {
      HistConcat(s.events, before + asked + after, APPROVAL_KINDS, a);
      HistConcat(before + asked, after, APPROVAL_KINDS, a);
      HistConcat(before, asked, APPROVAL_KINDS, a);
      OtherKinds(before, {ExportRequested, ExportStaged}, APPROVAL_KINDS, a, |before|);
      OtherKinds(after, {LabRequested}, APPROVAL_KINDS, a, |after|);
      if gated { HistOfOne(asked[0], APPROVAL_KINDS, a); }
    }
  }

  lemma AddLabReplays(c: Config, s: Tables, profile: string, requester: Requester, d: LabDraft, now: Time)
    requires ApprovalsReplay(s)
    ensures ApprovalsReplay(AddLab(c, s, profile, requester, d, now).rows)
  {
    var o := AddLab(c, s, profile, requester, d, now);
    if o.error.None? {
      var gated := StartNeedsApproval(c.profiles[profile], requester);
      var row := PendingRequest(d.labId, LabResource, d.labId, now);
      var after := [Event(LabRequested, d.labId, Some(d.labId), Plain)];
      assert [] + (if gated then [Event(ApprovalRequested, d.approvalId, row.lab, Plain)] else []) + after
          == if gated then [Event(ApprovalRequested, d.approvalId, Some(d.labId), Plain)] + after else after;
      RequestReplays(s, o.rows, gated, d.approvalId, row, [], after);
    }
  }

  lemma StageReplays(c: Config, s: Tables, lab: Id, source: string, run: Option<Id>, d: ExportDraft, now: Time)
    requires ApprovalsReplay(s)
    ensures ApprovalsReplay(CreateExport(c, s, lab, source, run, d, now).rows)
  {
    var o := CreateExport(c, s, lab, source, run, d, now);
    if o.error.None? {
      StageLog(c, s, lab, source, run, d, now);
      StageExportAdds(c, s, lab, source, run, d, now);
      var gated := o.rows.exports[d.exportId].approvalRequired;
      var row := PendingRequest(lab, ExportResource, d.exportId, now);
      var before :=
        [Event(ExportRequested, d.exportId, Some(lab), Plain)] + [Event(ExportStaged, d.exportId, Some(lab), Plain)];
      var asked := if gated then [Event(ApprovalRequested, d.approvalId, Some(lab), Plain)] else [];
      assert before + asked + [] == before + asked;
      RequestReplays(s, o.rows, gated, d.approvalId, row, before, []);
    }
  }

  lemma DecideReplays(s: Tables, id: Id, d: Decision, actor: string, comment: Option<string>, now: Time)
    requires ApprovalsReplay(s)
    ensures ApprovalsReplay(Governance.Decide(s, id, d, actor, comment, now).rows)
  {
    var o := Governance.Decide(s, id, d, actor, comment, now);
    if o.error.None? {
      DecideAppends(s, id, d, actor, comment, now);
      OneDecisionReplays(s, o.rows, id, o.rows.approvals[id]);
    }
  }

  lemma OneDecisionReplays(s: Tables, t: Tables, id: Id, row: Approval)
    requires ApprovalsReplay(s) && id in s.approvals && s.approvals[id].state.Requested?
    requires t.approvals == s.approvals[id := row] && !row.state.Requested? && row.lab == s.approvals[id].lab
    requires t.events == s.events + [Event(ClosingOf(row.state), id, row.lab, Plain)]
    ensures ApprovalsReplay(t)
  {
    forall a ensures ApprovalLog(t, a) == if a in t.approvals then ApprovalStory(a, t.approvals[a]) else [] {
      ClosingLogged(s, t, id, row, a);
      assert ApprovalLog(s, a) == if a in s.approvals then ApprovalStory(a, s.approvals[a]) else [];
    }
  }

  /** A closing event goes to the log of its own approval. */
  lemma ClosingLogged(s: Tables, t: Tables, id: Id, row: Approval, a: Id)
    requires t.events == s.events + [Event(ClosingOf(row.state), id, row.lab, Plain)]
    ensures ApprovalLog(t, a)
         == ApprovalLog(s, a) + (if a == id then [Event(ClosingOf(row.state), id, row.lab, Plain)] else [])
  {
    HistAppend(s.events, Event(ClosingOf(row.state), id, row.lab, Plain), APPROVAL_KINDS, a);
  }

  lemma StaleHist(s: Tables, now: Time, a: Id)
    ensures Hist(StaleLog(s, now), APPROVAL_KINDS, a)
         == if a in s.approvals then R.ExpiryEvents(s.approvals[a], a, now) else []
  {
    var rows, log := R.PendingQuery(s.approvals), R.ExpiryLog(s.approvals, now);
    R.PendingQueryRows(s.approvals);
    forall i | 0 <= i < |rows|
      ensures Hist(EntryOf(log, rows[i]), APPROVAL_KINDS, a) == if rows[i] == a then EntryOf(log, a) else []
    {
      var x := rows[i];
      assert x in rows;
      HistOfOne(Event(ApprovalExpired, x, s.approvals[x].lab, Plain), APPROVAL_KINDS, a);
    }
    HistGather(rows, log, |rows|, APPROVAL_KINDS, a);
    assert rows[..|rows|] == rows;
  }

  lemma PassApprovalLog(s: Tables, now: Time, w: R.World, max: int, a: Id)
    ensures Hist(PassLog(s, now, w, max), APPROVAL_KINDS, a)
         == if a in s.approvals then R.ExpiryEvents(s.approvals[a], a, now) else []
  {
    var swept := R.Sweep(s, now);
    var retried := R.Retry(swept, w, max);
    PhasesApprovalLog(s, swept, retried, R.ScanLabs(retried, w), now, w, max, a);
  }

  lemma PhasesApprovalLog(
    s: Tables, swept: Tables, retried: Tables, labs: map<Id, Lab>, now: Time, w: R.World, max: int, a: Id)
    ensures Hist(StaleLog(s, now) + LeasesLog(s, now) + RunsLog(s, now)
                 + RetriesLog(swept, w, max) + FaultsLog(retried, w) + FoundLog(labs, w), APPROVAL_KINDS, a)
         == if a in s.approvals then R.ExpiryEvents(s.approvals[a], a, now) else []
  {
    SweepKinds(s, now);
    RetryLogKinds(swept, w, max);
    FaultKinds(retried, w);
    FoundKinds(labs, w);
    FirstOfSix(StaleLog(s, now), LeasesLog(s, now), RunsLog(s, now), RetriesLog(swept, w, max),
               FaultsLog(retried, w), FoundLog(labs, w), a);
    StaleHist(s, now, a);
  }

  /** What follows and is of other kinds adds nothing to a history. */
  lemma DropTail(log: seq<Event>, tail: seq<Event>, kinds: set<EventKind>, asked: set<EventKind>, id: Id)
    requires OnlyKinds(tail, kinds) && kinds !! asked
    ensures Hist(log + tail, asked, id) == Hist(log, asked, id)
  {
    HistConcat(log, tail, asked, id);
    OtherKinds(tail, kinds, asked, id, |tail|);
  }

  lemma FirstOfSix(
    a: seq<Event>, b: seq<Event>, c: seq<Event>, d: seq<Event>, e: seq<Event>, f: seq<Event>, id: Id)
    requires OnlyKinds(b, {LeaseExpired}) && OnlyKinds(c, {RunTimedOut}) && OnlyKinds(d, RETRY_KINDS)
    requires OnlyKinds(e, {LabReconciliationFailed}) && OnlyKinds(f, INVENTORY_KINDS)
    ensures Hist(a + b + c + d + e + f, APPROVAL_KINDS, id) == Hist(a, APPROVAL_KINDS, id)
  {
    DropTail(a, b, {LeaseExpired}, APPROVAL_KINDS, id);
    DropTail(a + b, c, {RunTimedOut}, APPROVAL_KINDS, id);
    DropTail(a + b + c, d, RETRY_KINDS, APPROVAL_KINDS, id);
    DropTail(a + b + c + d, e, {LabReconciliationFailed}, APPROVAL_KINDS, id);
    DropTail(a + b + c + d + e, f, INVENTORY_KINDS, APPROVAL_KINDS, id);
  }

  lemma PassReplaysApprovals(s: Tables, now: Time, w: R.World, max: int)
    requires ApprovalsReplay(s)
    ensures ApprovalsReplay(R.Reconcile(s, now, w, max))
  {
    var t, log := R.Reconcile(s, now, w, max), PassLog(s, now, w, max);
    PassAppends(s, now, w, max);
    PassRows(s, now, w, max);
    forall a ensures Hist(log, APPROVAL_KINDS, a)
                  == if a in s.approvals then R.ExpiryEvents(s.approvals[a], a, now) else [] {
      PassApprovalLog(s, now, w, max, a);
    }
    ExpiryReplays(s, t, log, now);
  }

  lemma ExpiryReplays(s: Tables, t: Tables, log: seq<Event>, now: Time)
    requires ApprovalsReplay(s) && Appends(s, t, log)
    requires t.approvals == R.ExpireApprovals(s.approvals, R.StaleIds(s.approvals, now), now)
    requires forall a :: Hist(log, APPROVAL_KINDS, a)
                      == if a in s.approvals then R.ExpiryEvents(s.approvals[a], a, now) else []
    ensures ApprovalsReplay(t)
  {
    forall a ensures ApprovalLog(t, a) == if a in t.approvals then ApprovalStory(a, t.approvals[a]) else [] {
      HistConcat(s.events, log, APPROVAL_KINDS, a);
      if a in s.approvals { ExpiryStory(s.approvals[a], a, now); }
    }
  }

  lemma ExpiryStory(row: Approval, a: Id, now: Time)
    ensures ApprovalStory(a, if R.Stale(row, now) then R.ExpiredApproval(row, now) else row)
         == ApprovalStory(a, row) + R.ExpiryEvents(row, a, now)
  {
  }

  /** Rows whose approvals and whose approvals' log are the same replay the same. */
  lemma SameApprovalsReplay(s: Tables, t: Tables, kinds: set<EventKind>)
    requires ApprovalsReplay(s) && t.approvals == s.approvals
    requires AppendsOnly(s, t, kinds) && kinds !! APPROVAL_KINDS
    ensures ApprovalsReplay(t)
  {
    forall a ensures ApprovalLog(t, a) == ApprovalLog(s, a) { HistUnmoved(s, t, kinds, APPROVAL_KINDS, a); }
  }

  lemma RunJobReplaysApprovals(c: Config, s: Tables, id: Id, cb: Callback, now: Time, done: Time)
    requires ApprovalsReplay(s) && id in s.jobs
    ensures ApprovalsReplay(RunJob(c, s, id, cb, now, done))
  {
    var j, r := s.jobs[id], RunJob(c, s, id, cb, now, done);
    var s1 := s.(jobs := s.jobs[id := Started(j, now)]);
    assert ApprovalsReplay(s1) by { assert forall a :: ApprovalLog(s1, a) == ApprovalLog(s, a); }
    if AttemptError(c, s, id, cb, now).Some? {
      assert forall a :: ApprovalLog(r, a) == ApprovalLog(s, a);
    } else if j.action.CreateLab? {
      AddLabReplays(c, s1, j.profile.value, Requester.Scheduler, cb.draft, now);
      var made := AddLab(c, s1, j.profile.value, Requester.Scheduler, cb.draft, now).rows;
      assert r.events == made.events && r.approvals == made.approvals;
      assert forall a :: ApprovalLog(r, a) == ApprovalLog(made, a);
    } else {
      RunAppends(c, s1, j.lab.value, j.command.value, cb.runId, now);
      var made := AddRun(c, s1, j.lab.value, j.command.value, cb.runId, now).rows;
      SameApprovalsReplay(s1, made, {RunQueued});
      assert forall a :: ApprovalLog(r, a) == ApprovalLog(made, a);
    }
  }

  lemma DispatchReplaysApprovals(c: Config, s: Tables, cb: Callback, now: Time, done: Time)
    requires ApprovalsReplay(s)
    ensures ApprovalsReplay(Q.Dispatch(c, s, cb, now, done).rows)
  {
    var q, t := DueQuery(s.jobs, now), Q.Dispatch(c, s, cb, now, done).rows;
    if q == [] {
      DrainIdle(c, s, cb, now, done);
    } else {
      DueQueryMembers(s.jobs, now);
      RunJobReplaysApprovals(c, s, q[0], cb, now, done);
      var r, row := RunJob(c, s, q[0], cb, now, done), t.jobs[q[0]];
      DispatchAppends(c, s, cb, now, done);
      var log := [Dispatched(q[0], row.attempts)] + [Closed(q[0], row.state, row.attempts)];
      assert Appends(r, t, log) && OnlyKinds(log, JOB_KINDS);
      SameApprovalsReplay(r, t, JOB_KINDS);
    }
  }

  lemma EnqueueReplaysApprovals(c: Config, s: Tables, r: JobRequest, id: Id, now: Time)
    requires ApprovalsReplay(s)
    ensures ApprovalsReplay(Q.Enqueue(c, s, r, id, now).rows)
  {
    var o := Q.Enqueue(c, s, r, id, now);
    if o.error.None? {
      AppendsOne(s, o.rows, Event(JobEnqueued, id, None, Plain), {JobEnqueued});
      SameApprovalsReplay(s, o.rows, {JobEnqueued});
    }
  }

  lemma StepReplaysApprovals(c: Config, s: Tables, step: Step)
    requires ApprovalsReplay(s)
    ensures ApprovalsReplay(Next(c, s, step))
  {
    match step
    case CreateLab(profile, requester, draft, now) => AddLabReplays(c, s, profile, requester, draft, now);
    case Decide(a, d, actor, comment, now) => DecideReplays(s, a, d, actor, comment, now);
    case StageExport(lab, source, run, draft, now) => StageReplays(c, s, lab, source, run, draft, now);
    case Enqueue(request, job, now) => EnqueueReplaysApprovals(c, s, request, job, now);
    case Dispatch(cb, now, done) => DispatchReplaysApprovals(c, s, cb, now, done);
    case Reconcile(now, w) => PassReplaysApprovals(s, now, w, c.maxDestroyAttempts);
    case _ =>
      StepAppendsOnly(c, s, step);
      NoApprovalKinds(step);
      StepFramed(c, s, step);
      SameApprovalsReplay(s, Next(c, s, step), StepKinds(step));
  }

  /**
   * Over every run: each approval has exactly one requested event, followed by exactly one approved, denied or
   * expired event if and only if it is no longer pending, and there are no such events about anything else.
   */
  lemma {:induction false} ApprovalLogReplays(c: Config, steps: seq<Step>)
    ensures ApprovalsReplay(RunFrom(c, EMPTY, steps))
  {
    if steps != [] {
      var n := |steps| - 1;
      ApprovalLogReplays(c, steps[..n]);
      StepReplaysApprovals(c, RunFrom(c, EMPTY, steps[..n]), steps[n]);
    }
  }

  // ---------- the order of dispatches, as the log has it ----------

  function DispatchedIdsTo(log: seq<Event>, n: nat): seq<Id>
    requires n <= |log|
  {
    if n == 0 then []
    else DispatchedIdsTo(log, n - 1) + (if log[n - 1].kind.JobDispatched? then [log[n - 1].resource] else [])
  }

  /** The jobs whose dispatches the log records, in log order. */
  function DispatchedIds(log: seq<Event>): seq<Id> { DispatchedIdsTo(log, |log|) }

  lemma {:induction false} DispatchedPrefix(a: seq<Event>, b: seq<Event>, n: nat)
    requires n <= |a|
    ensures DispatchedIdsTo(a + b, n) == DispatchedIdsTo(a, n)
  {
    if n > 0 { DispatchedPrefix(a, b, n - 1); }
  }

  lemma {:induction false} DispatchedConcat(a: seq<Event>, b: seq<Event>, n: nat)
    requires n <= |b|
    ensures DispatchedIdsTo(a + b, |a| + n) == DispatchedIds(a) + DispatchedIdsTo(b, n)
  {
    if n == 0 { DispatchedPrefix(a, b, |a|); } else { DispatchedConcat(a, b, n - 1); }
  }

  lemma {:induction false} NoneDispatched(log: seq<Event>, n: nat)
    requires n <= |log| && OnlyKinds(log, CALLBACK_KINDS)
    ensures DispatchedIdsTo(log, n) == []
  {
    if n > 0 { NoneDispatched(log, n - 1); }
  }

  lemma PairDispatches(log: seq<Event>, q: Id, row: Job)
    ensures DispatchedIds(log + [Dispatched(q, row.attempts)] + [Closed(q, row.state, row.attempts)])
         == DispatchedIds(log) + [q]
  {
    var a, b := Dispatched(q, row.attempts), Closed(q, row.state, row.attempts);
    DispatchedConcat(log, [a], 1);
    DispatchedConcat(log + [a], [b], 1);
    assert DispatchedIdsTo([a], 1) == DispatchedIdsTo([a], 0) + [q];
    assert DispatchedIdsTo([b], 1) == DispatchedIdsTo([b], 0);
  }

  lemma DispatchLogged(c: Config, s: Tables, cb: Callback, now: Time, done: Time)
    requires DueQuery(s.jobs, now) != []
    ensures DispatchedIds(Q.Dispatch(c, s, cb, now, done).rows.events)
         == DispatchedIds(s.events) + [DueQuery(s.jobs, now)[0]]
  {
    DueQueryMembers(s.jobs, now);
    var id := DueQuery(s.jobs, now)[0];
    var r, t := RunJob(c, s, id, cb, now, done), Q.Dispatch(c, s, cb, now, done).rows;
    DispatchAppends(c, s, cb, now, done);
    CallbacksDispatchNothing(s, r);
    PairDispatches(r.events, id, t.jobs[id]);
  }

  lemma CallbacksDispatchNothing(s: Tables, t: Tables)
    requires AppendsOnly(s, t, CALLBACK_KINDS)
    ensures DispatchedIds(t.events) == DispatchedIds(s.events)
  {
    var log :| Appends(s, t, log) && OnlyKinds(log, CALLBACK_KINDS);
    DispatchedConcat(s.events, log, |log|);
    NoneDispatched(log, |log|);
  }

  /** The log records the dispatches of a drain in the order they were made. */
  lemma {:induction false} DrainIsLogged(c: Config, s: Tables, draws: seq<Draw>, now: Time)
    ensures DispatchedIds(Drain(c, s, draws, now).events) == DispatchedIds(s.events) + DrainOrder(c, s, draws, now)
    decreases |draws|
  {
    if draws != [] {
      var cb, done := draws[0].callback, draws[0].done;
      var t := Q.Dispatch(c, s, cb, now, done).rows;
      DrainIsLogged(c, t, draws[1..], now);
      if DueQuery(s.jobs, now) == [] {
        DrainIdle(c, s, cb, now, done);
        IdleOrder(c, s, draws[1..], now);
      } else {
        DispatchLogged(c, s, cb, now, done);
      }
    }
  }

  lemma IdleOrder(c: Config, s: Tables, draws: seq<Draw>, now: Time)
    requires DueQuery(s.jobs, now) == []
    ensures DrainOrder(c, s, draws, now) == []
  {
  }
}
