/** The job queue: enqueueing under a quota, and dispatching the first due job. */
module Scheduler {
  import opened Basics
  import opened Schema
  import opened Policy
  import opened Governance

  datatype JobRequest = JobRequest(
    action: JobAction,
    requester: string,
    profile: Option<string>,
    lab: Option<Id>,
    command: Option<string>,
    scheduledFor: Option<Time>,
    maxAttempts: int)

  /** The payload a job of this action needs, and nothing it does not take. */
  predicate PayloadOk(action: JobAction, profile: Option<string>, lab: Option<Id>, command: Option<string>) {
    match action
    case CreateLab => profile.Some? && lab.None? && command.None?
    case StartRun => lab.Some? && command.Some? && profile.None?
  }

  predicate ValidRequest(r: JobRequest) {
    |r.requester| >= 1 && 1 <= r.maxAttempts <= 10 && PayloadOk(r.action, r.profile, r.lab, r.command)
  }

  predicate Pending(j: Job, requester: string) {
    j.requester == requester && (j.state.Queued? || j.state.Dispatched?)
  }

  function PendingJobs(jobs: map<Id, Job>, requester: string): set<Id> {
    set j | j in jobs && Pending(jobs[j], requester)
  }

  function NewJob(r: JobRequest, now: Time): Job
    requires r.maxAttempts >= 0
  {
    Job(r.action, JobState.Queued, r.requester, r.profile, r.lab, r.command,
        if r.scheduledFor.Some? then r.scheduledFor.value else now,
        0, r.maxAttempts, None, None, None, None, None, now)
  }

  function Enqueue(c: Config, s: Tables, r: JobRequest, id: Id, now: Time): Outcome {
    if !ValidRequest(r) then Refused(s, InvalidRequest)
    else if |PendingJobs(s.jobs, r.requester)| >= c.quota then Refused(s, QuotaExceeded)
    else if id in s.jobs then Refused(s, IntegrityError)
    else Done(s.(jobs := s.jobs[id := NewJob(r, now)],
                 events := s.events + [Event(JobEnqueued, id, None, Plain)]))
  }

  function JobRank(jobs: map<Id, Job>): map<Id, Rank> {
    map x | x in jobs :: Rank(jobs[x].scheduledFor, jobs[x].createdAt)
  }

  predicate Due(j: Job, now: Time) { j.state.Queued? && j.scheduledFor <= now }

  function DueJobs(jobs: map<Id, Job>, now: Time): set<Id> {
    set j | j in jobs && Due(jobs[j], now)
  }

  function DueQuery(jobs: map<Id, Job>, now: Time): seq<Id> { OrderBy(DueJobs(jobs, now), JobRank(jobs)) }

  /** The first due job, if any, is a queued job that is due. */
  lemma DueQueryMembers(jobs: map<Id, Job>, now: Time)
    ensures forall j :: j in DueQuery(jobs, now) <==> j in jobs && Due(jobs[j], now)
    ensures DueQuery(jobs, now) != [] ==> DueQuery(jobs, now)[0] in jobs && Due(jobs[DueQuery(jobs, now)[0]], now)
  {
    OrderByMembers(DueJobs(jobs, now), JobRank(jobs));
    if DueQuery(jobs, now) != [] { assert DueQuery(jobs, now)[0] in DueQuery(jobs, now); }
  }

  // ---------- the order of the queue, on the jobs' columns ----------

  /** Asked for an earlier moment; if for the same, enqueued earlier; if at once, under the smaller id. */
  ghost predicate ComesBefore(jobs: map<Id, Job>, a: Id, b: Id)
    requires a in jobs && b in jobs
  {
    var x, y := jobs[a], jobs[b];
    || x.scheduledFor < y.scheduledFor
    || (x.scheduledFor == y.scheduledFor && x.createdAt < y.createdAt)
    || (x.scheduledFor == y.scheduledFor && x.createdAt == y.createdAt && a < b)
  }

  lemma EarlierComesBefore(jobs: map<Id, Job>, a: Id, b: Id)
    requires a in jobs && b in jobs
    ensures Earlier(JobRank(jobs), a, b) <==> ComesBefore(jobs, a, b)
  {
  }

  /** Queued for a moment that has come. */
  predicate Ready(j: Job, now: Time) { j.state == JobState.Queued && j.scheduledFor <= now }

  /** The one job to dispatch at `now`: no ready job comes before it. */
  ghost predicate RunsNext(jobs: map<Id, Job>, id: Id, now: Time) {
    && id in jobs && Ready(jobs[id], now)
    && forall x :: x in jobs && Ready(jobs[x], now) && x != id ==> ComesBefore(jobs, id, x)
  }

  /** The head of the queue is the job to dispatch next, and the queue is empty only if no job is ready. */
  lemma HeadRunsNext(jobs: map<Id, Job>, now: Time)
    ensures DueQuery(jobs, now) == [] <==> forall x :: x in jobs ==> !Ready(jobs[x], now)
    ensures DueQuery(jobs, now) != [] ==> RunsNext(jobs, DueQuery(jobs, now)[0], now)
  {
    var q := DueQuery(jobs, now);
    DueQueryMembers(jobs, now);
    OrderByInOrder(DueJobs(jobs, now), JobRank(jobs));
    if q == [] {
      forall x | x in jobs ensures !Ready(jobs[x], now) { assert x !in q; }
    } else {
      forall x | x in jobs && Ready(jobs[x], now) && x != q[0] ensures ComesBefore(jobs, q[0], x) {
        assert x in q;
        var i :| 0 <= i < |q| && q[i] == x;
        EarlierComesBefore(jobs, q[0], x);
      }
    }
  }

  /** What a callback draws from outside: fresh ids and the file system. */
  datatype Callback = Callback(draft: LabDraft, runId: Id)

  function Started(j: Job, now: Time): Job {
    j.(state := Dispatched, attempts := j.attempts + 1, dispatchedAt := Some(now), lastError := None)
  }

  /** The body of the savepoint: check the payload and call back into lab or run creation. */
  function Attempted(c: Config, s: Tables, j: Job, cb: Callback, now: Time): Outcome {
    match j.action
    case CreateLab =>
      if j.profile.None? then Refused(s, AssertionFailure)
      else AddLab(c, s, j.profile.value, Requester.Scheduler, cb.draft, now)
    case StartRun =>
      if j.lab.None? || j.command.None? then Refused(s, AssertionFailure)
      else AddRun(c, s, j.lab.value, j.command.value, cb.runId, now)
  }

  function ResultType(a: JobAction): ResourceType { if a.CreateLab? then LabResource else RunResource }

  function ResultId(a: JobAction, cb: Callback): Id { if a.CreateLab? then cb.draft.labId else cb.runId }

  function Failed(j: Job, error: Error, done: Time): Job {
    if j.attempts >= j.maxAttempts then
      j.(lastError := Some(error), state := JobState.Failed, completedAt := Some(done))
    else j.(lastError := Some(error), state := JobState.Queued)
  }

  function Succeeded(j: Job, cb: Callback, done: Time): Job {
    j.(state := JobState.Succeeded, completedAt := Some(done), resultType := Some(ResultType(j.action)),
       result := Some(ResultId(j.action, cb)), lastError := None)
  }

  function ClosingKind(st: JobState): EventKind {
    if st.Succeeded? then JobSucceeded else if st.Failed? then JobFailed else JobRequeued
  }

  /** The rows after `run_next` on job `id`, and the job as it ends up. */
  function RunJob(c: Config, s: Tables, id: Id, cb: Callback, now: Time, done: Time): Tables
    requires id in s.jobs
  {
    var started := Started(s.jobs[id], now);
    var s1 := s.(jobs := s.jobs[id := started]);
    var r := Attempted(c, s1, started, cb, now);
    match r.error
    case Some(error) => s1.(jobs := s1.jobs[id := Failed(started, error, done)])
    case None => r.rows.(jobs := r.rows.jobs[id := Succeeded(started, cb, done)])
  }

  function Dispatch(c: Config, s: Tables, cb: Callback, now: Time, done: Time): Outcome {
    var q := DueQuery(s.jobs, now);
    if q == [] then Refused(s, NoJobDue)
    else
      DueQueryMembers(s.jobs, now);
      var rows := RunJob(c, s, q[0], cb, now, done);
      var job := rows.jobs[q[0]];
      Done(rows.(events := rows.events
                           + [Event(JobDispatched, q[0], None, Attempt(job.attempts))]
                           + [Event(ClosingKind(job.state), q[0], None, Attempt(job.attempts))]))
  }
}
