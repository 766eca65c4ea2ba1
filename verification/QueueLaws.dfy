/** What a dispatch does: which job it runs, what that makes, and what it leaves in the job's row. */
module QueueLaws {
  import opened Basics
  import opened Schema
  import opened Policy
  import opened Governance
  import opened Q = Scheduler
  import opened ControlPlane
  import opened SchedulerLaws

  /** The call a job asks for, made directly by the scheduler. */
  function Asked(j: Job, cb: Callback, now: Time): Step
    requires j.action == JobAction.CreateLab ==> j.profile != None
    requires j.action == StartRun ==> j.lab != None && j.command != None
  {
    match j.action
    case CreateLab => Step.CreateLab(j.profile.value, Requester.Scheduler, cb.draft, now)
    case StartRun => CreateRun(j.lab.value, j.command.value, cb.runId, now)
  }

  /** The job's row after an attempt that made what was asked. */
  predicate RowSucceeds(before: Job, after: Job, cb: Callback, now: Time, done: Time) {
    after == before.(
      state := Succeeded, attempts := before.attempts + 1, lastError := None,
      dispatchedAt := Some(now), completedAt := Some(done),
      resultType := Some(if before.action == JobAction.CreateLab then LabResource else RunResource),
      result := Some(if before.action == JobAction.CreateLab then cb.draft.labId else cb.runId))
  }

  /** Its row after an attempt that failed: queued again while attempts are left, and failed for good after the last. */
  predicate RowFails(before: Job, after: Job, why: Error, now: Time, done: Time) {
    var last := before.attempts + 1 >= before.maxAttempts;
    after == before.(
      state := if last then JobState.Failed else JobState.Queued, attempts := before.attempts + 1,
      lastError := Some(why), dispatchedAt := Some(now), completedAt := if last then Some(done) else before.completedAt)
  }

  lemma AttemptedIsAsked(c: Config, s: Tables, id: Id, cb: Callback, now: Time)
    requires id in s.jobs && JobOk(s.jobs[id])
    ensures var j, started := s.jobs[id], Started(s.jobs[id], now);
      var direct, o := Call(c, s, Asked(j, cb, now)), Attempted(c, s.(jobs := s.jobs[id := started]), started, cb, now);
      && o.error == direct.error
      && (o.error == None ==> o.rows == direct.rows.(jobs := s.jobs[id := started]) && direct.rows.jobs == s.jobs)
  {
    var j := s.jobs[id];
    if j.action.CreateLab? {
      LabIgnoresJobs(c, s, s.jobs[id := Started(j, now)], j.profile.value, cb.draft, now);
    }
  }

  lemma LabIgnoresJobs(c: Config, s: Tables, jobs: map<Id, Job>, profile: string, d: LabDraft, now: Time)
    ensures var o := AddLab(c, s, profile, Requester.Scheduler, d, now);
      AddLab(c, s.(jobs := jobs), profile, Requester.Scheduler, d, now) == Outcome(o.rows.(jobs := jobs), o.error)
    ensures AddLab(c, s, profile, Requester.Scheduler, d, now).rows.jobs == s.jobs
  {
  }

  /**
   * A dispatch runs the one job that is next. If the call it asks for succeeds, the dispatch leaves what that call,
   * made directly, would have left, and otherwise only the job's own row; either way it logs the attempt twice.
   */
  lemma DispatchRuns(c: Config, s: Tables, cb: Callback, now: Time, done: Time) returns (id: Id)
    requires JobsOk(s.jobs) && Call(c, s, Step.Dispatch(cb, now, done)).error == None
    ensures RunsNext(s.jobs, id, now) && JobOk(s.jobs[id])
    ensures var t, direct := Next(c, s, Step.Dispatch(cb, now, done)), Call(c, s, Asked(s.jobs[id], cb, now));
      && id in t.jobs && t.jobs == s.jobs[id := t.jobs[id]]
      && var made := if direct.error == None then direct.rows else s;
      var n := Attempt(s.jobs[id].attempts + 1);
      && t == made.(jobs := t.jobs, events := t.events)
      && match direct.error
         case None =>
           && RowSucceeds(s.jobs[id], t.jobs[id], cb, now, done)
           && t.events == made.events + [Event(JobDispatched, id, None, n), Event(JobSucceeded, id, None, n)]
         case Some(why) =>
           && RowFails(s.jobs[id], t.jobs[id], why, now, done)
           && t.events == made.events
                + [Event(JobDispatched, id, None, n),
                   Event(if t.jobs[id].state == JobState.Failed then JobFailed else JobRequeued, id, None, n)]
  {
    HeadRunsNext(s.jobs, now);
    id := DueQuery(s.jobs, now)[0];
    DispatchJobs(c, s, cb, now, done);
    DispatchedRows(c, s, id, cb, now, done);
  }

  /** The rows and events of a dispatch, apart from the job table. */
  lemma DispatchedRows(c: Config, s: Tables, id: Id, cb: Callback, now: Time, done: Time)
    requires id in s.jobs && JobOk(s.jobs[id]) && DueQuery(s.jobs, now) != [] && DueQuery(s.jobs, now)[0] == id
    ensures var t, direct := Q.Dispatch(c, s, cb, now, done).rows, Call(c, s, Asked(s.jobs[id], cb, now));
      var made := if direct.error == None then direct.rows else s;
      && id in t.jobs
      && AttemptError(c, s, id, cb, now) == direct.error
      && t == made.(jobs := t.jobs, events := t.events)
      && t.events == made.events + [Event(JobDispatched, id, None, Attempt(t.jobs[id].attempts)),
                                    Event(ClosingKind(t.jobs[id].state), id, None, Attempt(t.jobs[id].attempts))]
  {
    AttemptedIsAsked(c, s, id, cb, now);
    RunJobJobs(c, s, id, cb, now, done);
    var rows := RunJob(c, s, id, cb, now, done);
    var n := Attempt(rows.jobs[id].attempts);
    assert rows.events + [Event(JobDispatched, id, None, n)] + [Event(ClosingKind(rows.jobs[id].state), id, None, n)]
        == rows.events + [Event(JobDispatched, id, None, n), Event(ClosingKind(rows.jobs[id].state), id, None, n)];
  }

  /** A dispatch is refused exactly when no job is ready. */
  lemma DispatchRefused(c: Config, s: Tables, cb: Callback, now: Time, done: Time)
    ensures var error := Call(c, s, Step.Dispatch(cb, now, done)).error;
      && (error == None <==> exists x :: x in s.jobs && Ready(s.jobs[x], now))
      && (error != None ==> error == Some(NoJobDue))
  {
    HeadRunsNext(s.jobs, now);
  }
}
