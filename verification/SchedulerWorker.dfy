/** The scheduler service and its endpoints as they run, attempts inside a savepoint. */
module SchedulerWorker {
  import opened Basics
  import opened Schema
  import opened Policy
  import opened Governance
  import opened Q = Scheduler
  import Api

  class SchedulerService {
    const config: Config
    const endpoints: Api.Endpoints

    constructor (config: Config, endpoints: Api.Endpoints)
      requires endpoints.config == config
      ensures this.config == config && this.endpoints == endpoints
    {
      this.config := config;
      this.endpoints := endpoints;
    }

    /** Adds a queued job unless its requester has as many pending as the quota allows. */
    method Enqueue(session: Session, request: JobRequest, id: Id, now: Time) returns (error: Option<Error>)
      requires ValidRequest(request)
      modifies session`jobs
      ensures error == if |PendingJobs(old(session.jobs), request.requester)| >= config.quota then Some(QuotaExceeded)
                       else if id in old(session.jobs) then Some(IntegrityError) else None
      ensures error.None? ==> session.jobs == old(session.jobs)[id := NewJob(request, now)]
    {
      if |PendingJobs(session.jobs, request.requester)| >= config.quota {
        return Some(QuotaExceeded);
      }
      if id in session.jobs {
        return Some(IntegrityError);
      }
      session.jobs := session.jobs[id := NewJob(request, now)];
      return None;
    }

    /** The enqueue endpoint; a request of the wrong shape never reaches the queue. */
    method PostJob(session: Session, request: JobRequest, id: Id, now: Time) returns (error: Option<Error>)
      requires session.Clean()
      modifies session
      ensures session.Clean()
      ensures Outcome(session.Rows(), error) == Q.Enqueue(config, old(session.Rows()), request, id, now)
    {
      if !ValidRequest(request) {
        return Some(InvalidRequest);
      }
      error := Enqueue(session, request, id, now);
      if error.Some? {
        session.Rollback();
        return;
      }
      session.Write(JobEnqueued, id, None, Plain);
      session.Commit();
    }

    /** All jobs, in the order they would be dispatched. */
    method ListJobs(session: Session) returns (rows: seq<Id>)
      ensures forall x :: x in rows <==> x in session.jobs
      ensures forall i, j :: 0 <= i < j < |rows| ==> ComesBefore(session.jobs, rows[i], rows[j])
    {
      rows := OrderBy(session.jobs.Keys, JobRank(session.jobs));
      OrderByMembers(session.jobs.Keys, JobRank(session.jobs));
      OrderByInOrder(session.jobs.Keys, JobRank(session.jobs));
      forall i, j | 0 <= i < j < |rows| ensures ComesBefore(session.jobs, rows[i], rows[j]) {
        assert rows[i] in rows && rows[j] in rows;
        EarlierComesBefore(session.jobs, rows[i], rows[j]);
      }
    }

    /** The attempt: the job's payload is checked and its callback runs. On an error rows may be half written. */
    method Attempt(session: Session, job: Job, cb: Callback, now: Time) returns (error: Option<Error>)
      requires endpoints.config == config
      modifies session
      ensures session.committed == old(session.committed)
      ensures error == Attempted(config, old(session.Rows()), job, cb, now).error
      ensures error.None? ==> session.Rows() == Attempted(config, old(session.Rows()), job, cb, now).rows
    {
      match job.action
      case CreateLab =>
        if job.profile.None? {
          return Some(AssertionFailure);
        }
        error := endpoints.CreateLabRecord(session, job.profile.value, Requester.Scheduler, cb.draft, now);
      case StartRun =>
        if job.lab.None? || job.command.None? {
          return Some(AssertionFailure);
        }
        error := endpoints.CreateRunRecord(session, job.lab.value, job.command.value, cb.runId, now);
    }

    /** Dispatches job `id`: a failed attempt is rolled back to the savepoint taken after the job was marked. */
    method RunOne(session: Session, id: Id, cb: Callback, now: Time, done: Time)
      requires endpoints.config == config && id in session.jobs
      modifies session
      ensures session.committed == old(session.committed)
      ensures session.Rows() == RunJob(config, old(session.Rows()), id, cb, now, done)
    {
      var job := session.jobs[id];
      job := job.(state := Dispatched);
      job := job.(attempts := job.attempts + 1);
      job := job.(dispatchedAt := Some(now));
      job := job.(lastError := None);
      session.jobs := session.jobs[id := job];
      var savepoint := session.Rows();
      var error := Attempt(session, job, cb, now);
      if error.Some? {
        session.RollbackTo(savepoint);
        job := job.(lastError := error);
        if job.attempts >= job.maxAttempts {
          job := job.(state := JobState.Failed);
          job := job.(completedAt := Some(done));
        } else {
          job := job.(state := JobState.Queued);
        }
        session.jobs := session.jobs[id := job];
        return;
      }
      job := job.(state := JobState.Succeeded);
      job := job.(completedAt := Some(done));
      job := job.(resultType := Some(ResultType(job.action)));
      job := job.(result := Some(ResultId(job.action, cb)));
      job := job.(lastError := None);
      session.jobs := session.jobs[id := job];
    }

    /** Dispatches the first due job, if there is one. */
    method RunNext(session: Session, cb: Callback, now: Time, done: Time) returns (id: Option<Id>)
      requires endpoints.config == config
      modifies session
      ensures session.committed == old(session.committed)
      ensures var q := DueQuery(old(session.jobs), now);
        if q == [] then id == None && session.Rows() == old(session.Rows())
        else id == Some(q[0]) && q[0] in old(session.jobs)
             && session.Rows() == RunJob(config, old(session.Rows()), q[0], cb, now, done)
      ensures match id
        case Some(job) => RunsNext(old(session.jobs), job, now)
        case None => forall x :: x in old(session.jobs) ==> !Ready(old(session.jobs)[x], now)
    {
      var due := DueQuery(session.jobs, now);
      HeadRunsNext(session.jobs, now);
      if due == [] {
        return None;
      }
      DueQueryMembers(session.jobs, now);
      id := Some(due[0]);
      RunOne(session, due[0], cb, now, done);
    }

    /** The dispatch endpoint. */
    method DispatchNext(session: Session, cb: Callback, now: Time, done: Time) returns (error: Option<Error>)
      requires endpoints.config == config && session.Clean()
      modifies session
      ensures session.Clean()
      ensures Outcome(session.Rows(), error) == Q.Dispatch(config, old(session.Rows()), cb, now, done)
    {
      DueQueryMembers(session.jobs, now);
      var next := RunNext(session, cb, now, done);
      if next.None? {
        return Some(NoJobDue);
      }
      var id := next.value;
      var job := session.jobs[id];
      session.Write(JobDispatched, id, None, Detail.Attempt(job.attempts));
      session.Write(ClosingKind(job.state), id, None, Detail.Attempt(job.attempts));
      session.Commit();
      return None;
    }
  }
}
