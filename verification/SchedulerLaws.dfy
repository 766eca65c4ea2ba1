/** The queue over whole runs: job invariants, quota, payloads, and draining it. */
module SchedulerLaws {
  import opened Basics
  import opened Schema
  import opened Policy
  import opened Governance
  import opened Q = Scheduler
  import opened ControlPlane
  import opened GovernanceLaws

  // ---------- one dispatch, seen from the job table ----------

  /** The error of the attempt on job `id`, if it fails. */
  function AttemptError(c: Config, s: Tables, id: Id, cb: Callback, now: Time): Option<Error>
    requires id in s.jobs
  {
    var started := Started(s.jobs[id], now);
    Attempted(c, s.(jobs := s.jobs[id := started]), started, cb, now).error
  }

  function JobAfter(j: Job, error: Option<Error>, cb: Callback, now: Time, done: Time): Job {
    if error.Some? then Q.Failed(Started(j, now), error.value, done) else Q.Succeeded(Started(j, now), cb, done)
  }

  lemma RunJobJobs(c: Config, s: Tables, id: Id, cb: Callback, now: Time, done: Time)
    requires id in s.jobs
    ensures RunJob(c, s, id, cb, now, done).jobs
         == s.jobs[id := JobAfter(s.jobs[id], AttemptError(c, s, id, cb, now), cb, now, done)]
  {
    var started := Started(s.jobs[id], now);
    AttemptFramed(c, s.(jobs := s.jobs[id := started]), started, cb, now);
  }

  /** A dispatch changes the first due job and no other; with nothing due it is refused. */
  lemma DispatchJobs(c: Config, s: Tables, cb: Callback, now: Time, done: Time)
    ensures var q, t := DueQuery(s.jobs, now), Q.Dispatch(c, s, cb, now, done);
      if q == [] then t == Refused(s, NoJobDue)
      else
        q[0] in s.jobs && Due(s.jobs[q[0]], now) && t.error.None?
        && t.rows.jobs == s.jobs[q[0] := JobAfter(s.jobs[q[0]], AttemptError(c, s, q[0], cb, now), cb, now, done)]
  {
    DueQueryMembers(s.jobs, now);
    var q := DueQuery(s.jobs, now);
    if q != [] { RunJobJobs(c, s, q[0], cb, now, done); }
  }

  // ---------- what holds of every job ----------

  /** The columns of a job between commits. */
  predicate JobOk(j: Job) {
    && PayloadOk(j.action, j.profile, j.lab, j.command)
    && j.attempts <= j.maxAttempts && 1 <= j.maxAttempts
    && j.lastError != Some(AssertionFailure)
    && match j.state
       case Queued =>
         && j.attempts < j.maxAttempts
         && (j.lastError.Some? <==> j.attempts > 0)
         && j.result.None? && j.resultType.None? && j.completedAt.None?
       case Dispatched => false
       case Succeeded =>
         && j.attempts > 0
         && j.lastError.None?
         && j.result.Some? && j.resultType == Some(ResultType(j.action)) && j.completedAt.Some?
       case Failed =>
         && j.attempts == j.maxAttempts
         && j.lastError.Some?
         && j.result.None? && j.resultType.None? && j.completedAt.Some?
  }

  ghost predicate JobsOk(jobs: map<Id, Job>) { forall j :: j in jobs ==> JobOk(jobs[j]) }

  ghost predicate WithinQuota(c: Config, jobs: map<Id, Job>) {
    forall r :: |PendingJobs(jobs, r)| <= c.quota
  }

  /** The attempt on a well-formed job never trips over its payload. */
  lemma PayloadHolds(c: Config, s: Tables, id: Id, cb: Callback, now: Time)
    requires id in s.jobs && JobOk(s.jobs[id])
    ensures AttemptError(c, s, id, cb, now) != Some(AssertionFailure)
  {
    var j := s.jobs[id];
    var s1 := s.(jobs := s.jobs[id := Started(j, now)]);
    if j.action.CreateLab? {
      AddLabError(c, s1, j.profile.value, Requester.Scheduler, cb.draft, now);
    }
  }

  lemma AddLabError(c: Config, s: Tables, profile: string, requester: Requester, d: LabDraft, now: Time)
    ensures AddLab(c, s, profile, requester, d, now).error != Some(AssertionFailure)
  {
  }

  lemma JobAfterOk(j: Job, error: Option<Error>, cb: Callback, now: Time, done: Time)
    requires JobOk(j) && j.state.Queued? && error != Some(AssertionFailure)
    ensures JobOk(JobAfter(j, error, cb, now, done))
  {
  }

  lemma SubsetIsSmaller<T>(a: set<T>, b: set<T>)
    requires a <= b
    ensures |a| <= |b|
  {
    assert b == a + (b - a);
  }

  lemma DispatchKeepsJobs(c: Config, s: Tables, cb: Callback, now: Time, done: Time)
    requires JobsOk(s.jobs) && WithinQuota(c, s.jobs)
    ensures var t := Q.Dispatch(c, s, cb, now, done).rows; JobsOk(t.jobs) && WithinQuota(c, t.jobs)
  {
    var q, t := DueQuery(s.jobs, now), Q.Dispatch(c, s, cb, now, done).rows;
    DispatchJobs(c, s, cb, now, done);
    if q != [] {
      PayloadHolds(c, s, q[0], cb, now);
      JobAfterOk(s.jobs[q[0]], AttemptError(c, s, q[0], cb, now), cb, now, done);
      FewerPending(c, s.jobs, q[0], t.jobs);
    }
  }

  lemma FewerPending(c: Config, jobs: map<Id, Job>, id: Id, after: map<Id, Job>)
    requires WithinQuota(c, jobs) && id in jobs && id in after && jobs[id].state.Queued?
    requires after == jobs[id := after[id]] && after[id].requester == jobs[id].requester
    ensures WithinQuota(c, after)
  {
    forall r ensures |PendingJobs(after, r)| <= c.quota {
      assert PendingJobs(after, r) <= PendingJobs(jobs, r);
      SubsetIsSmaller(PendingJobs(after, r), PendingJobs(jobs, r));
    }
  }

  lemma EnqueueKeepsJobs(c: Config, s: Tables, r: JobRequest, id: Id, now: Time)
    requires JobsOk(s.jobs) && WithinQuota(c, s.jobs)
    ensures var t := Q.Enqueue(c, s, r, id, now).rows; JobsOk(t.jobs) && WithinQuota(c, t.jobs)
  {
    var o := Q.Enqueue(c, s, r, id, now);
    if o.error.None? {
      assert o.rows.jobs == s.jobs[id := NewJob(r, now)] && JobOk(NewJob(r, now));
      OneMorePending(c, s.jobs, id, NewJob(r, now));
    }
  }

  lemma OneMorePending(c: Config, jobs: map<Id, Job>, id: Id, row: Job)
    requires WithinQuota(c, jobs) && id !in jobs && row.state.Queued?
    requires |PendingJobs(jobs, row.requester)| < c.quota
    ensures WithinQuota(c, jobs[id := row])
  {
    var after := jobs[id := row];
    forall x ensures |PendingJobs(after, x)| <= c.quota {
      PendingWith(jobs, id, row, x);
    }
  }

  lemma PendingWith(jobs: map<Id, Job>, id: Id, row: Job, x: string)
    requires id !in jobs && row.state.Queued?
    ensures var before := PendingJobs(jobs, x);
      PendingJobs(jobs[id := row], x) == if x == row.requester then before + {id} else before
  {
  }

  /** Only enqueueing and dispatching touch the job table. */
  predicate TouchesJobs(step: Step) { step.Enqueue? || step.Dispatch? }

  lemma OthersKeepJobs(c: Config, s: Tables, step: Step)
    requires !TouchesJobs(step)
    ensures Next(c, s, step).jobs == s.jobs
  {
    StepFramed(c, s, step);
  }

  lemma StepKeepsJobs(c: Config, s: Tables, step: Step)
    requires JobsOk(s.jobs) && WithinQuota(c, s.jobs)
    ensures var t := Next(c, s, step); JobsOk(t.jobs) && WithinQuota(c, t.jobs)
  {
    match step
    case Enqueue(request, job, now) => EnqueueKeepsJobs(c, s, request, job, now);
    case Dispatch(cb, now, done) => DispatchKeepsJobs(c, s, cb, now, done);
    case _ => OthersKeepJobs(c, s, step);
  }

  /**
   * In every reachable state: no requester is over quota, no job is left DISPATCHED, queued jobs have attempts
   * left, failed ones have none and say why, succeeded ones name what they made, and no payload ever was wrong.
   */
  lemma {:induction false} JobsAlwaysOk(c: Config, steps: seq<Step>)
    ensures var s := RunFrom(c, EMPTY, steps); JobsOk(s.jobs) && WithinQuota(c, s.jobs)
  {
    if steps == [] {
      forall r ensures PendingJobs(EMPTY.jobs, r) == {} {}
    } else {
      var n := |steps| - 1;
      JobsAlwaysOk(c, steps[..n]);
      StepKeepsJobs(c, RunFrom(c, EMPTY, steps[..n]), steps[n]);
    }
  }

  // ---------- draining ----------

  /** One dispatch's draws: the callback, and the clock when it ends. */
  datatype Draw = Draw(callback: Callback, done: Time)

  /** Dispatch after dispatch at one moment. */
  function Drain(c: Config, s: Tables, draws: seq<Draw>, now: Time): Tables
    decreases |draws|
  {
    if draws == [] then s
    else Drain(c, Q.Dispatch(c, s, draws[0].callback, now, draws[0].done).rows, draws[1..], now)
  }

  /** The attempts left to the jobs of a queue. */
  function Budget(jobs: map<Id, Job>, queue: seq<Id>): int
    requires forall j :: j in queue ==> j in jobs
  {
    if queue == [] then 0
    else jobs[queue[0]].maxAttempts - jobs[queue[0]].attempts + Budget(jobs, queue[1..])
  }

  /** The columns a dispatch leaves alone. */
  predicate SameJob(a: Job, b: Job) {
    && b.scheduledFor == a.scheduledFor && b.createdAt == a.createdAt && b.maxAttempts == a.maxAttempts
    && b.requester == a.requester && b.action == a.action
  }

  /** A dispatched job is retried at once, or leaves the queue; the others keep their places. */
  lemma QueueAfter(jobs: map<Id, Job>, now: Time, after: map<Id, Job>)
    requires var q := DueQuery(jobs, now);
      q != [] && q[0] in jobs && q[0] in after && after == jobs[q[0] := after[q[0]]]
      && SameJob(jobs[q[0]], after[q[0]]) && Due(jobs[q[0]], now)
    ensures var q := DueQuery(jobs, now);
      DueQuery(after, now) == if after[q[0]].state.Queued? then q else q[1..]
  {
    var q := DueQuery(jobs, now);
    assert JobRank(after) == JobRank(jobs);
    DueQueryMembers(jobs, now);
    assert q == [q[0]] + OrderBy(DueJobs(jobs, now) - {q[0]}, JobRank(jobs));
    if after[q[0]].state.Queued? {
      assert DueJobs(after, now) == DueJobs(jobs, now);
    } else {
      assert DueJobs(after, now) == DueJobs(jobs, now) - {q[0]};
    }
  }

  /** What one dispatch does to the queue. */
  lemma DrainStep(c: Config, s: Tables, cb: Callback, now: Time, done: Time)
    requires DueQuery(s.jobs, now) != []
    ensures var q, t := DueQuery(s.jobs, now), Q.Dispatch(c, s, cb, now, done).rows;
      && q[0] in s.jobs && Due(s.jobs[q[0]], now)
      && t.jobs.Keys == s.jobs.Keys && t.jobs == s.jobs[q[0] := t.jobs[q[0]]]
      && JobRank(t.jobs) == JobRank(s.jobs)
      && var before, after := s.jobs[q[0]], t.jobs[q[0]];
      && after.attempts == before.attempts + 1 && after.maxAttempts == before.maxAttempts
      && after.scheduledFor == before.scheduledFor
      && (after.state.Queued? || after.state.Succeeded? || after.state.Failed?)
      && DueQuery(t.jobs, now) == if after.state.Queued? then q else q[1..]
  {
    var q, t := DueQuery(s.jobs, now), Q.Dispatch(c, s, cb, now, done).rows;
    DispatchJobs(c, s, cb, now, done);
    QueueAfter(s.jobs, now, t.jobs);
  }

  /** A dispatch is refused, and changes nothing, when nothing is due. */
  lemma DrainIdle(c: Config, s: Tables, cb: Callback, now: Time, done: Time)
    requires DueQuery(s.jobs, now) == []
    ensures Q.Dispatch(c, s, cb, now, done).rows == s
  {
  }

  lemma DispatchKeepsJobOk(c: Config, s: Tables, cb: Callback, now: Time, done: Time)
    requires JobsOk(s.jobs)
    ensures JobsOk(Q.Dispatch(c, s, cb, now, done).rows.jobs)
  {
    var q := DueQuery(s.jobs, now);
    DispatchJobs(c, s, cb, now, done);
    if q != [] {
      PayloadHolds(c, s, q[0], cb, now);
      JobAfterOk(s.jobs[q[0]], AttemptError(c, s, q[0], cb, now), cb, now, done);
    }
  }

  /** Jobs outside the queue do not count towards its budget. */
  lemma {:induction false} BudgetFrame(jobs: map<Id, Job>, after: map<Id, Job>, queue: seq<Id>)
    requires forall j :: j in queue ==> j in jobs && j in after && jobs[j] == after[j]
    ensures Budget(jobs, queue) == Budget(after, queue)
  {
    if queue != [] { BudgetFrame(jobs, after, queue[1..]); }
  }

  /** Every due job has an attempt left. */
  lemma {:induction false} BudgetCoversQueue(jobs: map<Id, Job>, queue: seq<Id>)
    requires forall j :: j in queue ==> j in jobs && jobs[j].attempts < jobs[j].maxAttempts
    ensures Budget(jobs, queue) >= |queue|
  {
    if queue != [] { BudgetCoversQueue(jobs, queue[1..]); }
  }

  lemma DueQueryDistinct(jobs: map<Id, Job>, now: Time)
    ensures InOrder(DueQuery(jobs, now), JobRank(jobs)) && Distinct(DueQuery(jobs, now))
    ensures forall j :: j in DueQuery(jobs, now) <==> j in jobs && Due(jobs[j], now)
  {
    OrderByInOrder(DueJobs(jobs, now), JobRank(jobs));
    InOrderDistinct(DueQuery(jobs, now), JobRank(jobs));
    DueQueryMembers(jobs, now);
  }

  function QueueBudget(jobs: map<Id, Job>, now: Time): int {
    DueQueryMembers(jobs, now);
    Budget(jobs, DueQuery(jobs, now))
  }

  lemma QueueBudgetCovers(jobs: map<Id, Job>, now: Time)
    requires JobsOk(jobs)
    ensures QueueBudget(jobs, now) >= |DueQuery(jobs, now)|
  {
    DueQueryMembers(jobs, now);
    forall j | j in DueQuery(jobs, now) ensures jobs[j].attempts < jobs[j].maxAttempts { assert JobOk(jobs[j]); }
    BudgetCoversQueue(jobs, DueQuery(jobs, now));
  }

  lemma HeadLeaves(jobs: map<Id, Job>, after: map<Id, Job>, q: seq<Id>)
    requires q != [] && Distinct(q) && (forall j :: j in q ==> j in jobs) && q[0] in after
    requires after == jobs[q[0] := after[q[0]]]
    requires after[q[0]].attempts == jobs[q[0]].attempts + 1 && after[q[0]].maxAttempts == jobs[q[0]].maxAttempts
    ensures Budget(jobs, q) == jobs[q[0]].maxAttempts - jobs[q[0]].attempts + Budget(after, q[1..])
    ensures Budget(after, q) == Budget(jobs, q) - 1
  {
    BudgetFrame(jobs, after, q[1..]);
  }

  /** Each dispatch of a non-empty queue uses up at least one attempt. */
  lemma BudgetFalls(c: Config, s: Tables, cb: Callback, now: Time, done: Time)
    requires JobsOk(s.jobs) && DueQuery(s.jobs, now) != []
    ensures QueueBudget(Q.Dispatch(c, s, cb, now, done).rows.jobs, now) <= QueueBudget(s.jobs, now) - 1
  {
    var q, t := DueQuery(s.jobs, now), Q.Dispatch(c, s, cb, now, done).rows;
    DrainStep(c, s, cb, now, done);
    DueQueryDistinct(s.jobs, now);
    HeadLeaves(s.jobs, t.jobs, q);
    assert JobOk(s.jobs[q[0]]);
  }

  /** The jobs dispatched while draining, in order. */
  function DrainOrder(c: Config, s: Tables, draws: seq<Draw>, now: Time): seq<Id>
    decreases |draws|
  {
    if draws == [] || DueQuery(s.jobs, now) == [] then []
    else
      [DueQuery(s.jobs, now)[0]]
      + DrainOrder(c, Q.Dispatch(c, s, draws[0].callback, now, draws[0].done).rows, draws[1..], now)
  }

  /** Draining stops: no more dispatches than attempts left, and with that many draws nothing due is left. */
  lemma {:induction false} DrainEnds(c: Config, s: Tables, draws: seq<Draw>, now: Time)
    requires JobsOk(s.jobs)
    ensures |DrainOrder(c, s, draws, now)| <= QueueBudget(s.jobs, now)
    ensures |draws| >= QueueBudget(s.jobs, now) ==> DueQuery(Drain(c, s, draws, now).jobs, now) == []
    decreases |draws|
  {
    QueueBudgetCovers(s.jobs, now);
    if draws != [] {
      var cb, done := draws[0].callback, draws[0].done;
      var t := Q.Dispatch(c, s, cb, now, done).rows;
      if DueQuery(s.jobs, now) == [] {
        DrainIdle(c, s, cb, now, done);
      } else {
        BudgetFalls(c, s, cb, now, done);
        DispatchKeepsJobOk(c, s, cb, now, done);
      }
      DrainEnds(c, t, draws[1..], now);
    }
  }

  /** Settled, or due and still to be dispatched. */
  predicate DueOrDone(j: Job, now: Time) { Due(j, now) || j.state.Succeeded? || j.state.Failed? }

  /** While draining, jobs that are not due are untouched and jobs that were due are due still or settled. */
  lemma {:induction false} DrainTouchesOnlyDue(c: Config, s: Tables, draws: seq<Draw>, now: Time, j: Id)
    requires j in s.jobs
    ensures var t := Drain(c, s, draws, now);
      && j in t.jobs
      && (!Due(s.jobs[j], now) ==> t.jobs[j] == s.jobs[j])
      && (DueOrDone(s.jobs[j], now) ==> DueOrDone(t.jobs[j], now))
    decreases |draws|
  {
    if draws != [] {
      var cb, done := draws[0].callback, draws[0].done;
      if DueQuery(s.jobs, now) == [] {
        DrainIdle(c, s, cb, now, done);
      } else {
        DrainStep(c, s, cb, now, done);
      }
      DrainTouchesOnlyDue(c, Q.Dispatch(c, s, cb, now, done).rows, draws[1..], now, j);
    }
  }

  /** With enough draws every due job ends SUCCEEDED or FAILED, and no other job changes, whatever callbacks do. */
  lemma DrainSettlesTheDue(c: Config, s: Tables, draws: seq<Draw>, now: Time, j: Id)
    requires JobsOk(s.jobs) && |draws| >= QueueBudget(s.jobs, now) && j in s.jobs
    ensures var t := Drain(c, s, draws, now);
      && j in t.jobs
      && if Ready(s.jobs[j], now) then t.jobs[j].state.Succeeded? || t.jobs[j].state.Failed?
         else t.jobs[j] == s.jobs[j]
  {
    DrainEnds(c, s, draws, now);
    DrainTouchesOnlyDue(c, s, draws, now, j);
    DueQueryMembers(Drain(c, s, draws, now).jobs, now);
  }

  lemma {:induction false} DrainStaysInQueue(c: Config, s: Tables, draws: seq<Draw>, now: Time)
    ensures forall x :: x in DrainOrder(c, s, draws, now) ==> x in DueQuery(s.jobs, now)
    decreases |draws|
  {
    if draws != [] && DueQuery(s.jobs, now) != [] {
      var cb, done := draws[0].callback, draws[0].done;
      DrainStep(c, s, cb, now, done);
      DrainStaysInQueue(c, Q.Dispatch(c, s, cb, now, done).rows, draws[1..], now);
    }
  }

  /** Never going back in the queue's order. */
  predicate NonDecreasing(ids: seq<Id>, rank: map<Id, Rank>) {
    forall i, j :: 0 <= i < j < |ids| ==> ids[i] == ids[j] || Earlier(rank, ids[i], ids[j])
  }

  lemma {:induction false} DrainsByRank(c: Config, s: Tables, draws: seq<Draw>, now: Time)
    ensures NonDecreasing(DrainOrder(c, s, draws, now), JobRank(s.jobs))
    decreases |draws|
  {
    var q := DueQuery(s.jobs, now);
    if draws != [] && q != [] {
      var cb, done := draws[0].callback, draws[0].done;
      var t := Q.Dispatch(c, s, cb, now, done).rows;
      DrainStep(c, s, cb, now, done);
      DrainsByRank(c, t, draws[1..], now);
      DrainStaysInQueue(c, t, draws[1..], now);
      DueQueryDistinct(s.jobs, now);
      var rest := DrainOrder(c, t, draws[1..], now);
      forall k | 0 <= k < |rest| ensures rest[k] == q[0] || Earlier(JobRank(s.jobs), q[0], rest[k]) {
        assert rest[k] in q;
        var m :| 0 <= m < |q| && q[m] == rest[k];
      }
      assert DrainOrder(c, s, draws, now) == [q[0]] + rest;
    }
  }

  /**
   * Jobs are dispatched in the order of the moments they were asked for, then of their creation, then of their ids;
   * a job dispatched again comes right after itself.
   */
  lemma DrainsInOrder(c: Config, s: Tables, draws: seq<Draw>, now: Time, i: nat, j: nat)
    requires i < j < |DrainOrder(c, s, draws, now)|
    ensures var a, b := DrainOrder(c, s, draws, now)[i], DrainOrder(c, s, draws, now)[j];
      a in s.jobs && b in s.jobs && Ready(s.jobs[a], now) && Ready(s.jobs[b], now)
      && (a == b || ComesBefore(s.jobs, a, b))
  {
    var order := DrainOrder(c, s, draws, now);
    DrainsByRank(c, s, draws, now);
    DrainStaysInQueue(c, s, draws, now);
    DueQueryMembers(s.jobs, now);
    assert order[i] in order && order[j] in order;
    EarlierComesBefore(s.jobs, order[i], order[j]);
  }

  /** So the retries of one job are contiguous: nothing else is dispatched between two of its attempts. */
  lemma RetriesAreContiguous(c: Config, s: Tables, draws: seq<Draw>, now: Time, i: nat, k: nat, j: nat)
    requires var order := DrainOrder(c, s, draws, now); i < k < j < |order| && order[i] == order[j]
    ensures var order := DrainOrder(c, s, draws, now); order[k] == order[i]
  {
    DrainsByRank(c, s, draws, now);
  }
}
