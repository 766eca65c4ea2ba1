/** Scheduled work takes effect exactly once: succeeded jobs and the rows the scheduler made are one for one. */
module ExactlyOnce {
  import opened Basics
  import opened Schema
  import opened Policy
  import opened Governance
  import opened Q = Scheduler
  import opened ControlPlane
  import opened ReconcilerLaws
  import opened SchedulerLaws
  import R = Reconciler

  // ---------- a dispatch is all or nothing ----------

  /** A failed attempt leaves everything but its job and its two events as it was before the callback ran. */
  lemma FailedAttemptLeavesNothing(c: Config, s: Tables, cb: Callback, now: Time, done: Time)
    requires var q := DueQuery(s.jobs, now); q != [] && q[0] in s.jobs && AttemptError(c, s, q[0], cb, now).Some?
    ensures var q, t := DueQuery(s.jobs, now), Q.Dispatch(c, s, cb, now, done).rows;
      && t == s.(jobs := t.jobs, events := t.events)
      && |t.events| == |s.events| + 2 && t.events[..|s.events|] == s.events
      && q[0] in t.jobs && !t.jobs[q[0]].state.Succeeded? && t.jobs[q[0]].result == s.jobs[q[0]].result
  {
  }

  /** What a dispatch adds to the labs and the runs. */
  lemma DispatchMakes(c: Config, s: Tables, cb: Callback, now: Time, done: Time)
    requires var q := DueQuery(s.jobs, now); q != [] && q[0] in s.jobs
    ensures var q, t := DueQuery(s.jobs, now), Q.Dispatch(c, s, cb, now, done).rows;
      var ok, action := AttemptError(c, s, q[0], cb, now).None?, s.jobs[q[0]].action;
      && (if ok && action.CreateLab?
          then cb.draft.labId !in s.labs && t.labs.Keys == s.labs.Keys + {cb.draft.labId}
          else t.labs == s.labs)
      && (if ok && action.StartRun?
          then cb.runId !in s.runs && t.runs.Keys == s.runs.Keys + {cb.runId}
          else t.runs == s.runs)
  {
    var id := DueQuery(s.jobs, now)[0];
    var started := Started(s.jobs[id], now);
    AttemptMakes(c, s.(jobs := s.jobs[id := started]), started, cb, now);
  }

  lemma AttemptMakes(c: Config, s: Tables, j: Job, cb: Callback, now: Time)
    ensures var o := Attempted(c, s, j, cb, now);
      && (if o.error.None? && j.action.CreateLab?
          then cb.draft.labId !in s.labs && o.rows.labs.Keys == s.labs.Keys + {cb.draft.labId}
          else o.rows.labs == s.labs)
      && (if o.error.None? && j.action.StartRun?
          then cb.runId !in s.runs && o.rows.runs.Keys == s.runs.Keys + {cb.runId}
          else o.rows.runs == s.runs)
  {
    if j.action.CreateLab? && j.profile.Some? {
      AddLabMakes(c, s, j.profile.value, Requester.Scheduler, cb.draft, now);
    }
  }

  lemma AddLabMakes(c: Config, s: Tables, profile: string, requester: Requester, d: LabDraft, now: Time)
    ensures var o := AddLab(c, s, profile, requester, d, now);
      && o.rows.runs == s.runs
      && (if o.error.None? then d.labId !in s.labs && o.rows.labs.Keys == s.labs.Keys + {d.labId}
          else o.rows.labs == s.labs)
  {
  }

  // ---------- rows never vanish ----------

  ghost predicate Grows(s: Tables, t: Tables) { s.labs.Keys <= t.labs.Keys && s.runs.Keys <= t.runs.Keys }

  lemma DispatchGrows(c: Config, s: Tables, cb: Callback, now: Time, done: Time)
    ensures Grows(s, Q.Dispatch(c, s, cb, now, done).rows)
  {
    DueQueryMembers(s.jobs, now);
    if DueQuery(s.jobs, now) != [] { DispatchMakes(c, s, cb, now, done); }
  }

  lemma DecideGrows(s: Tables, a: Id, d: Decision, actor: string, comment: Option<string>, now: Time)
    ensures Grows(s, Governance.Decide(s, a, d, actor, comment, now).rows)
  {
  }

  lemma ReconcileGrows(s: Tables, now: Time, w: R.World, max: int)
    ensures Grows(s, R.Reconcile(s, now, w, max))
  {
    PassRows(s, now, w, max);
    PassLabs(s, now, w, max);
  }

  lemma StageGrows(c: Config, s: Tables, lab: Id, source: string, run: Option<Id>, d: ExportDraft, now: Time)
    ensures Grows(s, CreateExport(c, s, lab, source, run, d, now).rows)
  {
  }

  lemma OthersGrow(c: Config, s: Tables, step: Step)
    requires !step.Dispatch? && !step.Decide? && !step.Reconcile? && !step.StageExport? && !step.CreateLab?
    ensures Grows(s, Next(c, s, step))
  {
  }

  lemma StepGrows(c: Config, s: Tables, step: Step)
    ensures Grows(s, Next(c, s, step))
  {
    match step
    case CreateLab(profile, requester, draft, now) => AddLabMakes(c, s, profile, requester, draft, now);
    case Decide(a, d, actor, comment, now) => DecideGrows(s, a, d, actor, comment, now);
    case StageExport(lab, source, run, draft, now) => StageGrows(c, s, lab, source, run, draft, now);
    case Dispatch(cb, now, done) => DispatchGrows(c, s, cb, now, done);
    case Reconcile(now, w) => ReconcileGrows(s, now, w, c.maxDestroyAttempts);
    case _ => OthersGrow(c, s, step);
  }

  // ---------- one for one ----------

  /** The rows of the table that jobs of this action fill. */
  function MadeBy(s: Tables, action: JobAction): set<Id> {
    if action.CreateLab? then s.labs.Keys else s.runs.Keys
  }

  /** The labs, or the runs, that dispatches of this run brought into the tables. */
  function Scheduled(c: Config, steps: seq<Step>, action: JobAction): set<Id> {
    if steps == [] then {}
    else
      var n := |steps| - 1;
      var s := RunFrom(c, EMPTY, steps[..n]);
      Scheduled(c, steps[..n], action)
      + MadeIn(c, s, steps[n], action)
  }

  function MadeIn(c: Config, s: Tables, step: Step, action: JobAction): set<Id> {
    if step.Dispatch? then MadeBy(Next(c, s, step), action) - MadeBy(s, action) else {}
  }

  /** Job `j` succeeded in this action and made `x`. */
  predicate Produced(jobs: map<Id, Job>, action: JobAction, j: Id, x: Id) {
    j in jobs && jobs[j].state.Succeeded? && jobs[j].action == action && jobs[j].result == Some(x)
  }

  /** Succeeded jobs of this action and the rows made are in bijection through the jobs' results. */
  ghost predicate OneForOne(jobs: map<Id, Job>, action: JobAction, made: set<Id>) {
    && (forall j :: j in jobs && jobs[j].state.Succeeded? && jobs[j].action == action ==>
          jobs[j].result.Some? && jobs[j].result.value in made)
    && (forall x :: x in made ==> exists j :: Produced(jobs, action, j, x))
    && (forall i, j, x :: Produced(jobs, action, i, x) && Produced(jobs, action, j, x) ==> i == j)
  }

  /** A job that makes nothing of this action leaves the bijection alone. */
  lemma NothingMade(jobs: map<Id, Job>, id: Id, row: Job, action: JobAction, made: set<Id>)
    requires OneForOne(jobs, action, made) && (id in jobs ==> !jobs[id].state.Succeeded?)
    requires !row.state.Succeeded? || row.action != action
    ensures OneForOne(jobs[id := row], action, made)
  {
    var after := jobs[id := row];
    forall i, x ensures Produced(after, action, i, x) <==> Produced(jobs, action, i, x) {}
    forall x | x in made ensures exists j :: Produced(after, action, j, x) {
      var j :| Produced(jobs, action, j, x);
      assert Produced(after, action, j, x);
    }
  }

  /** A job that succeeds with a fresh row extends it. */
  lemma OneMade(jobs: map<Id, Job>, id: Id, row: Job, x: Id, made: set<Id>)
    requires OneForOne(jobs, row.action, made) && (id in jobs ==> !jobs[id].state.Succeeded?)
    requires row.state.Succeeded? && row.result == Some(x) && x !in made
    ensures OneForOne(jobs[id := row], row.action, made + {x})
  {
    var after := jobs[id := row];
    forall i, y ensures
      Produced(after, row.action, i, y) <==> Produced(jobs, row.action, i, y) || (i == id && y == x)
    {
    }
    forall y | y in made + {x} ensures exists j :: Produced(after, row.action, j, y) {
      if y == x {
        assert Produced(after, row.action, id, x);
      } else {
        var j :| Produced(jobs, row.action, j, y);
        assert Produced(after, row.action, j, y);
      }
    }
    forall i, j, y | Produced(after, row.action, i, y) && Produced(after, row.action, j, y) ensures i == j {
      if i == id || j == id { assert !Produced(jobs, row.action, i, x) && !Produced(jobs, row.action, j, x); }
    }
  }

  lemma DispatchOneForOne(
    c: Config, s: Tables, cb: Callback, now: Time, done: Time, action: JobAction, made: set<Id>)
    requires OneForOne(s.jobs, action, made) && made <= MadeBy(s, action)
    ensures var t := Q.Dispatch(c, s, cb, now, done).rows;
      OneForOne(t.jobs, action, made + (MadeBy(t, action) - MadeBy(s, action)))
  {
    var q, t := DueQuery(s.jobs, now), Q.Dispatch(c, s, cb, now, done).rows;
    DispatchJobs(c, s, cb, now, done);
    if q == [] {
      assert made + (MadeBy(t, action) - MadeBy(s, action)) == made;
    } else {
      var row := t.jobs[q[0]];
      DispatchMakes(c, s, cb, now, done);
      if row.state.Succeeded? && row.action == action {
        var x := ResultId(action, cb);
        OneMade(s.jobs, q[0], row, x, made);
        assert MadeBy(t, action) - MadeBy(s, action) == {x};
      } else {
        NothingMade(s.jobs, q[0], row, action, made);
        assert made + (MadeBy(t, action) - MadeBy(s, action)) == made;
      }
    }
  }

  lemma EnqueueOneForOne(
    c: Config, s: Tables, r: JobRequest, id: Id, now: Time, action: JobAction, made: set<Id>)
    requires OneForOne(s.jobs, action, made)
    ensures OneForOne(Q.Enqueue(c, s, r, id, now).rows.jobs, action, made)
  {
    if Q.Enqueue(c, s, r, id, now).error.None? { NothingMade(s.jobs, id, NewJob(r, now), action, made); }
  }

  lemma StepOneForOne(c: Config, s: Tables, step: Step, action: JobAction, made: set<Id>)
    requires OneForOne(s.jobs, action, made) && made <= MadeBy(s, action)
    ensures OneForOne(Next(c, s, step).jobs, action, made + MadeIn(c, s, step, action))
    ensures made + MadeIn(c, s, step, action) <= MadeBy(Next(c, s, step), action)
  {
    StepGrows(c, s, step);
    if step.Dispatch? {
      DispatchOneForOne(c, s, step.callback, step.now, step.done, action, made);
    } else {
      assert made + MadeIn(c, s, step, action) == made;
      if step.Enqueue? {
        EnqueueOneForOne(c, s, step.request, step.job, step.now, action, made);
      } else {
        OthersKeepJobs(c, s, step);
      }
    }
  }

  /**
   * Over every run: each lab (or run) that a dispatch made is the result of exactly one succeeded job of that
   * action, and each succeeded job's result is a lab (or run) that a dispatch made.
   */
  lemma {:induction false} ScheduledOnce(c: Config, steps: seq<Step>, action: JobAction)
    ensures var s := RunFrom(c, EMPTY, steps);
      && Scheduled(c, steps, action) <= MadeBy(s, action)
      && OneForOne(s.jobs, action, Scheduled(c, steps, action))
  {
    if steps != [] {
      var n := |steps| - 1;
      ScheduledOnce(c, steps[..n], action);
      StepOneForOne(c, RunFrom(c, EMPTY, steps[..n]), steps[n], action, Scheduled(c, steps[..n], action));
    }
  }
}
