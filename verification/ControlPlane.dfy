/** The control plane as one transition system: every call or worker pass is one step. */
module ControlPlane {
  import opened Basics
  import opened Schema
  import opened Policy
  import opened Governance
  import L = Leases
  import R = Reconciler
  import Q = Scheduler

  datatype Step =
    | CreateLab(profile: string, requester: Requester, draft: LabDraft, now: Time)
    | DestroyLab(lab: Id, removed: bool)
    | CreateRun(lab: Id, command: string, run: Id, now: Time)
    | Decide(approval: Id, decision: Decision, actor: string, comment: Option<string>, now: Time)
    | StageExport(lab: Id, source: string, forRun: Option<Id>, exportDraft: ExportDraft, now: Time)
    | ReleaseExport(exported: Id, present: bool)
    | DenyExport(exported: Id, reason: string)
    | IssueLease(broker: L.Broker, lab: Id, secret: string, ttlMinutes: int, lease: Id, now: Time)
    | RevokeLease(lease: Id, now: Time)
    | Enqueue(request: Q.JobRequest, job: Id, now: Time)
    | Dispatch(callback: Q.Callback, now: Time, done: Time)
    | Reconcile(now: Time, world: R.World)

  function Call(c: Config, s: Tables, step: Step): Outcome {
    match step
    case CreateLab(profile, requester, draft, now) => AddLab(c, s, profile, requester, draft, now)
    case DestroyLab(lab, removed) => Governance.DestroyLab(c, s, lab, removed)
    case CreateRun(lab, command, run, now) => AddRun(c, s, lab, command, run, now)
    case Decide(a, d, actor, comment, now) => Governance.Decide(s, a, d, actor, comment, now)
    case StageExport(lab, source, run, draft, now) => CreateExport(c, s, lab, source, run, draft, now)
    case ReleaseExport(e, present) => Governance.ReleaseExport(s, e, present)
    case DenyExport(e, reason) => Governance.DenyExport(s, e, reason)
    case IssueLease(broker, lab, secret, ttl, lease, now) => L.Issue(c, broker, s, lab, secret, ttl, lease, now)
    case RevokeLease(lease, now) => L.Revoke(s, lease, now)
    case Enqueue(request, job, now) => Q.Enqueue(c, s, request, job, now)
    case Dispatch(cb, now, done) => Q.Dispatch(c, s, cb, now, done)
    case Reconcile(now, w) => Done(R.Reconcile(s, now, w, c.maxDestroyAttempts))
  }

  function Next(c: Config, s: Tables, step: Step): Tables { Call(c, s, step).rows }

  /** The rows after a whole run of steps. */
  function RunFrom(c: Config, s: Tables, steps: seq<Step>): Tables {
    if steps == [] then s
    else Next(c, RunFrom(c, s, steps[..|steps| - 1]), steps[|steps| - 1])
  }

  /** When the step reads the clock, if it does. */
  function Clock(step: Step): Option<Time> {
    match step
    case CreateLab(_, _, _, now) => Some(now)
    case CreateRun(_, _, _, now) => Some(now)
    case Decide(_, _, _, _, now) => Some(now)
    case StageExport(_, _, _, _, now) => Some(now)
    case IssueLease(_, _, _, _, _, now) => Some(now)
    case RevokeLease(_, now) => Some(now)
    case Enqueue(_, _, now) => Some(now)
    case Dispatch(_, now, _) => Some(now)
    case Reconcile(now, _) => Some(now)
    case _ => None
  }

  predicate NotBefore(step: Step, now: Time) { Clock(step).Some? ==> now <= Clock(step).value }

  /** The steps run from `now` on, and the clock never goes back between them. */
  ghost predicate Timed(steps: seq<Step>, now: Time) {
    && (forall i :: 0 <= i < |steps| ==> NotBefore(steps[i], now))
    && (forall i, j :: 0 <= i < j < |steps| && Clock(steps[i]).Some? ==> NotBefore(steps[j], Clock(steps[i]).value))
  }

  ghost predicate Reachable(c: Config, s: Tables) {
    exists steps :: s == RunFrom(c, EMPTY, steps)
  }

  lemma {:induction false} RunConcat(c: Config, s: Tables, a: seq<Step>, b: seq<Step>)
    ensures RunFrom(c, s, a + b) == RunFrom(c, RunFrom(c, s, a), b)
  {
    if b == [] {
      assert a + b == a;
    } else {
      var n := |b| - 1;
      assert (a + b)[..|a + b| - 1] == a + b[..n];
      RunConcat(c, s, a, b[..n]);
    }
  }

  /** A refused call changes nothing, except that a blocked release commits its one event. */
  lemma RefusedCommitsNothing(c: Config, s: Tables, step: Step)
    requires Call(c, s, step).error.Some?
    ensures Next(c, s, step) == s
      || (step.ReleaseExport? && Call(c, s, step).error == Some(ExportNeedsApproval)
          && step.exported in s.exports
          && Next(c, s, step) == s.(events := s.events
               + [Event(ExportReleaseBlocked, step.exported, Some(s.exports[step.exported].lab), Plain)]))
  {
  }
}
