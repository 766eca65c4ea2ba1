/** What becomes of single rows over whole runs: runs, leases, approvals, labs and jobs. */
module RowLaws {
  import opened Basics
  import opened Schema
  import opened Policy
  import opened Governance
  import opened ControlPlane
  import opened GovernanceLaws
  import opened ReleaseSafety
  import opened SchedulerLaws
  import opened CallLaws
  import opened QueueLaws
  import PassLaws
  import L = Leases
  import LeaseLaws
  import Q = Scheduler
  import R = Reconciler

  /** A row that one step or another will end: a run under way, an open lease, a waiting request. */
  datatype Watched = OfRun(deadline: Time) | OfLease(lease: Id, expiry: Time) | OfRequest(request: Id, expiry: Time)

  /** A pass at or after this moment. */
  predicate PassFrom(step: Step, at: Time) { step.Reconcile? && at <= step.now }

  /** A decision on this request before this moment, and a denial only with a comment. */
  predicate Decides(step: Step, a: Id, expiry: Time) {
    && step.Decide? && step.approval == a && step.now < expiry
    && (step.decision == Decision.Deny ==> step.comment != None && !NothingSaid(step.comment.value))
  }

  /** The step ends the row: by its owner's call, or as a pass once its time is up. */
  predicate Ends(step: Step, w: Watched) {
    match w
    case OfRun(deadline) => PassFrom(step, deadline)
    case OfLease(lease, expiry) => (step.RevokeLease? && step.lease == lease) || PassFrom(step, expiry)
    case OfRequest(a, expiry) => Decides(step, a, expiry) || PassFrom(step, expiry)
  }

  /** The first step that ends the row, or the number of steps. */
  function FirstEnd(steps: seq<Step>, w: Watched): (k: nat)
    ensures k <= |steps|
    ensures forall i :: 0 <= i < k ==> !Ends(steps[i], w)
    ensures k < |steps| ==> Ends(steps[k], w)
  {
    if steps == [] then 0
    else
      var n := |steps| - 1;
      var k := FirstEnd(steps[..n], w);
      if k < n then k else if Ends(steps[n], w) then n else n + 1
  }

  // ---------- runs ----------

  lemma AddRunKeepsRuns(c: Config, s: Tables, lab: Id, command: string, run: Id, now: Time, r: Id)
    requires r in s.runs
    ensures var t := AddRun(c, s, lab, command, run, now).rows; r in t.runs && t.runs[r] == s.runs[r]
  {
  }

  lemma AttemptKeepsRuns(c: Config, s: Tables, j: Job, cb: Q.Callback, now: Time, r: Id)
    requires r in s.runs
    ensures var t := Q.Attempted(c, s, j, cb, now).rows; r in t.runs && t.runs[r] == s.runs[r]
  {
    if j.action.CreateLab? && j.profile.Some? {
      AddLabFramed(c, s, j.profile.value, Requester.Scheduler, cb.draft, now);
    }
    if j.action.StartRun? && j.lab.Some? && j.command.Some? {
      AddRunKeepsRuns(c, s, j.lab.value, j.command.value, cb.runId, now, r);
    }
  }

  lemma DispatchKeepsRuns(c: Config, s: Tables, cb: Q.Callback, now: Time, done: Time, r: Id)
    requires r in s.runs
    ensures var t := Q.Dispatch(c, s, cb, now, done).rows; r in t.runs && t.runs[r] == s.runs[r]
  {
    var q := Q.DueQuery(s.jobs, now);
    Q.DueQueryMembers(s.jobs, now);
    if q != [] {
      var j := Q.Started(s.jobs[q[0]], now);
      AttemptKeepsRuns(c, s.(jobs := s.jobs[q[0] := j]), j, cb, now, r);
    }
  }

  lemma OthersKeepRuns(c: Config, s: Tables, step: Step, r: Id)
    requires r in s.runs && !step.Reconcile?
    ensures var t := Next(c, s, step); r in t.runs && t.runs[r] == s.runs[r]
  {
    match step
    case CreateRun(lab, command, run, now) => AddRunKeepsRuns(c, s, lab, command, run, now, r);
    case Dispatch(cb, now, done) => DispatchKeepsRuns(c, s, cb, now, done, r);
    case _ => StepFramed(c, s, step);
  }

  predicate UnderWay(r: Run) {
    r.state == RunState.Queued || r.state == RunState.Starting || r.state == RunState.Running
  }

  lemma RunStep(c: Config, s: Tables, step: Step, r: Id, deadline: Time)
    requires r in s.runs && s.runs[r].timeoutAt == Some(deadline)
    ensures var t := Next(c, s, step);
      && r in t.runs
      && t.runs[r] == if PassFrom(step, deadline) && UnderWay(s.runs[r]) then
                        s.runs[r].(state := RunState.TimedOut, finishedAt := Some(step.now))
                      else s.runs[r]
  {
    if step.Reconcile? {
      PassLaws.RunAfterPass(s, step.now, step.world, c.maxDestroyAttempts, r);
    } else {
      OthersKeepRuns(c, s, step, r);
    }
  }

  lemma LastStep(c: Config, s: Tables, steps: seq<Step>)
    requires steps != []
    ensures RunFrom(c, s, steps) == Next(c, RunFrom(c, s, steps[..|steps| - 1]), steps[|steps| - 1])
  {
  }

  /** A run that is under way is timed out by the first pass at or after its deadline, and by nothing else ever. */
  lemma {:induction false} RunFate(c: Config, s: Tables, steps: seq<Step>, r: Id, deadline: Time)
    requires r in s.runs && UnderWay(s.runs[r]) && s.runs[r].timeoutAt == Some(deadline)
    ensures r in RunFrom(c, s, steps).runs
    ensures RunFrom(c, s, steps).runs[r] == RunEnds(s.runs[r], steps, deadline)
  {
    if steps != [] {
      var n := |steps| - 1;
      RunFate(c, s, steps[..n], r, deadline);
      LastStep(c, s, steps);
      RunStep(c, RunFrom(c, s, steps[..n]), steps[n], r, deadline);
      RunEndsNext(s.runs[r], steps, deadline);
    }
  }

  function RunEnds(before: Run, steps: seq<Step>, deadline: Time): Run {
    var k := FirstEnd(steps, OfRun(deadline));
    if k == |steps| then before else before.(state := RunState.TimedOut, finishedAt := Some(steps[k].now))
  }

  lemma RunEndsNext(before: Run, steps: seq<Step>, deadline: Time)
    requires steps != [] && UnderWay(before)
    ensures var n := |steps| - 1;
      var x := RunEnds(before, steps[..n], deadline);
      RunEnds(before, steps, deadline) == if PassFrom(steps[n], deadline) && UnderWay(x) then
                                            x.(state := RunState.TimedOut, finishedAt := Some(steps[n].now))
                                          else x
  {
  }

  /** So a new run is timed out by the first pass once its minutes are over, whatever else happens. */
  lemma NewRunFate(c: Config, s: Tables, lab: Id, command: string, r: Id, now: Time, steps: seq<Step>)
    requires Call(c, s, CreateRun(lab, command, r, now)).error == None
    ensures var t := RunFrom(c, Next(c, s, CreateRun(lab, command, r, now)), steps);
      var k := FirstEnd(steps, OfRun(now + 60 * c.runTimeoutMinutes));
      && r in t.runs
      && t.runs[r] == Run(
           lab := lab, state := if k == |steps| then RunState.Queued else RunState.TimedOut, command := command,
           timeoutAt := Some(now + 60 * c.runTimeoutMinutes),
           finishedAt := if k == |steps| then None else Some(steps[k].now), createdAt := now)
  {
    RunCreated(c, s, lab, command, r, now);
    RunFate(c, Next(c, s, CreateRun(lab, command, r, now)), steps, r, now + 60 * c.runTimeoutMinutes);
  }

  // ---------- leases ----------

  lemma OthersKeepLease(c: Config, s: Tables, step: Step, l: Id)
    requires l in s.leases && !Ends(step, OfLease(l, s.leases[l].expiresAt))
    ensures var t := Next(c, s, step); l in t.leases && t.leases[l] == s.leases[l]
  {
    match step
    case IssueLease(broker, lab, secret, ttl, lease, now) =>
      LeaseAnswered(c, broker, s, lab, secret, ttl, lease, now);
      RefusedCommitsNothingHere(c, s, step);
    case RevokeLease(lease, now) =>
      RevocationAnswered(c, s, lease, now);
      RefusedCommitsNothingHere(c, s, step);
    case Reconcile(now, w) => PassLaws.LeaseAfterPass(s, now, w, c.maxDestroyAttempts, l);
    case _ => StepFramed(c, s, step);
  }

  lemma RefusedCommitsNothingHere(c: Config, s: Tables, step: Step)
    requires !step.ReleaseExport?
    ensures Call(c, s, step).error.Some? ==> Next(c, s, step) == s
  {
    if Call(c, s, step).error.Some? { RefusedCommitsNothing(c, s, step); }
  }

  lemma LeaseStep(c: Config, s: Tables, step: Step, l: Id, expiry: Time)
    requires l in s.leases && s.leases[l].expiresAt == expiry
    ensures var t := Next(c, s, step);
      && l in t.leases
      && t.leases[l] == if Ends(step, OfLease(l, expiry)) && s.leases[l].revokedAt == None then
                          s.leases[l].(revokedAt := Some(step.now))
                        else s.leases[l]
  {
    if step.Reconcile? {
      PassLaws.LeaseAfterPass(s, step.now, step.world, c.maxDestroyAttempts, l);
    } else if step.RevokeLease? && step.lease == l {
      RevocationAnswered(c, s, l, step.now);
      RefusedCommitsNothingHere(c, s, step);
    } else {
      OthersKeepLease(c, s, step, l);
    }
  }

  function LeaseEnds(before: Lease, steps: seq<Step>, l: Id): Lease {
    var k := FirstEnd(steps, OfLease(l, before.expiresAt));
    if k == |steps| then before else before.(revokedAt := Some(steps[k].now))
  }

  lemma LeaseEndsNext(before: Lease, steps: seq<Step>, l: Id)
    requires steps != [] && before.revokedAt == None
    ensures var n := |steps| - 1;
      var x := LeaseEnds(before, steps[..n], l);
      LeaseEnds(before, steps, l) == if Ends(steps[n], OfLease(l, before.expiresAt)) && x.revokedAt == None then
                                       x.(revokedAt := Some(steps[n].now))
                                     else x
  {
  }

  /** An open lease is ended by the first revocation of it or the first pass once it has expired, and only then. */
  lemma {:induction false} LeaseFate(c: Config, s: Tables, steps: seq<Step>, l: Id)
    requires l in s.leases && s.leases[l].revokedAt == None
    ensures l in RunFrom(c, s, steps).leases
    ensures RunFrom(c, s, steps).leases[l] == LeaseEnds(s.leases[l], steps, l)
  {
    if steps != [] {
      var n := |steps| - 1;
      LeaseFate(c, s, steps[..n], l);
      LastStep(c, s, steps);
      LeaseStep(c, RunFrom(c, s, steps[..n]), steps[n], l, s.leases[l].expiresAt);
      LeaseEndsNext(s.leases[l], steps, l);
    }
  }

  /** This lease is among those handed to its lab's runtime at `at`. */
  predicate HandedOut(s: Tables, l: Id, lab: Id, at: Time) { l in L.UsableIds(s.leases, lab, at) }

  /**
   * A new lease, short of being revoked, is handed to its lab from the moment it was issued until exactly its minutes
   * are over; it is handed to no other lab, and after that to none.
   */
  lemma NewLeaseLasts(
    c: Config, broker: L.Broker, s: Tables, lab: Id, secret: string, ttlMinutes: int, l: Id, now: Time,
    steps: seq<Step>, at: Time, other: Id)
    requires Call(c, s, IssueLease(broker, lab, secret, ttlMinutes, l, now)).error == None
    requires forall i :: 0 <= i < |steps| ==> !(steps[i].RevokeLease? && steps[i].lease == l)
    requires forall i :: 0 <= i < |steps| && steps[i].Reconcile? ==> steps[i].now <= at
    ensures HandedOut(RunFrom(c, Next(c, s, IssueLease(broker, lab, secret, ttlMinutes, l, now)), steps), l, other, at)
       <==> other == lab && at < now + 60 * ttlMinutes
  {
    var t := Next(c, s, IssueLease(broker, lab, secret, ttlMinutes, l, now));
    LeaseAnswered(c, broker, s, lab, secret, ttlMinutes, l, now);
    OpenLeaseLasts(c, t, steps, l, at, other);
  }

  /** The same of any lease that is open and approved. */
  lemma OpenLeaseLasts(c: Config, s: Tables, steps: seq<Step>, l: Id, at: Time, other: Id)
    requires l in s.leases && s.leases[l].revokedAt == None && s.leases[l].approved
    requires forall i :: 0 <= i < |steps| ==> !(steps[i].RevokeLease? && steps[i].lease == l)
    requires forall i :: 0 <= i < |steps| && steps[i].Reconcile? ==> steps[i].now <= at
    ensures HandedOut(RunFrom(c, s, steps), l, other, at)
       <==> other == s.leases[l].lab && at < s.leases[l].expiresAt
  {
    LeaseFate(c, s, steps, l);
    L.UsableMembers(RunFrom(c, s, steps).leases, other, at);
  }

  /** A revoked lease is never handed out again, to anyone. */
  lemma RevokedStaysRevoked(c: Config, s: Tables, l: Id, now: Time, steps: seq<Step>, lab: Id, at: Time)
    requires Call(c, s, RevokeLease(l, now)).error == None
    ensures !HandedOut(RunFrom(c, Next(c, s, RevokeLease(l, now)), steps), l, lab, at)
  {
    RevocationAnswered(c, s, l, now);
    assert RunFrom(c, s, []) == s;
    var all := [RevokeLease(l, now)] + steps;
    RunConcat(c, s, [RevokeLease(l, now)], steps);
    assert RunFrom(c, s, [RevokeLease(l, now)]) == Next(c, s, RevokeLease(l, now));
    LeaseFate(c, s, all, l);
    assert all[0] == RevokeLease(l, now);
    L.UsableMembers(RunFrom(c, s, all).leases, lab, at);
  }

  // ---------- requests ----------

  /** A waiting request as the step that ends it leaves it. */
  function RequestAfter(before: Approval, step: Step): Approval {
    match step
    case Decide(_, decision, actor, comment, now) =>
      before.(state := if decision == Approve then ApprovalState.Approved else ApprovalState.Rejected,
              approved := decision == Approve, comment := comment, decidedBy := Some(actor), decidedAt := Some(now))
    case Reconcile(now, _) =>
      before.(state := ApprovalState.Expired, approved := false, decidedBy := Some("reconciler"),
              decidedAt := Some(now))
    case _ => before
  }

  function RequestEnds(before: Approval, steps: seq<Step>, a: Id, expiry: Time): Approval {
    var k := FirstEnd(steps, OfRequest(a, expiry));
    if k == |steps| then before else RequestAfter(before, steps[k])
  }

  lemma RequestEndsNext(before: Approval, steps: seq<Step>, a: Id, expiry: Time)
    requires steps != [] && before.state == ApprovalState.Requested
    ensures var n := |steps| - 1;
      var x := RequestEnds(before, steps[..n], a, expiry);
      RequestEnds(before, steps, a, expiry)
      == if Ends(steps[n], OfRequest(a, expiry)) && x.state == ApprovalState.Requested then RequestAfter(x, steps[n])
         else x
  {
  }

  /** The step closes the request if it can and the request still waits, and else leaves it alone. */
  ghost predicate MovesRequest(before: Approval, t: Tables, step: Step, a: Id, expiry: Time) {
    && a in t.approvals
    && t.approvals[a] == if Ends(step, OfRequest(a, expiry)) && before.state == ApprovalState.Requested then
                           RequestAfter(before, step)
                         else before
  }

  lemma DecideStep(
    c: Config, s: Tables, a: Id, id: Id, d: Decision, actor: string, comment: Option<string>, now: Time, expiry: Time)
    requires a in s.approvals && ApprovalOk(s, s.approvals[a]) && s.approvals[a].expiresAt == Some(expiry)
    ensures var step := Decide(id, d, actor, comment, now);
      MovesRequest(s.approvals[a], Next(c, s, step), step, a, expiry)
  {
    var step := Decide(id, d, actor, comment, now);
    DecisionAnswered(c, s, id, d, actor, comment, now);
    RefusedCommitsNothingHere(c, s, step);
    if Call(c, s, step).error == None {
      if d == Approve { ApprovalGiven(c, s, id, actor, comment, now); }
      else { DenialGiven(c, s, id, actor, comment, now); }
    }
  }

  lemma PassStep(c: Config, s: Tables, a: Id, now: Time, w: R.World, expiry: Time)
    requires a in s.approvals && s.approvals[a].expiresAt == Some(expiry)
    ensures MovesRequest(s.approvals[a], Next(c, s, Step.Reconcile(now, w)), Step.Reconcile(now, w), a, expiry)
  {
    PassLaws.ApprovalAfterPass(s, now, w, c.maxDestroyAttempts, a);
  }

  lemma OtherStep(c: Config, s: Tables, step: Step, a: Id, expiry: Time)
    requires a in s.approvals && !step.Decide? && !step.Reconcile?
    ensures MovesRequest(s.approvals[a], Next(c, s, step), step, a, expiry)
  {
    OthersAddPending(c, s, step);
  }

  lemma RequestStep(c: Config, s: Tables, step: Step, a: Id, expiry: Time)
    requires a in s.approvals && ApprovalOk(s, s.approvals[a]) && s.approvals[a].expiresAt == Some(expiry)
    ensures MovesRequest(s.approvals[a], Next(c, s, step), step, a, expiry)
  {
    match step
    case Decide(id, d, actor, comment, now) => DecideStep(c, s, a, id, d, actor, comment, now, expiry);
    case Reconcile(now, w) => PassStep(c, s, a, now, w, expiry);
    case _ => OtherStep(c, s, step, a, expiry);
  }

  lemma ReachedOk(c: Config, s: Tables, steps: seq<Step>, a: Id)
    requires ValidRegistry(c.profiles) && Inv(c, s) && a in RunFrom(c, s, steps).approvals
    ensures var t := RunFrom(c, s, steps); ApprovalOk(t, t.approvals[a])
  {
    RunKeeps(c, s, steps);
  }

  /**
   * A waiting request is closed by the first decision on it before its expiry or the first pass from its expiry on,
   * whichever comes first in the run, and by nothing else ever; what that step decided is what the row keeps.
   */
  lemma {:induction false} RequestFate(c: Config, s: Tables, steps: seq<Step>, a: Id, expiry: Time)
    requires ValidRegistry(c.profiles) && Inv(c, s)
    requires a in s.approvals && s.approvals[a].state == ApprovalState.Requested
    requires s.approvals[a].expiresAt == Some(expiry)
    ensures a in RunFrom(c, s, steps).approvals
    ensures RunFrom(c, s, steps).approvals[a] == RequestEnds(s.approvals[a], steps, a, expiry)
  {
    if steps != [] {
      var n := |steps| - 1;
      RequestFate(c, s, steps[..n], a, expiry);
      ReachedOk(c, s, steps[..n], a);
      LastStep(c, s, steps);
      RequestStep(c, RunFrom(c, s, steps[..n]), steps[n], a, expiry);
      RequestEndsNext(s.approvals[a], steps, a, expiry);
    }
  }

  // ---------- labs ----------

  /** The lab's row is there still, of the same profile, runtime and age. */
  ghost predicate LabKept(s: Tables, t: Tables, l: Id) {
    && l in s.labs && l in t.labs
    && t.labs[l].profile == s.labs[l].profile
    && t.labs[l].runtime == s.labs[l].runtime
    && t.labs[l].createdAt == s.labs[l].createdAt
  }

  lemma DecideKeepsLab(
    c: Config, s: Tables, id: Id, d: Decision, actor: string, comment: Option<string>, now: Time, l: Id)
    requires l in s.labs
    ensures LabKept(s, Next(c, s, Decide(id, d, actor, comment, now)), l)
  {
    var step := Decide(id, d, actor, comment, now);
    RefusedCommitsNothingHere(c, s, step);
    if Call(c, s, step).error == None {
      if d == Approve { ApprovalGiven(c, s, id, actor, comment, now); }
      else { DenialGiven(c, s, id, actor, comment, now); }
    }
  }

  lemma StepKeepsLab(c: Config, s: Tables, step: Step, l: Id)
    requires l in s.labs
    ensures LabKept(s, Next(c, s, step), l)
  {
    match step
    case CreateLab(profile, requester, draft, now) => AddLabKeepsLabs(c, s, profile, requester, draft, now, l);
    case DestroyLab(lab, removed) =>
      LabDeleted(c, s, lab, removed);
      RefusedCommitsNothingHere(c, s, step);
    case Decide(id, d, actor, comment, now) => DecideKeepsLab(c, s, id, d, actor, comment, now, l);
    case Dispatch(cb, now, done) => DispatchKeepsLabs(c, s, cb, now, done, l);
    case Reconcile(now, w) => PassLaws.LabAfterPass(s, now, w, c.maxDestroyAttempts, l);
    case _ => OthersKeepLabs(c, s, step);
  }

  /** No run ever drops a lab's row or changes its profile. */
  lemma {:induction false} LabStays(c: Config, s: Tables, steps: seq<Step>, l: Id)
    requires l in s.labs
    ensures LabKept(s, RunFrom(c, s, steps), l)
  {
    if steps != [] {
      var n := |steps| - 1;
      LabStays(c, s, steps[..n], l);
      LastStep(c, s, steps);
      StepKeepsLab(c, RunFrom(c, s, steps[..n]), steps[n], l);
    }
  }

  // ---------- the start gate ----------

  /** The step makes this lab for someone whose lab of its profile may not start unapproved. */
  ghost predicate MakesRiskyLab(c: Config, s: Tables, step: Step, l: Id) {
    && (step.CreateLab? || step.Dispatch?)
    && l !in s.labs && l in Next(c, s, step).labs
    && Next(c, s, step).labs[l].profile in c.profiles
    && NeedsStartApproval(c.profiles[Next(c, s, step).labs[l].profile],
                          if step.CreateLab? then step.requester else Requester.Scheduler)
  }

  lemma CreatedIsGated(c: Config, s: Tables, profile: string, requester: Requester, d: LabDraft, now: Time, l: Id)
    requires ValidRegistry(c.profiles) && MakesRiskyLab(c, s, Step.CreateLab(profile, requester, d, now), l)
    ensures Gated(Next(c, s, Step.CreateLab(profile, requester, d, now)), LabResource, l)
  {
    var step := Step.CreateLab(profile, requester, d, now);
    RefusedCommitsNothingHere(c, s, step);
    LabCreated(c, s, profile, requester, d, now);
    assert R.Targets(Next(c, s, step).approvals, d.approvalId, LabResource, l);
  }

  lemma DispatchedIsGated(c: Config, s: Tables, cb: Q.Callback, now: Time, done: Time, l: Id)
    requires ValidRegistry(c.profiles) && JobsOk(s.jobs) && MakesRiskyLab(c, s, Step.Dispatch(cb, now, done), l)
    ensures Gated(Next(c, s, Step.Dispatch(cb, now, done)), LabResource, l)
  {
    var t := Next(c, s, Step.Dispatch(cb, now, done));
    RefusedCommitsNothingHere(c, s, Step.Dispatch(cb, now, done));
    var id := DispatchRuns(c, s, cb, now, done);
    var asked := Asked(s.jobs[id], cb, now);
    assert Call(c, s, asked).error == None && t.labs == Next(c, s, asked).labs;
    StepFramed(c, s, asked);
    assert MakesRiskyLab(c, s, asked, l);
    CreatedIsGated(c, s, asked.profile, asked.requester, asked.draft, asked.now, l);
    var a :| R.Targets(Next(c, s, asked).approvals, a, LabResource, l);
    assert R.Targets(t.approvals, a, LabResource, l);
  }

  /**
   * A lab that may not start unapproved, whether a call or a dispatched job made it, is APPROVED at any later point
   * only if one step of the run took its own request from pending to APPROVED, in time.
   */
  lemma RiskyLabWasApproved(c: Config, before: seq<Step>, step: Step, after: seq<Step>, l: Id)
    returns (a: Id, i: nat)
    requires ValidRegistry(c.profiles) && MakesRiskyLab(c, RunFrom(c, EMPTY, before), step, l)
    requires var t := RunFrom(c, EMPTY, before + [step] + after); l in t.labs && t.labs[l].state == LabState.Approved
    ensures var t := RunFrom(c, EMPTY, before + [step] + after);
      && R.Targets(t.approvals, a, LabResource, l)
      && t.approvals[a].state == ApprovalState.Approved
      && ApprovedAt(c, before + [step] + after, i, a, t.approvals[a])
  {
    var s := RunFrom(c, EMPTY, before);
    var made := Next(c, s, step);
    JobsAlwaysOk(c, before);
    match step {
      case CreateLab(profile, requester, d, now) => CreatedIsGated(c, s, profile, requester, d, now, l);
      case Dispatch(cb, now, done) => DispatchedIsGated(c, s, cb, now, done, l);
    }
    LastStep(c, EMPTY, before + [step]);
    assert (before + [step])[..|before + [step]| - 1] == before;
    RunConcat(c, EMPTY, before + [step], after);
    GatedStays(c, made, after, LabResource, l);
    a :| R.Targets(RunFrom(c, EMPTY, before + [step] + after).approvals, a, LabResource, l);
    i := ApprovedLabWasApproved(c, before + [step] + after, l, a);
  }

  // ---------- what leases are for ----------

  /** The lease is for a secret that its lab's profile allows. */
  ghost predicate LeaseAllowed(c: Config, s: Tables, l: Lease) {
    && l.lab in s.labs
    && s.labs[l.lab].profile in c.profiles
    && l.secret in c.profiles[s.labs[l.lab].profile].allowedSecrets
  }

  ghost predicate LeasesAllowed(c: Config, s: Tables) {
    forall l :: l in s.leases ==> LeaseAllowed(c, s, s.leases[l])
  }

  /** The lease is an old one, of the same lab and secret, or was issued by this step. */
  lemma LeaseBefore(c: Config, s: Tables, step: Step, l: Id)
    requires l in Next(c, s, step).leases
    ensures var t := Next(c, s, step);
      if l in s.leases then t.leases[l].lab == s.leases[l].lab && t.leases[l].secret == s.leases[l].secret
      else step.IssueLease? && LeaseAllowed(c, s, t.leases[l])
  {
    if l in s.leases {
      LeaseStep(c, s, step, l, s.leases[l].expiresAt);
    } else if step.IssueLease? {
      LeaseAnswered(c, step.broker, s, step.lab, step.secret, step.ttlMinutes, step.lease, step.now);
      RefusedCommitsNothingHere(c, s, step);
    } else if step.RevokeLease? {
      RevocationAnswered(c, s, step.lease, step.now);
      RefusedCommitsNothingHere(c, s, step);
    } else if step.Reconcile? {
      PassLaws.LeaseAfterPass(s, step.now, step.world, c.maxDestroyAttempts, l);
    } else {
      LeaseLaws.OthersKeepLeases(c, s, step);
    }
  }

  lemma StepKeepsAllowed(c: Config, s: Tables, step: Step)
    requires LeasesAllowed(c, s)
    ensures LeasesAllowed(c, Next(c, s, step))
  {
    var t := Next(c, s, step);
    forall l | l in t.leases ensures LeaseAllowed(c, t, t.leases[l]) {
      LeaseBefore(c, s, step, l);
      StepKeepsLab(c, s, step, t.leases[l].lab);
    }
  }

  /** Over every run: every lease is for a secret that the profile of its lab allows. */
  lemma {:induction false} LeasesAlwaysAllowed(c: Config, steps: seq<Step>)
    ensures LeasesAllowed(c, RunFrom(c, EMPTY, steps))
  {
    if steps != [] {
      var n := |steps| - 1;
      LeasesAlwaysAllowed(c, steps[..n]);
      LastStep(c, EMPTY, steps);
      StepKeepsAllowed(c, RunFrom(c, EMPTY, steps[..n]), steps[n]);
    }
  }

  /** Hence no lab is ever handed a secret that its profile does not allow. */
  lemma HandsOutOnlyAllowed(c: Config, steps: seq<Step>, broker: L.Broker, lab: Id, now: Time, i: nat)
    requires var r := L.Materialize(RunFrom(c, EMPTY, steps), broker, lab, now); r.Ok? && i < |r.value|
    ensures var s := RunFrom(c, EMPTY, steps);
      && lab in s.labs && s.labs[lab].profile in c.profiles
      && L.Materialize(s, broker, lab, now).value[i].name in c.profiles[s.labs[lab].profile].allowedSecrets
  {
    var s := RunFrom(c, EMPTY, steps);
    LeasesAlwaysAllowed(c, steps);
    LeaseLaws.MaterializesExactly(s, broker, lab, now);
    var x := L.UsableIds(s.leases, lab, now)[i];
    assert x in L.UsableIds(s.leases, lab, now);
    assert LeaseAllowed(c, s, s.leases[x]);
  }

  // ---------- what jobs are for ----------

  /** The columns of a job that were asked for, and never change. */
  predicate SameRequest(a: Job, b: Job) {
    && b.action == a.action && b.requester == a.requester && b.profile == a.profile && b.lab == a.lab
    && b.command == a.command && b.scheduledFor == a.scheduledFor && b.maxAttempts == a.maxAttempts
    && b.createdAt == a.createdAt
  }

  lemma StepKeepsRequest(c: Config, s: Tables, step: Step, j: Id)
    requires JobsOk(s.jobs) && j in s.jobs
    ensures var t := Next(c, s, step); j in t.jobs && SameRequest(s.jobs[j], t.jobs[j])
  {
    if step.Enqueue? {
      JobAnswered(c, s, step.request, step.job, step.now);
      RefusedCommitsNothingHere(c, s, step);
    } else if step.Dispatch? {
      RefusedCommitsNothingHere(c, s, step);
      if Call(c, s, step).error == None { var id := DispatchRuns(c, s, step.callback, step.now, step.done); }
    } else {
      OthersKeepJobs(c, s, step);
    }
  }

  lemma {:induction false} RequestStays(c: Config, s: Tables, steps: seq<Step>, j: Id)
    requires JobsOk(s.jobs) && WithinQuota(c, s.jobs) && j in s.jobs
    ensures var t := RunFrom(c, s, steps);
      JobsOk(t.jobs) && WithinQuota(c, t.jobs) && j in t.jobs && SameRequest(s.jobs[j], t.jobs[j])
  {
    if steps != [] {
      var n := |steps| - 1;
      RequestStays(c, s, steps[..n], j);
      LastStep(c, s, steps);
      StepKeepsJobs(c, RunFrom(c, s, steps[..n]), steps[n]);
      StepKeepsRequest(c, RunFrom(c, s, steps[..n]), steps[n], j);
    }
  }

  /** A job keeps what was asked for it, the moment included, through every later step. */
  lemma JobKeepsRequest(c: Config, before: seq<Step>, r: Q.JobRequest, j: Id, now: Time, after: seq<Step>)
    requires Call(c, RunFrom(c, EMPTY, before), Step.Enqueue(r, j, now)).error == None
    ensures var t := RunFrom(c, EMPTY, before + [Step.Enqueue(r, j, now)] + after);
      && j in t.jobs
      && var row := t.jobs[j];
      && row.action == r.action && row.requester == r.requester && row.profile == r.profile && row.lab == r.lab
      && row.command == r.command && row.maxAttempts == r.maxAttempts && row.createdAt == now
      && row.scheduledFor == (match r.scheduledFor case Some(moment) => moment case None => now)
  {
    var step := Step.Enqueue(r, j, now);
    JobAnswered(c, RunFrom(c, EMPTY, before), r, j, now);
    LastStep(c, EMPTY, before + [step]);
    assert (before + [step])[..|before + [step]| - 1] == before;
    JobsAlwaysOk(c, before + [step]);
    RunConcat(c, EMPTY, before + [step], after);
    RequestStays(c, RunFrom(c, EMPTY, before + [step]), after, j);
  }

  /** What a job's row says of its dispatches and of what it made. */
  ghost predicate JobTells(s: Tables, j: Job) {
    && (j.dispatchedAt == None <==> j.attempts == 0)
    && (j.dispatchedAt != None ==> j.scheduledFor <= j.dispatchedAt.value)
    && (j.state == Succeeded ==> j.result != None && Made(s, j, j.result.value))
  }

  /** Row `x` is what the job asked for: a lab of its profile, or a run of its command in its lab. */
  ghost predicate Made(s: Tables, j: Job, x: Id) {
    match j.action
    case CreateLab => x in s.labs && j.profile == Some(s.labs[x].profile)
    case StartRun => x in s.runs && j.lab == Some(s.runs[x].lab) && j.command == Some(s.runs[x].command)
  }

  ghost predicate JobsTell(s: Tables) { forall j :: j in s.jobs ==> JobTells(s, s.jobs[j]) }

  lemma RunKeepsCommand(c: Config, s: Tables, step: Step, r: Id)
    requires r in s.runs
    ensures var t := Next(c, s, step);
      r in t.runs && t.runs[r].lab == s.runs[r].lab && t.runs[r].command == s.runs[r].command
  {
    if step.Reconcile? {
      PassLaws.RunAfterPass(s, step.now, step.world, c.maxDestroyAttempts, r);
    } else {
      OthersKeepRuns(c, s, step, r);
    }
  }

  lemma StillMade(c: Config, s: Tables, step: Step, j: Job, x: Id)
    requires Made(s, j, x)
    ensures Made(Next(c, s, step), j, x)
  {
    match j.action
    case CreateLab => StepKeepsLab(c, s, step, x);
    case StartRun => RunKeepsCommand(c, s, step, x);
  }

  lemma DispatchMakes(c: Config, s: Tables, cb: Q.Callback, now: Time, done: Time)
    requires ValidRegistry(c.profiles) && JobsOk(s.jobs) && JobsTell(s)
    ensures JobsTell(Next(c, s, Step.Dispatch(cb, now, done)))
  {
    var step := Step.Dispatch(cb, now, done);
    var t := Next(c, s, step);
    RefusedCommitsNothingHere(c, s, step);
    if Call(c, s, step).error == None {
      var id := DispatchRuns(c, s, cb, now, done);
      forall j | j in t.jobs ensures JobTells(t, t.jobs[j]) {
        if j == id {
          MadeByDispatch(c, s, s.jobs[id], cb, now);
          assert JobTells(s, s.jobs[id]);
        } else {
          assert JobTells(s, s.jobs[j]);
          if s.jobs[j].state == Succeeded { StillMade(c, s, step, s.jobs[j], s.jobs[j].result.value); }
        }
      }
    }
  }

  /** What a job asks for, made directly, is what it asks for. */
  lemma MadeByDispatch(c: Config, s: Tables, j: Job, cb: Q.Callback, now: Time)
    requires ValidRegistry(c.profiles) && JobOk(j)
    ensures var direct := Call(c, s, Asked(j, cb, now));
      direct.error == None ==>
        Made(direct.rows, j, if j.action == JobAction.CreateLab then cb.draft.labId else cb.runId)
  {
    match j.action
    case CreateLab =>
      if Call(c, s, Asked(j, cb, now)).error == None {
        LabCreated(c, s, j.profile.value, Requester.Scheduler, cb.draft, now);
      }
    case StartRun => RunCreated(c, s, j.lab.value, j.command.value, cb.runId, now);
  }

  lemma OthersKeepTelling(c: Config, s: Tables, step: Step)
    requires JobsTell(s) && !step.Dispatch?
    ensures JobsTell(Next(c, s, step))
  {
    var t := Next(c, s, step);
    if step.Enqueue? {
      JobAnswered(c, s, step.request, step.job, step.now);
      RefusedCommitsNothingHere(c, s, step);
    } else {
      OthersKeepJobs(c, s, step);
    }
    forall j | j in t.jobs ensures JobTells(t, t.jobs[j]) {
      if j in s.jobs && t.jobs[j] == s.jobs[j] {
        assert JobTells(s, s.jobs[j]);
        if s.jobs[j].state == Succeeded { StillMade(c, s, step, s.jobs[j], s.jobs[j].result.value); }
      }
    }
  }

  /**
   * Over every run: no job is ever dispatched before the moment it was asked for, and what a SUCCEEDED job names is
   * there and is what was asked: a lab of its profile, or a run of its command in its lab.
   */
  lemma {:induction false} JobsDoAsAsked(c: Config, steps: seq<Step>)
    requires ValidRegistry(c.profiles)
    ensures JobsTell(RunFrom(c, EMPTY, steps))
  {
    if steps != [] {
      var n := |steps| - 1;
      JobsDoAsAsked(c, steps[..n]);
      JobsAlwaysOk(c, steps[..n]);
      LastStep(c, EMPTY, steps);
      var s, step := RunFrom(c, EMPTY, steps[..n]), steps[n];
      if step.Dispatch? { DispatchMakes(c, s, step.callback, step.now, step.done); }
      else { OthersKeepTelling(c, s, step); }
    }
  }
}
