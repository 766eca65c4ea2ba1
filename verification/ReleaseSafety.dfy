/** What the joint invariant gives over whole runs: gated releases, final states, decided-once approvals. */
module ReleaseSafety {
  import opened Basics
  import opened Schema
  import opened Policy
  import opened Governance
  import opened ControlPlane
  import opened GovernanceLaws
  import opened ReconcilerLaws
  import R = Reconciler
  import Q = Scheduler

  // ---------- approvals are decided at most once ----------

  /** The approval transition table. */
  predicate CanTransition(from: ApprovalState, to: ApprovalState) {
    from.Requested? && (to.Approved? || to.Rejected? || to.Expired?)
  }

  /** This step approves `a`, before it expires. */
  predicate ApprovesInTime(step: Step, a: Id, row: Approval) {
    && step.Decide?
    && step.approval == a
    && step.decision.Approve?
    && (row.expiresAt != None ==> step.now < row.expiresAt.value)
  }

  /** An approval row keeps its subject and expiry, and its other columns move only along the table. */
  predicate RowRefines(a: Approval, b: Approval) {
    && SameSubject(a, b)
    && b.expiresAt == a.expiresAt
    && (b == a || CanTransition(a.state, b.state))
  }

  /** What one step does to the approval table; new rows are pending. */
  ghost predicate ApprovalsRefine(s: Tables, t: Tables, step: Step) {
    && (forall a :: a in s.approvals ==> a in t.approvals && RowRefines(s.approvals[a], t.approvals[a]))
    && (forall a :: a in t.approvals && a !in s.approvals ==> t.approvals[a].state.Requested?)
    && (forall a :: a in s.approvals && t.approvals[a].state.Approved? && !s.approvals[a].state.Approved? ==>
          ApprovesInTime(step, a, s.approvals[a]))
  }

  /** Approval rows are kept as they are; new ones are pending requests about new rows. */
  ghost predicate PendingAdded(s: Tables, t: Tables) {
    && (forall a :: a in s.approvals ==> a in t.approvals && t.approvals[a] == s.approvals[a])
    && NewOnesRequested(s, t)
  }

  /** A pending request about a row that is being created with it. */
  ghost predicate NewRequest(s: Tables, a: Approval) {
    && a.state.Requested?
    && ((a.resourceType.LabResource? && a.resource !in s.labs)
        || (a.resourceType.ExportResource? && a.resource !in s.exports))
  }

  ghost predicate NewOnesRequested(s: Tables, t: Tables) {
    forall a :: a in t.approvals && a !in s.approvals ==> NewRequest(s, t.approvals[a])
  }

  lemma AddLabApprovals(c: Config, s: Tables, profile: string, requester: Requester, d: LabDraft, now: Time)
    ensures PendingAdded(s, AddLab(c, s, profile, requester, d, now).rows)
  {
  }

  lemma StageApprovals(c: Config, s: Tables, lab: Id, source: string, run: Option<Id>, d: ExportDraft, now: Time)
    ensures PendingAdded(s, CreateExport(c, s, lab, source, run, d, now).rows)
  {
    if CreateExport(c, s, lab, source, run, d, now).error.None? {
      StageExportAdds(c, s, lab, source, run, d, now);
    }
  }

  lemma DispatchApprovals(c: Config, s: Tables, cb: Q.Callback, now: Time, done: Time)
    ensures PendingAdded(s, Q.Dispatch(c, s, cb, now, done).rows)
  {
    var q := Q.DueQuery(s.jobs, now);
    if q != [] {
      Q.DueQueryMembers(s.jobs, now);
      RunJobRows(c, s, q[0], cb, now, done);
      var j := s.jobs[q[0]];
      if j.action.CreateLab? && j.profile.Some? {
        AddLabApprovals(c, s.(jobs := s.jobs[q[0] := Q.Started(j, now)]), j.profile.value, Requester.Scheduler,
                        cb.draft, now);
      }
    }
  }

  /** The steps that never touch a stored approval. */
  predicate LeavesApprovals(step: Step) { !step.Decide? && !step.Reconcile? }

  lemma OthersAddPending(c: Config, s: Tables, step: Step)
    requires LeavesApprovals(step)
    ensures PendingAdded(s, Next(c, s, step))
  {
    match step
    case CreateLab(profile, requester, draft, now) => AddLabApprovals(c, s, profile, requester, draft, now);
    case StageExport(lab, source, run, draft, now) => StageApprovals(c, s, lab, source, run, draft, now);
    case Dispatch(cb, now, done) => DispatchApprovals(c, s, cb, now, done);
    case _ =>
      RestLeaveApprovals(c, s, step);
      SameApprovalsAddNothing(s, Next(c, s, step));
  }

  lemma RestLeaveApprovals(c: Config, s: Tables, step: Step)
    requires LeavesApprovals(step) && !step.CreateLab? && !step.StageExport? && !step.Dispatch?
    ensures Next(c, s, step).approvals == s.approvals
  {
    StepFramed(c, s, step);
  }

  lemma SameApprovalsAddNothing(s: Tables, t: Tables)
    requires t.approvals == s.approvals
    ensures PendingAdded(s, t)
  {
  }

  lemma ReconcileApprovals(s: Tables, now: Time, w: R.World, max: int)
    ensures R.Reconcile(s, now, w, max).approvals
         == R.ExpireApprovals(s.approvals, R.StaleIds(s.approvals, now), now)
  {
  }

  lemma DecideRefines(s: Tables, a: Id, d: Decision, actor: string, comment: Option<string>, now: Time)
    ensures var t := Governance.Decide(s, a, d, actor, comment, now).rows;
      ApprovalsRefine(s, t, Decide(a, d, actor, comment, now)) && NewOnesRequested(s, t)
  {
    if DecisionError(s, a, d, comment, now).None? {
      var t := Governance.Decide(s, a, d, actor, comment, now).rows;
      var row := Decided(s.approvals[a], d, actor, comment, now);
      assert t.approvals == s.approvals[a := row] && RowRefines(s.approvals[a], row);
      OneRowRefines(s, t, a, row, Decide(a, d, actor, comment, now));
    }
  }

  lemma OneRowRefines(s: Tables, t: Tables, a: Id, row: Approval, step: Step)
    requires a in s.approvals && t.approvals == s.approvals[a := row] && RowRefines(s.approvals[a], row)
    requires row.state.Approved? ==> ApprovesInTime(step, a, s.approvals[a])
    ensures ApprovalsRefine(s, t, step) && NewOnesRequested(s, t)
  {
  }

  lemma ReconcileRefines(s: Tables, now: Time, w: R.World, max: int)
    ensures var t := R.Reconcile(s, now, w, max);
      ApprovalsRefine(s, t, Step.Reconcile(now, w)) && NewOnesRequested(s, t)
  {
    ReconcileApprovals(s, now, w, max);
    var t, ids := R.Reconcile(s, now, w, max), R.StaleIds(s.approvals, now);
    forall a | a in s.approvals ensures RowRefines(s.approvals[a], t.approvals[a]) {
      assert t.approvals[a] == if a in ids then R.ExpiredApproval(s.approvals[a], now) else s.approvals[a];
    }
  }

  lemma PendingAddedRefines(s: Tables, t: Tables, step: Step)
    requires PendingAdded(s, t)
    ensures ApprovalsRefine(s, t, step)
  {
  }

  lemma StepRefinesApprovals(c: Config, s: Tables, step: Step)
    ensures ApprovalsRefine(s, Next(c, s, step), step) && NewOnesRequested(s, Next(c, s, step))
  {
    match step
    case Decide(a, d, actor, comment, now) => DecideRefines(s, a, d, actor, comment, now);
    case Reconcile(now, w) => ReconcileRefines(s, now, w, c.maxDestroyAttempts);
    case _ => OthersRefine(c, s, step);
  }

  lemma OthersRefine(c: Config, s: Tables, step: Step)
    requires LeavesApprovals(step)
    ensures ApprovalsRefine(s, Next(c, s, step), step) && NewOnesRequested(s, Next(c, s, step))
  {
    OthersAddPending(c, s, step);
    PendingAddedRefines(s, Next(c, s, step), step);
  }

  /** Step `i` of this run took `a` from pending to approved, before `row` expired. */
  ghost predicate ApprovedAt(c: Config, steps: seq<Step>, i: nat, a: Id, row: Approval) {
    && i < |steps|
    && ApprovesInTime(steps[i], a, row)
    && var s, t := RunFrom(c, EMPTY, steps[..i]), RunFrom(c, EMPTY, steps[..i + 1]);
    && a in s.approvals && s.approvals[a].state.Requested?
    && a in t.approvals && t.approvals[a].state.Approved?
  }

  /** An approval is APPROVED only because one step of the run made it so, in time. */
  lemma {:induction false} ApprovedMeansApproved(c: Config, steps: seq<Step>, a: Id) returns (i: nat)
    requires var s := RunFrom(c, EMPTY, steps); a in s.approvals && s.approvals[a].state.Approved?
    ensures ApprovedAt(c, steps, i, a, RunFrom(c, EMPTY, steps).approvals[a])
  {
    var n := |steps| - 1;
    var s, step := RunFrom(c, EMPTY, steps[..n]), steps[n];
    StepRefinesApprovals(c, s, step);
    assert a in s.approvals && RowRefines(s.approvals[a], RunFrom(c, EMPTY, steps).approvals[a]);
    if s.approvals[a].state.Approved? {
      i := ApprovedMeansApproved(c, steps[..n], a);
      assert steps[..n][..i] == steps[..i] && steps[..n][..i + 1] == steps[..i + 1];
    } else {
      i := n;
      assert steps[..n + 1] == steps;
    }
  }

  // ---------- what may be decided, and when ----------

  /** The API can decide a pending approval exactly when a reconciliation at that moment would not expire it. */
  lemma DecidableIffNotStale(c: Config, s: Tables, a: Id, d: Decision, comment: Option<string>, now: Time)
    requires Inv(c, s) && a in s.approvals && s.approvals[a].state.Requested?
    requires d.Deny? ==> comment.Some? && !Blank(comment.value)
    ensures DecisionError(s, a, d, comment, now).None? <==> StillOpen(s.approvals[a], now)
    ensures R.Expire(s, now).approvals[a].state.Expired? <==> !StillOpen(s.approvals[a], now)
    ensures StillOpen(s.approvals[a], now) ==> R.Expire(s, now).approvals[a] == s.approvals[a]
  {
    assert ApprovalOk(s, s.approvals[a]);
  }

  /** A decided approval can never be decided again, by anyone, at any time, and no pass expires it. */
  lemma DecidedOnce(s: Tables, a: Id, d: Decision, actor: string, comment: Option<string>, now: Time)
    requires a in s.approvals && !s.approvals[a].state.Requested?
    ensures Governance.Decide(s, a, d, actor, comment, now) == Refused(s, ApprovalNotPending)
    ensures R.Expire(s, now).approvals[a] == s.approvals[a]
  {
  }

  // ---------- gated releases ----------

  /** An export staged as needing approval gets its approval row in the same step, and only then. */
  lemma StagedIsGated(c: Config, s: Tables, lab: Id, source: string, run: Option<Id>, d: ExportDraft, now: Time)
    requires Inv(c, s) && CreateExport(c, s, lab, source, run, d, now).error.None?
    ensures var t := CreateExport(c, s, lab, source, run, d, now).rows;
      && d.exportId in t.exports
      && (t.exports[d.exportId].approvalRequired <==> Gated(t, ExportResource, d.exportId))
  {
    StageExportAdds(c, s, lab, source, run, d, now);
    var t := CreateExport(c, s, lab, source, run, d, now).rows;
    var x := t.exports[d.exportId];
    UnbornIsUngated(s, ExportResource, d.exportId);
    GatedGrows(s, t, x.approvalRequired, d.approvalId, PendingRequest(lab, ExportResource, d.exportId, now),
               ExportResource, d.exportId);
  }

  /** Over all interleavings: a gated export is released only after its own request was approved in time. */
  lemma ReleasedWasApproved(c: Config, steps: seq<Step>, e: Id) returns (a: Id, i: nat)
    requires ValidRegistry(c.profiles)
    requires var s := RunFrom(c, EMPTY, steps);
      e in s.exports && s.exports[e].state.Released? && Gated(s, ExportResource, e)
    ensures var s := RunFrom(c, EMPTY, steps);
      && R.Targets(s.approvals, a, ExportResource, e)
      && s.approvals[a].state.Approved?
      && ApprovedAt(c, steps, i, a, s.approvals[a])
  {
    var s := RunFrom(c, EMPTY, steps);
    RunKeeps(c, EMPTY, steps);
    a :| R.Targets(s.approvals, a, ExportResource, e);
    assert ApprovalOk(s, s.approvals[a]) && Agrees(s, s.approvals[a]);
    i := ApprovedMeansApproved(c, steps, a);
  }

  lemma GatedStep(c: Config, s: Tables, step: Step, kind: ResourceType, r: Id)
    requires Gated(s, kind, r)
    ensures Gated(Next(c, s, step), kind, r)
  {
    StepRefinesApprovals(c, s, step);
    var a :| R.Targets(s.approvals, a, kind, r);
    assert RowRefines(s.approvals[a], Next(c, s, step).approvals[a]);
    assert R.Targets(Next(c, s, step).approvals, a, kind, r);
  }

  lemma {:induction false} GatedStays(c: Config, s: Tables, steps: seq<Step>, kind: ResourceType, r: Id)
    requires Gated(s, kind, r)
    ensures Gated(RunFrom(c, s, steps), kind, r)
  {
    if steps != [] {
      var n := |steps| - 1;
      GatedStays(c, s, steps[..n], kind, r);
      GatedStep(c, RunFrom(c, s, steps[..n]), steps[n], kind, r);
    }
  }

  /** The run `before`, then the step, leaves export `e` staged and in need of approval. */
  ghost predicate StagedForApproval(c: Config, before: seq<Step>, step: Step, e: Id) {
    var s := RunFrom(c, EMPTY, before);
    && step.StageExport? && step.exportDraft.exportId == e && Call(c, s, step).error.None?
    && var t := Next(c, s, step); e in t.exports && t.exports[e].approvalRequired
  }

  lemma StagedGated(c: Config, before: seq<Step>, step: Step, e: Id)
    requires ValidRegistry(c.profiles) && StagedForApproval(c, before, step, e)
    ensures Gated(Next(c, RunFrom(c, EMPTY, before), step), ExportResource, e)
  {
    RunKeeps(c, EMPTY, before);
    StagedIsGated(c, RunFrom(c, EMPTY, before), step.lab, step.source, step.forRun, step.exportDraft, step.now);
  }

  /** Staged with approval required, then released after any further steps: its request was approved in time. */
  lemma StagedForApprovalNeedsIt(c: Config, before: seq<Step>, step: Step, after: seq<Step>, e: Id)
    returns (a: Id, i: nat)
    requires ValidRegistry(c.profiles) && StagedForApproval(c, before, step, e)
    requires var s := RunFrom(c, EMPTY, before + [step] + after); e in s.exports && s.exports[e].state.Released?
    ensures var s := RunFrom(c, EMPTY, before + [step] + after);
      && R.Targets(s.approvals, a, ExportResource, e)
      && s.approvals[a].state.Approved?
      && ApprovedAt(c, before + [step] + after, i, a, s.approvals[a])
  {
    var start := before + [step];
    assert start[..|start| - 1] == before;
    StagedGated(c, before, step, e);
    RunConcat(c, EMPTY, start, after);
    GatedStays(c, RunFrom(c, EMPTY, start), after, ExportResource, e);
    a, i := ReleasedWasApproved(c, start + after, e);
  }

  /** Hence no export of a high-risk or critical profile is ever released without an approval given in time. */
  lemma HighRiskReleasedWasApproved(c: Config, steps: seq<Step>, e: Id) returns (a: Id, i: nat)
    requires ValidRegistry(c.profiles)
    requires var s := RunFrom(c, EMPTY, steps);
      && e in s.exports && s.exports[e].state.Released?
      && s.exports[e].lab in s.labs && s.labs[s.exports[e].lab].profile in c.profiles
      && c.profiles[s.labs[s.exports[e].lab].profile].risk in {RiskClass.High, RiskClass.Critical}
    ensures var s := RunFrom(c, EMPTY, steps);
      && R.Targets(s.approvals, a, ExportResource, e)
      && s.approvals[a].state.Approved?
      && ApprovedAt(c, steps, i, a, s.approvals[a])
  {
    RunKeeps(c, EMPTY, steps);
    assert ExportOk(c, RunFrom(c, EMPTY, steps), e);
    a, i := ReleasedWasApproved(c, steps, e);
  }

  // ---------- final states ----------

  /** An approval about this resource is still waiting for a decision. */
  ghost predicate Awaited(s: Tables, kind: ResourceType, r: Id) {
    exists a :: R.Targets(s.approvals, a, kind, r) && s.approvals[a].state.Requested?
  }

  /** Its expiry, if it has one, is still to come. */
  predicate StillOpen(a: Approval, now: Time) { a.expiresAt != None ==> now < a.expiresAt.value }

  /** An approval about this resource is pending and has not expired at `now`. */
  ghost predicate Decidable(s: Tables, kind: ResourceType, r: Id, now: Time) {
    exists a :: R.Targets(s.approvals, a, kind, r) && s.approvals[a].state.Requested? && StillOpen(s.approvals[a], now)
  }

  /** Requests keep their expiry and new ones are about new rows, so nothing becomes decidable. */
  lemma StillUndecidable(c: Config, s: Tables, step: Step, kind: ResourceType, r: Id, now: Time)
    requires !Decidable(s, kind, r, now)
    requires (kind.LabResource? && r in s.labs) || (kind.ExportResource? && r in s.exports)
    ensures !Decidable(Next(c, s, step), kind, r, now)
  {
    var t := Next(c, s, step);
    StepRefinesApprovals(c, s, step);
    forall a | R.Targets(t.approvals, a, kind, r)
      ensures !t.approvals[a].state.Requested? || Overdue(t.approvals[a], now)
    {
      if a in s.approvals {
        assert RowRefines(s.approvals[a], t.approvals[a]);
        assert R.Targets(s.approvals, a, kind, r);
      }
    }
  }

  /** A released or rejected export about which no decision is outstanding. */
  ghost predicate SettledExport(s: Tables, e: Id) {
    && e in s.exports
    && (s.exports[e].state.Released? || s.exports[e].state.Rejected?)
    && !Awaited(s, ExportResource, e)
  }

  lemma ReleasedIsSettled(c: Config, s: Tables, e: Id)
    requires Inv(c, s) && e in s.exports && s.exports[e].state.Released?
    ensures SettledExport(s, e)
  {
    forall a | R.Targets(s.approvals, a, ExportResource, e) ensures !s.approvals[a].state.Requested? {
      assert ApprovalOk(s, s.approvals[a]) && Agrees(s, s.approvals[a]);
    }
  }

  /** New requests are about new rows, so nothing that is not awaited becomes awaited. */
  lemma StillNotAwaited(c: Config, s: Tables, step: Step, kind: ResourceType, r: Id)
    requires !Awaited(s, kind, r)
    requires (kind.LabResource? && r in s.labs) || (kind.ExportResource? && r in s.exports)
    ensures !Awaited(Next(c, s, step), kind, r)
  {
    var t := Next(c, s, step);
    StepRefinesApprovals(c, s, step);
    forall a | R.Targets(t.approvals, a, kind, r) ensures !t.approvals[a].state.Requested? {
      if a in s.approvals {
        assert RowRefines(s.approvals[a], t.approvals[a]);
        assert R.Targets(s.approvals, a, kind, r);
      }
    }
  }

  /** Every export row is kept as it is. */
  ghost predicate ExportsKept(s: Tables, t: Tables) {
    forall e :: e in s.exports ==> e in t.exports && t.exports[e] == s.exports[e]
  }

  lemma StageKeepsExports(c: Config, s: Tables, lab: Id, source: string, run: Option<Id>, d: ExportDraft, now: Time)
    ensures ExportsKept(s, CreateExport(c, s, lab, source, run, d, now).rows)
  {
    if CreateExport(c, s, lab, source, run, d, now).error.None? {
      StageExportAdds(c, s, lab, source, run, d, now);
    }
  }

  predicate TouchesExports(step: Step) {
    step.Decide? || step.Reconcile? || step.ReleaseExport? || step.DenyExport?
  }

  lemma OthersKeepExports(c: Config, s: Tables, step: Step)
    requires !TouchesExports(step)
    ensures ExportsKept(s, Next(c, s, step))
  {
    if step.StageExport? {
      StageKeepsExports(c, s, step.lab, step.source, step.forRun, step.exportDraft, step.now);
    } else {
      StepFramed(c, s, step);
    }
  }

  lemma DecideKeepsSettled(
    s: Tables, a: Id, d: Decision, actor: string, comment: Option<string>, now: Time, e: Id)
    requires SettledExport(s, e)
    ensures var t := Governance.Decide(s, a, d, actor, comment, now).rows;
      e in t.exports && t.exports[e] == s.exports[e]
  {
    if DecisionError(s, a, d, comment, now).None? {
      assert R.Targets(s.approvals, a, s.approvals[a].resourceType, s.approvals[a].resource);
    }
  }

  lemma ReconcileKeepsSettled(s: Tables, now: Time, w: R.World, max: int, e: Id)
    requires SettledExport(s, e)
    ensures var t := R.Reconcile(s, now, w, max); e in t.exports && t.exports[e] == s.exports[e]
  {
    var ids := R.StaleIds(s.approvals, now);
    assert R.Reconcile(s, now, w, max).exports == R.ExpireExports(s, ids);
    forall a | a in ids ensures !R.Targets(s.approvals, a, ExportResource, e) {}
  }

  lemma ReleaseKeepsSettled(s: Tables, x: Id, present: bool, e: Id)
    requires SettledExport(s, e)
    ensures var t := Governance.ReleaseExport(s, x, present).rows; e in t.exports && t.exports[e] == s.exports[e]
  {
  }

  lemma DenyKeepsSettled(s: Tables, x: Id, reason: string, e: Id)
    requires SettledExport(s, e)
    ensures var t := Governance.DenyExport(s, x, reason).rows; e in t.exports && t.exports[e] == s.exports[e]
  {
  }

  lemma SettledExportStep(c: Config, s: Tables, step: Step, e: Id)
    requires SettledExport(s, e)
    ensures var t := Next(c, s, step); SettledExport(t, e) && t.exports[e] == s.exports[e]
  {
    StillNotAwaited(c, s, step, ExportResource, e);
    match step
    case Decide(a, d, actor, comment, now) => DecideKeepsSettled(s, a, d, actor, comment, now, e);
    case Reconcile(now, w) => ReconcileKeepsSettled(s, now, w, c.maxDestroyAttempts, e);
    case ReleaseExport(x, present) => ReleaseKeepsSettled(s, x, present, e);
    case DenyExport(x, reason) => DenyKeepsSettled(s, x, reason, e);
    case _ => OthersKeepExports(c, s, step);
  }

  lemma {:induction false} SettledExportStays(c: Config, s: Tables, steps: seq<Step>, e: Id)
    requires SettledExport(s, e)
    ensures var t := RunFrom(c, s, steps); SettledExport(t, e) && t.exports[e] == s.exports[e]
  {
    if steps != [] {
      var n := |steps| - 1;
      SettledExportStays(c, s, steps[..n], e);
      SettledExportStep(c, RunFrom(c, s, steps[..n]), steps[n], e);
    }
  }

  /** RELEASED is final: no further run of any steps changes anything in a released export's row. */
  lemma ReleasedIsFinal(c: Config, s: Tables, steps: seq<Step>, e: Id)
    requires Inv(c, s) && e in s.exports && s.exports[e].state.Released?
    ensures e in RunFrom(c, s, steps).exports && RunFrom(c, s, steps).exports[e] == s.exports[e]
  {
    ReleasedIsSettled(c, s, e);
    SettledExportStays(c, s, steps, e);
  }

  /** No run from `now` on, of any length, changes this export's row. */
  ghost predicate UnchangedFrom(c: Config, s: Tables, now: Time, e: Id)
    requires e in s.exports
  {
    forall steps :: Timed(steps, now) ==>
      var t := RunFrom(c, s, steps); e in t.exports && t.exports[e] == s.exports[e]
  }

  /** No run from `now` on, of any length, takes this export out of REJECTED. */
  ghost predicate RejectedFrom(c: Config, s: Tables, now: Time, e: Id) {
    forall steps :: Timed(steps, now) ==>
      var t := RunFrom(c, s, steps); e in t.exports && t.exports[e].state.Rejected?
  }

  /** From `now` on a rejected export's row stays as it is exactly when no request about it is pending at all. */
  lemma RejectedRowIsFinalIff(c: Config, s: Tables, now: Time, e: Id)
    requires Inv(c, s) && e in s.exports && s.exports[e].state.Rejected?
    ensures UnchangedFrom(c, s, now, e) <==> !Awaited(s, ExportResource, e)
  {
    if !Awaited(s, ExportResource, e) {
      forall steps ensures e in RunFrom(c, s, steps).exports && RunFrom(c, s, steps).exports[e] == s.exports[e] {
        SettledExportStays(c, s, steps, e);
      }
    } else {
      var a :| R.Targets(s.approvals, a, ExportResource, e) && s.approvals[a].state.Requested?;
      assert ApprovalOk(s, s.approvals[a]) && Agrees(s, s.approvals[a]);
      PendingCanChange(c, s, now, a);
    }
  }

  lemma PendingCanChange(c: Config, s: Tables, now: Time, a: Id)
    requires a in s.approvals && s.approvals[a].state.Requested? && s.approvals[a].expiresAt.Some?
    requires s.approvals[a].resourceType.ExportResource? && s.approvals[a].resource in s.exports
    requires var x := s.exports[s.approvals[a].resource]; x.approvalRequired && x.state.Rejected?
    ensures !UnchangedFrom(c, s, now, s.approvals[a].resource)
  {
    if Overdue(s.approvals[a], now) {
      ExpiryRewrites(c, s, a, now);
    } else {
      ApprovalRevives(c, s, a, "operator", None, now);
    }
  }

  /** From `now` on a rejected export stays REJECTED exactly when no request about it can still be decided. */
  lemma RejectedIsFinalIff(c: Config, s: Tables, now: Time, e: Id)
    requires e in s.exports && s.exports[e].state.Rejected?
    ensures RejectedFrom(c, s, now, e) <==> !Decidable(s, ExportResource, e, now)
  {
    if !Decidable(s, ExportResource, e, now) {
      forall steps | Timed(steps, now)
        ensures e in RunFrom(c, s, steps).exports && RunFrom(c, s, steps).exports[e].state.Rejected?
      {
        RejectedStays(c, s, steps, now, e);
      }
    } else {
      var a :| R.Targets(s.approvals, a, ExportResource, e) && s.approvals[a].state.Requested?
               && StillOpen(s.approvals[a], now);
      ApprovalRevives(c, s, a, "operator", None, now);
    }
  }

  /** A rejected export that no decision from `now` on can reach. */
  ghost predicate LeftRejected(s: Tables, now: Time, e: Id) {
    e in s.exports && s.exports[e].state.Rejected? && !Decidable(s, ExportResource, e, now)
  }

  lemma DecideLeavesRejected(
    s: Tables, a: Id, d: Decision, actor: string, comment: Option<string>, at: Time, now: Time, e: Id)
    requires LeftRejected(s, now, e) && now <= at
    ensures var t := Governance.Decide(s, a, d, actor, comment, at).rows;
      e in t.exports && t.exports[e].state.Rejected?
  {
    if DecisionError(s, a, d, comment, at).None? {
      assert R.Targets(s.approvals, a, s.approvals[a].resourceType, s.approvals[a].resource);
    }
  }

  lemma PassLeavesRejected(s: Tables, at: Time, w: R.World, max: int, e: Id)
    requires e in s.exports && s.exports[e].state.Rejected?
    ensures var t := R.Reconcile(s, at, w, max); e in t.exports && t.exports[e].state.Rejected?
  {
    PassRows(s, at, w, max);
  }

  lemma GateLeavesRejected(s: Tables, x: Id, present: bool, reason: string, e: Id)
    requires e in s.exports && s.exports[e].state.Rejected?
    ensures var t := Governance.ReleaseExport(s, x, present).rows; e in t.exports && t.exports[e].state.Rejected?
    ensures var t := Governance.DenyExport(s, x, reason).rows; e in t.exports && t.exports[e].state.Rejected?
  {
  }

  lemma RejectedStep(c: Config, s: Tables, step: Step, now: Time, e: Id)
    requires LeftRejected(s, now, e) && NotBefore(step, now)
    ensures LeftRejected(Next(c, s, step), now, e)
  {
    StillUndecidable(c, s, step, ExportResource, e, now);
    match step
    case Decide(a, d, actor, comment, at) => DecideLeavesRejected(s, a, d, actor, comment, at, now, e);
    case Reconcile(at, w) => PassLeavesRejected(s, at, w, c.maxDestroyAttempts, e);
    case ReleaseExport(x, present) => GateLeavesRejected(s, x, present, "", e);
    case DenyExport(x, reason) => GateLeavesRejected(s, x, false, reason, e);
    case _ => OthersKeepExports(c, s, step);
  }

  lemma {:induction false} RejectedStays(c: Config, s: Tables, steps: seq<Step>, now: Time, e: Id)
    requires LeftRejected(s, now, e) && forall i :: 0 <= i < |steps| ==> NotBefore(steps[i], now)
    ensures LeftRejected(RunFrom(c, s, steps), now, e)
  {
    if steps != [] {
      var n := |steps| - 1;
      RejectedStays(c, s, steps[..n], now, e);
      RejectedStep(c, RunFrom(c, s, steps[..n]), steps[n], now, e);
    }
  }

  /** A pass rewrites the row of an export whose request is overdue, rejected or not. */
  lemma ExpiryRewrites(c: Config, s: Tables, a: Id, now: Time)
    requires a in s.approvals && R.Stale(s.approvals[a], now)
    requires s.approvals[a].resourceType.ExportResource? && s.approvals[a].resource in s.exports
    requires s.exports[s.approvals[a].resource].approvalRequired
    ensures var e, step := s.approvals[a].resource, Step.Reconcile(now, R.World(None, {}, None));
      var t := RunFrom(c, s, [step]);
      Timed([step], now) && e in t.exports && !t.exports[e].approvalRequired
  {
    var step := Step.Reconcile(now, R.World(None, {}, None));
    assert [step][..0] == [] && RunFrom(c, s, []) == s;
    assert RunFrom(c, s, [step]) == R.Reconcile(s, now, R.World(None, {}, None), c.maxDestroyAttempts);
    PassRows(s, now, R.World(None, {}, None), c.maxDestroyAttempts);
    assert R.Targets(s.approvals, a, ExportResource, s.approvals[a].resource);
  }

  /** Approving a pending request in time moves the export it is about to APPROVED, whatever it was. */
  lemma ApprovalRevives(c: Config, s: Tables, a: Id, actor: string, comment: Option<string>, now: Time)
    requires a in s.approvals && s.approvals[a].state.Requested? && StillOpen(s.approvals[a], now)
    requires s.approvals[a].resourceType.ExportResource? && s.approvals[a].resource in s.exports
    ensures var e := s.approvals[a].resource;
      var t := RunFrom(c, s, [Decide(a, Approve, actor, comment, now)]);
      && Timed([Decide(a, Approve, actor, comment, now)], now)
      && e in t.exports && t.exports[e].state.Approved? && t.exports[e].denialReason.None?
  {
    var step := Decide(a, Approve, actor, comment, now);
    assert [step][..0] == [] && RunFrom(c, s, []) == s;
    assert RunFrom(c, s, [step]) == Governance.Decide(s, a, Approve, actor, comment, now).rows;
  }

  // ---------- labs ----------

  /** A lab waiting for approval has one approval row, and it is pending. */
  lemma PendingLabHasOneRequest(c: Config, s: Tables, l: Id) returns (a: Id)
    requires Inv(c, s) && l in s.labs && s.labs[l].state.PendingApproval?
    ensures R.Targets(s.approvals, a, LabResource, l) && s.approvals[a].state.Requested?
    ensures forall b :: R.Targets(s.approvals, b, LabResource, l) ==> b == a
  {
    assert LabOk(c, s, l);
    a :| R.Targets(s.approvals, a, LabResource, l);
    assert ApprovalOk(s, s.approvals[a]) && Agrees(s, s.approvals[a]);
    forall b | R.Targets(s.approvals, b, LabResource, l) ensures b == a {
      assert SameSubject(s.approvals[a], s.approvals[b]);
    }
  }

  /** A lab whose creation needed approval is approved only if its request was, in time. */
  lemma ApprovedLabWasApproved(c: Config, steps: seq<Step>, l: Id, a: Id) returns (i: nat)
    requires ValidRegistry(c.profiles)
    requires var s := RunFrom(c, EMPTY, steps);
      l in s.labs && s.labs[l].state.Approved? && R.Targets(s.approvals, a, LabResource, l)
    ensures var s := RunFrom(c, EMPTY, steps);
      s.approvals[a].state.Approved? && ApprovedAt(c, steps, i, a, s.approvals[a])
  {
    var s := RunFrom(c, EMPTY, steps);
    RunKeeps(c, EMPTY, steps);
    assert ApprovalOk(s, s.approvals[a]) && Agrees(s, s.approvals[a]);
    i := ApprovedMeansApproved(c, steps, a);
  }

  /** After a pass at `now`, no lab is left waiting on a request that had expired by then. */
  lemma NoLabWaitsOnAStaleRequest(c: Config, s: Tables, now: Time, w: R.World, l: Id, a: Id)
    requires Inv(c, s)
    requires var t := R.Reconcile(s, now, w, c.maxDestroyAttempts);
      l in t.labs && t.labs[l].state.PendingApproval? && R.Targets(t.approvals, a, LabResource, l)
    ensures var t := R.Reconcile(s, now, w, c.maxDestroyAttempts);
      t.approvals[a].state.Requested? && StillOpen(t.approvals[a], now)
  {
    var t := R.Reconcile(s, now, w, c.maxDestroyAttempts);
    ReconcileKeeps(c, s, now, w);
    assert ApprovalOk(t, t.approvals[a]) && Agrees(t, t.approvals[a]);
    ReconcileApprovals(s, now, w, c.maxDestroyAttempts);
  }

  /** A destroyed lab that no decision from `now` on can reach. */
  ghost predicate LeftDestroyed(s: Tables, now: Time, l: Id) {
    l in s.labs && s.labs[l].state.Destroyed? && !Decidable(s, LabResource, l, now)
  }

  lemma DecideLeavesDestroyed(
    s: Tables, a: Id, d: Decision, actor: string, comment: Option<string>, at: Time, now: Time, l: Id)
    requires LeftDestroyed(s, now, l) && now <= at
    ensures var t := Governance.Decide(s, a, d, actor, comment, at).rows;
      l in t.labs && t.labs[l] == s.labs[l]
  {
    if DecisionError(s, a, d, comment, at).None? {
      assert R.Targets(s.approvals, a, s.approvals[a].resourceType, s.approvals[a].resource);
    }
  }

  lemma SweepKeepsDestroyed(s: Tables, now: Time, l: Id)
    requires l in s.labs && s.labs[l].state.Destroyed?
    ensures var t := R.Sweep(s, now); l in t.labs && t.labs[l] == s.labs[l]
  {
    assert R.Expire(s, now).labs == R.ExpireLabs(s, R.StaleIds(s.approvals, now));
  }

  lemma RetryKeepsDestroyed(s: Tables, w: R.World, max: int, l: Id)
    requires l in s.labs && s.labs[l].state.Destroyed?
    ensures var t := R.Retry(s, w, max); l in t.labs && t.labs[l] == s.labs[l]
  {
    if w.destroyer.Some? { assert R.Retry(s, w, max).labs == R.RetryLabs(s, w.destroyer.value, max); }
  }

  /** A pass never touches a destroyed lab. */
  lemma ReconcileKeepsDestroyed(s: Tables, now: Time, w: R.World, max: int, l: Id)
    requires l in s.labs && s.labs[l].state.Destroyed?
    ensures var t := R.Reconcile(s, now, w, max); l in t.labs && t.labs[l] == s.labs[l]
  {
    SweepKeepsDestroyed(s, now, l);
    var swept := R.Sweep(s, now);
    RetryKeepsDestroyed(swept, w, max, l);
    assert R.Reconcile(s, now, w, max).labs == R.ScanLabs(R.Retry(swept, w, max), w);
  }

  lemma AddLabKeepsLabs(
    c: Config, s: Tables, profile: string, requester: Requester, d: LabDraft, now: Time, l: Id)
    requires l in s.labs
    ensures var t := AddLab(c, s, profile, requester, d, now).rows; l in t.labs && t.labs[l] == s.labs[l]
  {
  }

  lemma DispatchKeepsLabs(c: Config, s: Tables, cb: Q.Callback, now: Time, done: Time, l: Id)
    requires l in s.labs
    ensures var t := Q.Dispatch(c, s, cb, now, done).rows; l in t.labs && t.labs[l] == s.labs[l]
  {
    var q := Q.DueQuery(s.jobs, now);
    if q != [] {
      Q.DueQueryMembers(s.jobs, now);
      RunJobRows(c, s, q[0], cb, now, done);
      var j := s.jobs[q[0]];
      if j.action.CreateLab? && j.profile.Some? {
        AddLabKeepsLabs(c, s.(jobs := s.jobs[q[0] := Q.Started(j, now)]), j.profile.value, Requester.Scheduler,
                        cb.draft, now, l);
      }
    }
  }

  lemma DestroyKeepsDestroyed(c: Config, s: Tables, x: Id, removed: bool, l: Id)
    requires l in s.labs && s.labs[l].state.Destroyed?
    ensures var t := Governance.DestroyLab(c, s, x, removed).rows; l in t.labs && t.labs[l] == s.labs[l]
  {
  }

  /** The steps that leave the lab table as it is. */
  predicate LeavesLabs(step: Step) {
    !step.CreateLab? && !step.DestroyLab? && !step.Decide? && !step.Reconcile? && !step.Dispatch?
  }

  lemma OthersKeepLabs(c: Config, s: Tables, step: Step)
    requires LeavesLabs(step)
    ensures Next(c, s, step).labs == s.labs
  {
    StepFramed(c, s, step);
  }

  lemma DestroyedStep(c: Config, s: Tables, step: Step, now: Time, l: Id)
    requires LeftDestroyed(s, now, l) && NotBefore(step, now)
    ensures var t := Next(c, s, step); LeftDestroyed(t, now, l) && t.labs[l] == s.labs[l]
  {
    StillUndecidable(c, s, step, LabResource, l, now);
    match step
    case CreateLab(profile, requester, draft, at) => AddLabKeepsLabs(c, s, profile, requester, draft, at, l);
    case DestroyLab(x, removed) => DestroyKeepsDestroyed(c, s, x, removed, l);
    case Decide(a, d, actor, comment, at) => DecideLeavesDestroyed(s, a, d, actor, comment, at, now, l);
    case Reconcile(at, w) => ReconcileKeepsDestroyed(s, at, w, c.maxDestroyAttempts, l);
    case Dispatch(cb, at, done) => DispatchKeepsLabs(c, s, cb, at, done, l);
    case _ => OthersKeepLabs(c, s, step);
  }

  lemma {:induction false} DestroyedStays(c: Config, s: Tables, steps: seq<Step>, now: Time, l: Id)
    requires LeftDestroyed(s, now, l) && forall i :: 0 <= i < |steps| ==> NotBefore(steps[i], now)
    ensures var t := RunFrom(c, s, steps); LeftDestroyed(t, now, l) && t.labs[l] == s.labs[l]
  {
    if steps != [] {
      var n := |steps| - 1;
      DestroyedStays(c, s, steps[..n], now, l);
      DestroyedStep(c, RunFrom(c, s, steps[..n]), steps[n], now, l);
    }
  }

  /** No run from `now` on, of any length, brings this lab back. */
  ghost predicate DestroyedFrom(c: Config, s: Tables, now: Time, l: Id) {
    forall steps :: Timed(steps, now) ==> var t := RunFrom(c, s, steps); l in t.labs && t.labs[l].state.Destroyed?
  }

  /** From `now` on DESTROYED is final exactly when no request about the lab can still be decided. */
  lemma DestroyedIsFinalIff(c: Config, s: Tables, now: Time, l: Id)
    requires l in s.labs && s.labs[l].state.Destroyed?
    ensures DestroyedFrom(c, s, now, l) <==> !Decidable(s, LabResource, l, now)
  {
    if !Decidable(s, LabResource, l, now) {
      forall steps | Timed(steps, now)
        ensures l in RunFrom(c, s, steps).labs && RunFrom(c, s, steps).labs[l].state.Destroyed?
      {
        DestroyedStays(c, s, steps, now, l);
      }
    } else {
      var a :| R.Targets(s.approvals, a, LabResource, l) && s.approvals[a].state.Requested?
               && StillOpen(s.approvals[a], now);
      LateApprovalRevives(c, s, a, "operator", None, now);
    }
  }

  /** Approving a pending lab request overwrites the lab's state, even DESTROYED. */
  lemma LateApprovalRevives(c: Config, s: Tables, a: Id, actor: string, comment: Option<string>, now: Time)
    requires a in s.approvals && s.approvals[a].state.Requested? && StillOpen(s.approvals[a], now)
    requires s.approvals[a].resourceType.LabResource? && s.approvals[a].resource in s.labs
    ensures var l := s.approvals[a].resource;
      var t := RunFrom(c, s, [Decide(a, Approve, actor, comment, now)]);
      Timed([Decide(a, Approve, actor, comment, now)], now) && l in t.labs && t.labs[l].state.Approved?
  {
    var step := Decide(a, Approve, actor, comment, now);
    assert [step][..0] == [] && RunFrom(c, s, []) == s;
    assert RunFrom(c, s, [step]) == Governance.Decide(s, a, Approve, actor, comment, now).rows;
  }
}
