/** The joint invariant of approvals, labs and exports, over every reachable state. */
module GovernanceLaws {
  import opened Basics
  import opened Schema
  import opened Policy
  import opened Governance
  import opened ControlPlane
  import opened ReconcilerLaws
  import R = Reconciler
  import Q = Scheduler
  import L = Leases

  /** What an approval's own columns say agrees, and the row it is about exists. */
  ghost predicate ApprovalOk(s: Tables, a: Approval) {
    && (a.approved <==> a.state.Approved?)
    && (a.decidedAt.None? <==> a.state.Requested?)
    && a.expiresAt.Some?
    && (a.resourceType.LabResource? || a.resourceType.ExportResource?)
    && (a.resourceType.LabResource? ==> a.resource in s.labs)
    && (a.resourceType.ExportResource? ==> a.resource in s.exports)
  }

  /** What a lab's approval row allows its state to be. */
  predicate LabAgrees(a: ApprovalState, l: LabState) {
    match a
    case Requested => !l.Approved?
    case Approved => !l.PendingApproval?
    case Rejected => !l.Approved? && !l.PendingApproval?
    case Expired => !l.Approved? && !l.PendingApproval?
  }

  /** What an export's approval row allows the export to be. */
  predicate ExportAgrees(a: ApprovalState, e: Export) {
    match a
    case Requested => e.approvalRequired && (e.state.Quarantined? || e.state.Rejected?)
    case Approved => !e.approvalRequired && (e.state.Approved? || e.state.Released? || e.state.Rejected?)
    case Rejected => e.state.Rejected?
    case Expired => e.state.Rejected?
  }

  ghost predicate Agrees(s: Tables, a: Approval)
    requires ApprovalOk(s, a)
  {
    && (a.resourceType.LabResource? ==> LabAgrees(a.state, s.labs[a.resource].state))
    && (a.resourceType.ExportResource? ==> ExportAgrees(a.state, s.exports[a.resource]))
  }

  /** Some approval row is about this resource. */
  ghost predicate Gated(s: Tables, kind: ResourceType, r: Id) {
    exists a :: R.Targets(s.approvals, a, kind, r)
  }

  ghost predicate LabOk(c: Config, s: Tables, l: Id)
    requires l in s.labs
  {
    && s.labs[l].profile in c.profiles
    && !s.labs[l].state.Requested?
    && !s.labs[l].state.Archived?
    && !R.MayHaveContainer(s.labs[l].state)
    && (!Gated(s, LabResource, l) ==> !s.labs[l].state.PendingApproval?)
  }

  ghost predicate ExportOk(c: Config, s: Tables, e: Id)
    requires e in s.exports
  {
    var x := s.exports[e];
    && (x.releasedPath.Some? <==> x.state.Released?)
    && (x.denialReason.Some? <==> x.state.Rejected?)
    && !x.state.Requested?
    && x.lab in s.labs
    && s.labs[x.lab].profile in c.profiles
    && (Gated(s, ExportResource, e) <==> c.profiles[s.labs[x.lab].profile].approvalOnExport)
    && (!Gated(s, ExportResource, e) ==> !x.approvalRequired && !x.state.Approved?)
  }

  ghost predicate ApprovalsOk(s: Tables) {
    forall a :: a in s.approvals ==> ApprovalOk(s, s.approvals[a]) && Agrees(s, s.approvals[a])
  }

  predicate SameSubject(a: Approval, b: Approval) {
    a.resourceType == b.resourceType && a.resource == b.resource
  }

  ghost predicate OneEach(approvals: map<Id, Approval>) {
    forall a, b :: a in approvals && b in approvals && SameSubject(approvals[a], approvals[b]) ==> a == b
  }

  ghost predicate LabsOk(c: Config, s: Tables) { forall l :: l in s.labs ==> LabOk(c, s, l) }

  ghost predicate ExportsOk(c: Config, s: Tables) { forall e :: e in s.exports ==> ExportOk(c, s, e) }

  ghost predicate Inv(c: Config, s: Tables) {
    ApprovalsOk(s) && OneEach(s.approvals) && LabsOk(c, s) && ExportsOk(c, s)
  }

  // ---------- which tables a step touches ----------

  /** `t` is `s` but for the tables that this kind of step may change. */
  predicate Framed(step: Step, s: Tables, t: Tables) {
    match step
    case CreateLab(_, _, _, _) =>
      t == s.(labs := t.labs, storage := t.storage, approvals := t.approvals, events := t.events)
    case DestroyLab(_, _) => t == s.(labs := t.labs, events := t.events)
    case CreateRun(_, _, _, _) => t == s.(runs := t.runs, events := t.events)
    case Decide(_, _, _, _, _) =>
      t == s.(approvals := t.approvals, labs := t.labs, exports := t.exports, events := t.events)
    case StageExport(_, _, _, _, _) => t == s.(exports := t.exports, approvals := t.approvals, events := t.events)
    case ReleaseExport(_, _) => t == s.(exports := t.exports, events := t.events)
    case DenyExport(_, _) => t == s.(exports := t.exports, events := t.events)
    case IssueLease(_, _, _, _, _, _) => t == s.(leases := t.leases, events := t.events)
    case RevokeLease(_, _) => t == s.(leases := t.leases, events := t.events)
    case Enqueue(_, _, _) => t == s.(jobs := t.jobs, events := t.events)
    case Dispatch(_, _, _) => t == s.(labs := t.labs, storage := t.storage, approvals := t.approvals,
                                      runs := t.runs, jobs := t.jobs, events := t.events)
    case Reconcile(_, _) => t == s.(approvals := t.approvals, labs := t.labs, exports := t.exports,
                                    leases := t.leases, runs := t.runs, events := t.events)
  }

  lemma AddLabFramed(c: Config, s: Tables, profile: string, requester: Requester, d: LabDraft, now: Time)
    ensures var t := AddLab(c, s, profile, requester, d, now).rows;
      t == s.(labs := t.labs, storage := t.storage, approvals := t.approvals, events := t.events)
  {
  }

  lemma StageFramed(c: Config, s: Tables, lab: Id, source: string, run: Option<Id>, d: ExportDraft, now: Time)
    ensures var t := CreateExport(c, s, lab, source, run, d, now).rows;
      t == s.(exports := t.exports, approvals := t.approvals, events := t.events)
  {
  }

  lemma DecideFramed(s: Tables, a: Id, d: Decision, actor: string, comment: Option<string>, now: Time)
    ensures var t := Governance.Decide(s, a, d, actor, comment, now).rows;
      t == s.(approvals := t.approvals, labs := t.labs, exports := t.exports, events := t.events)
  {
  }

  lemma DestroyFramed(c: Config, s: Tables, lab: Id, removed: bool)
    ensures var t := Governance.DestroyLab(c, s, lab, removed).rows; t == s.(labs := t.labs, events := t.events)
  {
  }

  lemma RunFramed(c: Config, s: Tables, lab: Id, command: string, run: Id, now: Time)
    ensures var t := AddRun(c, s, lab, command, run, now).rows; t == s.(runs := t.runs, events := t.events)
  {
  }

  lemma ReleaseFramed(s: Tables, e: Id, present: bool)
    ensures var t := Governance.ReleaseExport(s, e, present).rows; t == s.(exports := t.exports, events := t.events)
  {
  }

  lemma DenyFramed(s: Tables, e: Id, reason: string)
    ensures var t := Governance.DenyExport(s, e, reason).rows; t == s.(exports := t.exports, events := t.events)
  {
  }

  lemma IssueFramed(c: Config, b: L.Broker, s: Tables, lab: Id, secret: string, ttl: int, lease: Id, now: Time)
    ensures var t := L.Issue(c, b, s, lab, secret, ttl, lease, now).rows;
      t == s.(leases := t.leases, events := t.events)
  {
  }

  lemma RevokeFramed(s: Tables, lease: Id, now: Time)
    ensures var t := L.Revoke(s, lease, now).rows; t == s.(leases := t.leases, events := t.events)
  {
  }

  lemma EnqueueFramed(c: Config, s: Tables, r: Q.JobRequest, job: Id, now: Time)
    ensures var t := Q.Enqueue(c, s, r, job, now).rows; t == s.(jobs := t.jobs, events := t.events)
  {
  }

  lemma AttemptFramed(c: Config, s: Tables, j: Job, cb: Q.Callback, now: Time)
    ensures var t := Q.Attempted(c, s, j, cb, now).rows;
      t == s.(labs := t.labs, storage := t.storage, approvals := t.approvals, runs := t.runs, events := t.events)
  {
    if j.action.CreateLab? && j.profile.Some? {
      AddLabFramed(c, s, j.profile.value, Requester.Scheduler, cb.draft, now);
    }
    if j.action.StartRun? && j.lab.Some? && j.command.Some? {
      RunFramed(c, s, j.lab.value, j.command.value, cb.runId, now);
    }
  }

  lemma DispatchFramed(c: Config, s: Tables, cb: Q.Callback, now: Time, done: Time)
    ensures var t := Q.Dispatch(c, s, cb, now, done).rows;
      t == s.(labs := t.labs, storage := t.storage, approvals := t.approvals,
              runs := t.runs, jobs := t.jobs, events := t.events)
  {
    var q := Q.DueQuery(s.jobs, now);
    if q != [] {
      Q.DueQueryMembers(s.jobs, now);
      var started := Q.Started(s.jobs[q[0]], now);
      AttemptFramed(c, s.(jobs := s.jobs[q[0] := started]), started, cb, now);
    }
  }

  lemma PassFramed(s: Tables, now: Time, w: R.World, max: int)
    ensures var t := R.Reconcile(s, now, w, max);
      t == s.(approvals := t.approvals, labs := t.labs, exports := t.exports,
              leases := t.leases, runs := t.runs, events := t.events)
  {
    SweepRows(s, now);
    LatePhasesKeep(R.Sweep(s, now), w, max);
  }

  lemma StepFramed(c: Config, s: Tables, step: Step)
    ensures Framed(step, s, Next(c, s, step))
  {
    match step
    case CreateLab(profile, requester, draft, now) => AddLabFramed(c, s, profile, requester, draft, now);
    case DestroyLab(lab, removed) => DestroyFramed(c, s, lab, removed);
    case CreateRun(lab, command, run, now) => RunFramed(c, s, lab, command, run, now);
    case Decide(a, d, actor, comment, now) => DecideFramed(s, a, d, actor, comment, now);
    case StageExport(lab, source, run, draft, now) => StageFramed(c, s, lab, source, run, draft, now);
    case ReleaseExport(e, present) => ReleaseFramed(s, e, present);
    case DenyExport(e, reason) => DenyFramed(s, e, reason);
    case IssueLease(broker, lab, secret, ttl, lease, now) => IssueFramed(c, broker, s, lab, secret, ttl, lease, now);
    case RevokeLease(lease, now) => RevokeFramed(s, lease, now);
    case Enqueue(request, job, now) => EnqueueFramed(c, s, request, job, now);
    case Dispatch(cb, now, done) => DispatchFramed(c, s, cb, now, done);
    case Reconcile(now, w) => PassFramed(s, now, w, c.maxDestroyAttempts);
  }

  // ---------- every step keeps it ----------

  /** No approval is about a row that does not exist. */
  lemma UnbornIsUngated(s: Tables, kind: ResourceType, r: Id)
    requires ApprovalsOk(s)
    requires (kind.LabResource? && r !in s.labs) || (kind.ExportResource? && r !in s.exports)
    ensures !Gated(s, kind, r)
  {
    forall a ensures !R.Targets(s.approvals, a, kind, r) {
      if a in s.approvals { assert ApprovalOk(s, s.approvals[a]); }
    }
  }

  /** Gating depends on the approvals' subjects alone. */
  lemma GatedFrame(s: Tables, t: Tables, kind: ResourceType, r: Id)
    requires SameSubjects(s, t)
    ensures Gated(s, kind, r) <==> Gated(t, kind, r)
  {
    if a :| R.Targets(s.approvals, a, kind, r) { assert R.Targets(t.approvals, a, kind, r); }
    if a :| R.Targets(t.approvals, a, kind, r) { assert R.Targets(s.approvals, a, kind, r); }
  }

  ghost predicate SameSubjects(s: Tables, t: Tables) {
    && s.approvals.Keys == t.approvals.Keys
    && forall a :: a in s.approvals ==> SameSubject(s.approvals[a], t.approvals[a])
  }

  /** The new approval of a gated new row, or none. */
  ghost predicate GateAdded(s: Tables, t: Tables, gated: bool, g: Id, row: Approval) {
    if gated then g !in s.approvals && t.approvals == s.approvals[g := row] else t.approvals == s.approvals
  }

  lemma GatedGrows(s: Tables, t: Tables, gated: bool, g: Id, row: Approval, kind: ResourceType, r: Id)
    requires GateAdded(s, t, gated, g, row)
    ensures Gated(t, kind, r) <==>
      (Gated(s, kind, r) || (gated && row.resourceType == kind && row.resource == r))
  {
    if a :| R.Targets(s.approvals, a, kind, r) { assert R.Targets(t.approvals, a, kind, r); }
    if a :| R.Targets(t.approvals, a, kind, r) {
      if !(gated && a == g) { assert R.Targets(s.approvals, a, kind, r); }
    }
    if gated && row.resourceType == kind && row.resource == r { assert R.Targets(t.approvals, g, kind, r); }
  }

  lemma OneEachGrows(s: Tables, t: Tables, gated: bool, g: Id, row: Approval)
    requires OneEach(s.approvals) && GateAdded(s, t, gated, g, row)
    requires !Gated(s, row.resourceType, row.resource)
    ensures OneEach(t.approvals)
  {
    forall a | a in s.approvals ensures !SameSubject(s.approvals[a], row) {
      assert !R.Targets(s.approvals, a, row.resourceType, row.resource);
    }
  }

  /** A new lab, with its approval request if it is gated. */
  lemma LabBornKeeps(c: Config, s: Tables, t: Tables, l: Id, p: Profile, gated: bool, g: Id, now: Time)
    requires Inv(c, s) && l !in s.labs && p.name in c.profiles
    requires t.labs == s.labs[l := NewLab(p, gated, now)] && t.exports == s.exports
    requires GateAdded(s, t, gated, g, PendingRequest(l, LabResource, l, now))
    ensures Inv(c, t)
  {
    var row := PendingRequest(l, LabResource, l, now);
    UnbornIsUngated(s, LabResource, l);
    OneEachGrows(s, t, gated, g, row);
    forall a | a in t.approvals ensures ApprovalOk(t, t.approvals[a]) && Agrees(t, t.approvals[a]) {
      if a in s.approvals { assert ApprovalOk(s, s.approvals[a]) && Agrees(s, s.approvals[a]); }
    }
    forall x | x in t.labs ensures LabOk(c, t, x) {
      GatedGrows(s, t, gated, g, row, LabResource, x);
      if x != l { assert LabOk(c, s, x); }
    }
    forall e | e in t.exports ensures ExportOk(c, t, e) {
      GatedGrows(s, t, gated, g, row, ExportResource, e);
      assert ExportOk(c, s, e);
    }
  }

  /** A new export, with its approval request if its lab's profile asks for one. */
  lemma ExportBornKeeps(c: Config, s: Tables, t: Tables, e: Id, x: Export, g: Id, now: Time)
    requires Inv(c, s) && e !in s.exports && x.lab in s.labs && s.labs[x.lab].profile in c.profiles
    requires x.state.Quarantined? && x.releasedPath.None? && x.denialReason.None?
    requires x.approvalRequired == c.profiles[s.labs[x.lab].profile].approvalOnExport
    requires t.exports == s.exports[e := x] && t.labs == s.labs
    requires GateAdded(s, t, x.approvalRequired, g, PendingRequest(x.lab, ExportResource, e, now))
    ensures Inv(c, t)
  {
    var row := PendingRequest(x.lab, ExportResource, e, now);
    UnbornIsUngated(s, ExportResource, e);
    OneEachGrows(s, t, x.approvalRequired, g, row);
    forall a | a in t.approvals ensures ApprovalOk(t, t.approvals[a]) && Agrees(t, t.approvals[a]) {
      if a in s.approvals { assert ApprovalOk(s, s.approvals[a]) && Agrees(s, s.approvals[a]); }
    }
    forall l | l in t.labs ensures LabOk(c, t, l) {
      GatedGrows(s, t, x.approvalRequired, g, row, LabResource, l);
      assert LabOk(c, s, l);
    }
    forall y | y in t.exports ensures ExportOk(c, t, y) {
      GatedGrows(s, t, x.approvalRequired, g, row, ExportResource, y);
      if y != e { assert ExportOk(c, s, y); }
    }
  }

  /** What may happen to an export's row without any approval moving. */
  predicate ExportMoves(x: Export, y: Export) {
    && y.lab == x.lab
    && y.approvalRequired == x.approvalRequired
    && (y.releasedPath.Some? <==> y.state.Released?)
    && (y.denialReason.Some? <==> y.state.Rejected?)
    && (y.state == x.state || y.state.Rejected? || (y.state.Released? && !x.approvalRequired && !x.state.Rejected?))
  }

  ghost predicate ExportsMove(s: Tables, t: Tables) {
    && t.approvals == s.approvals
    && t.labs == s.labs
    && t.exports.Keys == s.exports.Keys
    && forall e :: e in s.exports ==> ExportMoves(s.exports[e], t.exports[e])
  }

  lemma ExportStepKeeps(c: Config, s: Tables, t: Tables)
    requires Inv(c, s) && ExportsMove(s, t)
    ensures Inv(c, t)
  {
    forall a | a in t.approvals ensures ApprovalOk(t, t.approvals[a]) && Agrees(t, t.approvals[a]) {
      assert ApprovalOk(s, s.approvals[a]) && Agrees(s, s.approvals[a]);
    }
    forall l | l in t.labs ensures LabOk(c, t, l) {
      GatedFrame(s, t, LabResource, l);
      assert LabOk(c, s, l);
    }
    forall e | e in t.exports ensures ExportOk(c, t, e) {
      GatedFrame(s, t, ExportResource, e);
      assert ExportOk(c, s, e) && ExportMoves(s.exports[e], t.exports[e]);
    }
  }

  /** What may happen to a lab's row without any approval moving. */
  predicate LabMoves(x: Lab, y: Lab) {
    y.profile == x.profile && (y.state == x.state || y.state.Failed? || y.state.Destroyed?)
  }

  /** Labs only fail, are destroyed, or stay as they are; the tables not named here are free. */
  ghost predicate LabsMove(s: Tables, t: Tables) {
    && t.approvals == s.approvals
    && t.exports == s.exports
    && t.labs.Keys == s.labs.Keys
    && forall l :: l in s.labs ==> LabMoves(s.labs[l], t.labs[l])
  }

  lemma LabStepKeeps(c: Config, s: Tables, t: Tables)
    requires Inv(c, s) && LabsMove(s, t)
    ensures Inv(c, t)
  {
    forall a | a in t.approvals ensures ApprovalOk(t, t.approvals[a]) && Agrees(t, t.approvals[a]) {
      assert ApprovalOk(s, s.approvals[a]) && Agrees(s, s.approvals[a]);
    }
    forall l | l in t.labs ensures LabOk(c, t, l) {
      GatedFrame(s, t, LabResource, l);
      assert LabOk(c, s, l) && LabMoves(s.labs[l], t.labs[l]);
    }
    forall e | e in t.exports ensures ExportOk(c, t, e) {
      GatedFrame(s, t, ExportResource, e);
      assert ExportOk(c, s, e);
      assert LabMoves(s.labs[s.exports[e].lab], t.labs[s.exports[e].lab]);
    }
  }

  lemma SameRowsKeep(c: Config, s: Tables, t: Tables)
    requires Inv(c, s) && SameRows(s, t)
    ensures Inv(c, t)
  {
    LabStepKeeps(c, s, t);
  }

  /** Approvals move with the rows they are about; ungated rows stay. */
  ghost predicate SubjectsMove(s: Tables, t: Tables) {
    SameSubjects(s, t) && GatedLabsMove(s, t) && GatedExportsMove(s, t)
  }

  ghost predicate GatedLabsMove(s: Tables, t: Tables) {
    && t.labs.Keys == s.labs.Keys
    && forall l :: l in s.labs ==>
         t.labs[l] == s.labs[l]
         || (Gated(s, LabResource, l) && t.labs[l].profile == s.labs[l].profile
             && (t.labs[l].state.Approved? || t.labs[l].state.Failed?))
  }

  ghost predicate GatedExportsMove(s: Tables, t: Tables) {
    && t.exports.Keys == s.exports.Keys
    && forall e :: e in s.exports ==>
         t.exports[e] == s.exports[e]
         || (Gated(s, ExportResource, e) && t.exports[e].lab == s.exports[e].lab
             && t.exports[e].releasedPath.None?
             && (t.exports[e].denialReason.Some? <==> t.exports[e].state.Rejected?)
             && (t.exports[e].state.Approved? || t.exports[e].state.Rejected?))
  }

  lemma SubjectsStayDistinct(s: Tables, t: Tables)
    requires OneEach(s.approvals) && SameSubjects(s, t)
    ensures OneEach(t.approvals)
  {
    forall a, b | a in t.approvals && b in t.approvals && SameSubject(t.approvals[a], t.approvals[b])
      ensures a == b
    {
      assert SameSubject(s.approvals[a], t.approvals[a]) && SameSubject(s.approvals[b], t.approvals[b]);
      assert SameSubject(s.approvals[a], s.approvals[b]);
    }
  }

  lemma MovedLabsOk(c: Config, s: Tables, t: Tables)
    requires LabsOk(c, s) && SameSubjects(s, t) && GatedLabsMove(s, t)
    ensures LabsOk(c, t)
  {
    forall l | l in t.labs ensures LabOk(c, t, l) {
      GatedFrame(s, t, LabResource, l);
      assert LabOk(c, s, l);
    }
  }

  lemma MovedExportsOk(c: Config, s: Tables, t: Tables)
    requires ExportsOk(c, s) && SameSubjects(s, t) && GatedLabsMove(s, t) && GatedExportsMove(s, t)
    ensures ExportsOk(c, t)
  {
    forall e | e in t.exports ensures ExportOk(c, t, e) {
      GatedFrame(s, t, ExportResource, e);
      assert ExportOk(c, s, e);
    }
  }

  lemma ApprovalStepKeeps(c: Config, s: Tables, t: Tables)
    requires Inv(c, s) && SubjectsMove(s, t) && ApprovalsOk(t)
    ensures Inv(c, t)
  {
    SubjectsStayDistinct(s, t);
    MovedLabsOk(c, s, t);
    MovedExportsOk(c, s, t);
  }

  lemma AddLabKeeps(c: Config, s: Tables, profile: string, requester: Requester, d: LabDraft, now: Time)
    requires ValidRegistry(c.profiles) && Inv(c, s)
    ensures Inv(c, AddLab(c, s, profile, requester, d, now).rows)
  {
    var o := AddLab(c, s, profile, requester, d, now);
    if o.error.None? {
      var p := c.profiles[profile];
      LabBornKeeps(c, s, o.rows, d.labId, p, StartNeedsApproval(p, requester), d.approvalId, now);
    }
  }

  /** What staging adds. */
  lemma StageExportAdds(
    c: Config, s: Tables, lab: Id, source: string, run: Option<Id>, d: ExportDraft, now: Time)
    requires CreateExport(c, s, lab, source, run, d, now).error.None?
    ensures var t := CreateExport(c, s, lab, source, run, d, now).rows;
      && d.exportId !in s.exports && d.exportId in t.exports
      && var x := t.exports[d.exportId];
      && x.lab == lab && lab in s.labs && s.labs[lab].profile in c.profiles
      && x.state.Quarantined? && x.releasedPath.None? && x.denialReason.None?
      && x.approvalRequired == c.profiles[s.labs[lab].profile].approvalOnExport
      && t.exports == s.exports[d.exportId := x] && t.labs == s.labs
      && GateAdded(s, t, x.approvalRequired, d.approvalId, PendingRequest(lab, ExportResource, d.exportId, now))
  {
  }

  lemma StageExportKeeps(c: Config, s: Tables, lab: Id, source: string, run: Option<Id>, d: ExportDraft, now: Time)
    requires Inv(c, s)
    ensures Inv(c, CreateExport(c, s, lab, source, run, d, now).rows)
  {
    var o := CreateExport(c, s, lab, source, run, d, now);
    if o.error.None? {
      StageExportAdds(c, s, lab, source, run, d, now);
      ExportBornKeeps(c, s, o.rows, d.exportId, o.rows.exports[d.exportId], d.approvalId, now);
    }
  }

  lemma PathsFollowStates(c: Config, s: Tables)
    requires Inv(c, s)
    ensures forall e :: e in s.exports ==> (s.exports[e].releasedPath.Some? ==> s.exports[e].state.Released?)
    ensures forall l :: l in s.labs ==> !R.MayHaveContainer(s.labs[l].state)
  {
    forall e | e in s.exports ensures s.exports[e].releasedPath.Some? ==> s.exports[e].state.Released? {
      assert ExportOk(c, s, e);
    }
    forall l | l in s.labs ensures !R.MayHaveContainer(s.labs[l].state) { assert LabOk(c, s, l); }
  }

  lemma DecideApprovalsOk(
    s: Tables, id: Id, d: Decision, actor: string, comment: Option<string>, now: Time)
    requires ApprovalsOk(s) && OneEach(s.approvals)
    ensures ApprovalsOk(Governance.Decide(s, id, d, actor, comment, now).rows)
  {
    var o := Governance.Decide(s, id, d, actor, comment, now);
    if o.error.None? {
      var t := o.rows;
      var row := s.approvals[id];
      assert ApprovalOk(s, row) && Agrees(s, row);
      forall a | a in t.approvals ensures ApprovalOk(t, t.approvals[a]) && Agrees(t, t.approvals[a]) {
        assert ApprovalOk(s, s.approvals[a]) && Agrees(s, s.approvals[a]);
        if a != id { assert !SameSubject(s.approvals[a], row); }
      }
    }
  }

  /** The row a pending approval is about was never released. */
  lemma DecideMoves(s: Tables, id: Id, d: Decision, actor: string, comment: Option<string>, now: Time)
    requires ApprovalsOk(s)
    requires forall e :: e in s.exports ==> (s.exports[e].releasedPath.Some? ==> s.exports[e].state.Released?)
    ensures SubjectsMove(s, Governance.Decide(s, id, d, actor, comment, now).rows)
  {
    var o := Governance.Decide(s, id, d, actor, comment, now);
    if o.error.None? {
      var row := s.approvals[id];
      assert ApprovalOk(s, row) && Agrees(s, row);
      assert R.Targets(s.approvals, id, row.resourceType, row.resource);
      assert Gated(s, row.resourceType, row.resource);
    }
  }

  lemma DecideKeeps(c: Config, s: Tables, id: Id, d: Decision, actor: string, comment: Option<string>, now: Time)
    requires Inv(c, s)
    ensures Inv(c, Governance.Decide(s, id, d, actor, comment, now).rows)
  {
    PathsFollowStates(c, s);
    DecideApprovalsOk(s, id, d, actor, comment, now);
    DecideMoves(s, id, d, actor, comment, now);
    ApprovalStepKeeps(c, s, Governance.Decide(s, id, d, actor, comment, now).rows);
  }

  lemma ExpireApprovalsOk(s: Tables, now: Time)
    requires ApprovalsOk(s) && OneEach(s.approvals)
    ensures ApprovalsOk(R.Expire(s, now))
  {
    var t := R.Expire(s, now);
    var ids := R.StaleIds(s.approvals, now);
    forall a | a in t.approvals ensures ApprovalOk(t, t.approvals[a]) && Agrees(t, t.approvals[a]) {
      var row := s.approvals[a];
      assert ApprovalOk(s, row) && Agrees(s, row);
      TargetedByItself(s, ids, a);
    }
  }

  /** With one approval a resource, a resource is targeted exactly when its own approval is. */
  lemma TargetedByItself(s: Tables, ids: set<Id>, a: Id)
    requires OneEach(s.approvals) && a in s.approvals
    ensures R.Targeted(s.approvals, ids, s.approvals[a].resourceType, s.approvals[a].resource) <==> a in ids
  {
    var row := s.approvals[a];
    assert R.Targets(s.approvals, a, row.resourceType, row.resource);
    if b :| b in ids && R.Targets(s.approvals, b, row.resourceType, row.resource) {
      assert SameSubject(s.approvals[a], s.approvals[b]);
    }
  }

  /** What expiry does to the rows its stale approvals are about. */
  lemma ExpireMovesLabs(s: Tables, now: Time)
    ensures GatedLabsMove(s, R.Expire(s, now))
  {
    var ids := R.StaleIds(s.approvals, now);
    forall l | l in s.labs && R.Targeted(s.approvals, ids, LabResource, l) ensures Gated(s, LabResource, l) {
      var b :| b in ids && R.Targets(s.approvals, b, LabResource, l);
    }
    assert R.Expire(s, now).labs == R.ExpireLabs(s, ids);
  }

  lemma ExpireMovesExports(s: Tables, now: Time)
    requires ApprovalsOk(s)
    requires forall e :: e in s.exports ==> (s.exports[e].releasedPath.Some? ==> s.exports[e].state.Released?)
    ensures GatedExportsMove(s, R.Expire(s, now))
  {
    var ids := R.StaleIds(s.approvals, now);
    forall e | e in s.exports && R.Targeted(s.approvals, ids, ExportResource, e)
      ensures Gated(s, ExportResource, e) && s.exports[e].releasedPath.None?
    {
      var b :| b in ids && R.Targets(s.approvals, b, ExportResource, e);
      assert ApprovalOk(s, s.approvals[b]) && Agrees(s, s.approvals[b]);
    }
    assert R.Expire(s, now).exports == R.ExpireExports(s, ids);
  }

  lemma ExpireKeepsSubjects(s: Tables, now: Time)
    ensures SameSubjects(s, R.Expire(s, now))
  {
  }

  lemma ExpireKeeps(c: Config, s: Tables, now: Time)
    requires Inv(c, s)
    ensures Inv(c, R.Expire(s, now))
  {
    PathsFollowStates(c, s);
    ExpireApprovalsOk(s, now);
    ExpireMovesLabs(s, now);
    ExpireMovesExports(s, now);
    ExpireKeepsSubjects(s, now);
    ApprovalStepKeeps(c, s, R.Expire(s, now));
  }

  lemma RetryMoves(s: Tables, w: R.World, max: int)
    requires forall l :: l in s.labs ==> !R.MayHaveContainer(s.labs[l].state)
    ensures LabsMove(s, R.Retry(s, w, max))
  {
    if w.destroyer.Some? {
      var after := R.RetryLabs(s, w.destroyer.value, max);
      forall l | l in s.labs ensures after[l] == s.labs[l] {}
      assert after == s.labs;
    }
  }

  lemma RetryKeeps(c: Config, s: Tables, w: R.World, max: int)
    requires Inv(c, s)
    ensures Inv(c, R.Retry(s, w, max))
  {
    PathsFollowStates(c, s);
    RetryMoves(s, w, max);
    LabStepKeeps(c, s, R.Retry(s, w, max));
  }

  lemma ScanMoves(s: Tables, w: R.World)
    ensures LabsMove(s, R.Scan(s, w))
  {
  }

  lemma ScanKeeps(c: Config, s: Tables, w: R.World)
    requires Inv(c, s)
    ensures Inv(c, R.Scan(s, w))
  {
    ScanMoves(s, w);
    LabStepKeeps(c, s, R.Scan(s, w));
  }

  lemma ReconcileKeeps(c: Config, s: Tables, now: Time, w: R.World)
    requires Inv(c, s)
    ensures Inv(c, R.Reconcile(s, now, w, c.maxDestroyAttempts))
  {
    ExpireKeeps(c, s, now);
    var swept := R.Sweep(s, now);
    SameRowsKeep(c, R.Expire(s, now), swept);
    var retried := R.Retry(swept, w, c.maxDestroyAttempts);
    RetryKeeps(c, swept, w, c.maxDestroyAttempts);
    ScanKeeps(c, retried, w);
    SameRowsKeep(c, R.Scan(retried, w), R.Inspect(R.Scan(retried, w), w));
  }

  /** Two states that agree on approvals, labs and exports. */
  predicate SameRows(s: Tables, t: Tables) {
    t.approvals == s.approvals && t.exports == s.exports && t.labs == s.labs
  }

  /** An attempt either creates its lab or leaves approvals, labs and exports alone. */
  lemma AttemptRows(c: Config, s: Tables, j: Job, cb: Q.Callback, now: Time)
    ensures var t := Q.Attempted(c, s, j, cb, now).rows;
      if j.action.CreateLab? && j.profile.Some? then
        t == AddLab(c, s, j.profile.value, Requester.Scheduler, cb.draft, now).rows
      else SameRows(s, t)
  {
    if j.action.StartRun? && j.lab.Some? && j.command.Some? {
      RunFramed(c, s, j.lab.value, j.command.value, cb.runId, now);
    }
  }

  lemma RefusedLabChangesNothing(
    c: Config, s: Tables, profile: string, requester: Requester, d: LabDraft, now: Time)
    requires AddLab(c, s, profile, requester, d, now).error.Some?
    ensures AddLab(c, s, profile, requester, d, now).rows == s
  {
  }

  /** A dispatched job either creates its lab or leaves approvals, labs and exports alone. */
  lemma RunJobRows(c: Config, s: Tables, id: Id, cb: Q.Callback, now: Time, done: Time)
    requires id in s.jobs
    ensures var j := s.jobs[id];
      var t := Q.RunJob(c, s, id, cb, now, done);
      if j.action.CreateLab? && j.profile.Some? then
        SameRows(AddLab(c, s.(jobs := s.jobs[id := Q.Started(j, now)]), j.profile.value, Requester.Scheduler,
                        cb.draft, now).rows, t)
      else SameRows(s, t)
  {
    var started := Q.Started(s.jobs[id], now);
    var s1 := s.(jobs := s.jobs[id := started]);
    AttemptRows(c, s1, started, cb, now);
    if started.action.CreateLab? && started.profile.Some?
       && AddLab(c, s1, started.profile.value, Requester.Scheduler, cb.draft, now).error.Some? {
      RefusedLabChangesNothing(c, s1, started.profile.value, Requester.Scheduler, cb.draft, now);
    }
  }

  lemma RunJobKeeps(c: Config, s: Tables, id: Id, cb: Q.Callback, now: Time, done: Time)
    requires ValidRegistry(c.profiles) && Inv(c, s) && id in s.jobs
    ensures Inv(c, Q.RunJob(c, s, id, cb, now, done))
  {
    RunJobRows(c, s, id, cb, now, done);
    var j := s.jobs[id];
    if j.action.CreateLab? && j.profile.Some? {
      var s1 := s.(jobs := s.jobs[id := Q.Started(j, now)]);
      SameRowsKeep(c, s, s1);
      AddLabKeeps(c, s1, j.profile.value, Requester.Scheduler, cb.draft, now);
      SameRowsKeep(c, AddLab(c, s1, j.profile.value, Requester.Scheduler, cb.draft, now).rows,
                   Q.RunJob(c, s, id, cb, now, done));
    } else {
      SameRowsKeep(c, s, Q.RunJob(c, s, id, cb, now, done));
    }
  }

  lemma DispatchKeeps(c: Config, s: Tables, cb: Q.Callback, now: Time, done: Time)
    requires ValidRegistry(c.profiles) && Inv(c, s)
    ensures Inv(c, Q.Dispatch(c, s, cb, now, done).rows)
  {
    var q := Q.DueQuery(s.jobs, now);
    if q != [] {
      Q.DueQueryMembers(s.jobs, now);
      RunJobKeeps(c, s, q[0], cb, now, done);
      SameRowsKeep(c, Q.RunJob(c, s, q[0], cb, now, done), Q.Dispatch(c, s, cb, now, done).rows);
    }
  }

  lemma DestroyMoves(c: Config, s: Tables, lab: Id, removed: bool)
    ensures LabsMove(s, Governance.DestroyLab(c, s, lab, removed).rows)
  {
  }

  lemma ReleaseMoves(s: Tables, e: Id, present: bool)
    requires ExportColumnsOk(s)
    ensures ExportsMove(s, Governance.ReleaseExport(s, e, present).rows)
  {
    var t := Governance.ReleaseExport(s, e, present).rows;
    if t.exports != s.exports {
      assert t.exports == s.exports[e := t.exports[e]];
      assert ExportMoves(s.exports[e], s.exports[e]) && ExportMoves(s.exports[e], t.exports[e]);
    }
  }

  lemma DenyMoves(s: Tables, e: Id, reason: string)
    requires ExportColumnsOk(s)
    ensures ExportsMove(s, Governance.DenyExport(s, e, reason).rows)
  {
    var t := Governance.DenyExport(s, e, reason).rows;
    if t.exports != s.exports {
      assert t.exports == s.exports[e := t.exports[e]];
      assert ExportMoves(s.exports[e], s.exports[e]) && ExportMoves(s.exports[e], t.exports[e]);
    }
  }

  ghost predicate ExportColumnsOk(s: Tables) {
    forall e :: e in s.exports ==> ExportMoves(s.exports[e], s.exports[e])
  }

  lemma ColumnsOk(c: Config, s: Tables)
    requires ExportsOk(c, s)
    ensures ExportColumnsOk(s)
  {
    forall e | e in s.exports ensures ExportMoves(s.exports[e], s.exports[e]) { assert ExportOk(c, s, e); }
  }

  lemma StepKeeps(c: Config, s: Tables, step: Step)
    requires ValidRegistry(c.profiles) && Inv(c, s)
    ensures Inv(c, Next(c, s, step))
  {
    match step
    case CreateLab(profile, requester, draft, now) => AddLabKeeps(c, s, profile, requester, draft, now);
    case DestroyLab(lab, removed) =>
      DestroyMoves(c, s, lab, removed);
      LabStepKeeps(c, s, Next(c, s, step));
    case Decide(a, d, actor, comment, now) => DecideKeeps(c, s, a, d, actor, comment, now);
    case StageExport(lab, source, run, draft, now) => StageExportKeeps(c, s, lab, source, run, draft, now);
    case ReleaseExport(e, present) =>
      ColumnsOk(c, s);
      ReleaseMoves(s, e, present);
      ExportStepKeeps(c, s, Next(c, s, step));
    case DenyExport(e, reason) =>
      ColumnsOk(c, s);
      DenyMoves(s, e, reason);
      ExportStepKeeps(c, s, Next(c, s, step));
    case Dispatch(cb, now, done) => DispatchKeeps(c, s, cb, now, done);
    case Reconcile(now, w) => ReconcileKeeps(c, s, now, w);
    case _ =>
      StepFramed(c, s, step);
      SameRowsKeep(c, s, Next(c, s, step));
  }

  lemma {:induction false} RunKeeps(c: Config, s: Tables, steps: seq<Step>)
    requires ValidRegistry(c.profiles) && Inv(c, s)
    ensures Inv(c, RunFrom(c, s, steps))
  {
    if steps != [] {
      var n := |steps| - 1;
      RunKeeps(c, s, steps[..n]);
      StepKeeps(c, RunFrom(c, s, steps[..n]), steps[n]);
    }
  }

  lemma ReachableInv(c: Config, s: Tables)
    requires ValidRegistry(c.profiles) && Reachable(c, s)
    ensures Inv(c, s)
  {
    var steps :| s == RunFrom(c, EMPTY, steps);
    RunKeeps(c, EMPTY, steps);
  }
}
