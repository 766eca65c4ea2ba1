/**
 * What the governed endpoints do to the tables: labs, runs, approvals and exports.
 * Each function maps the committed rows to the rows the call leaves committed, or to the error it reports.
 */
module Governance {
  import opened Basics
  import opened Schema
  import opened Policy
  import opened Paths

  datatype Config = Config(
    profiles: Profiles,
    managedRoot: Path,
    runTimeoutMinutes: nat,
    quota: nat,
    maxDestroyAttempts: int)

  const APPROVAL_LIFETIME: Time := 24 * 60 * 60

  predicate IsSpace(ch: char) { ch == ' ' || '\t' <= ch <= '\r' }

  /** `text.strip() == ""` */
  predicate Blank(text: string) { forall i :: 0 <= i < |text| ==> IsSpace(text[i]) }

  function Name(p: Path): string { if p == [] then "" else p[|p| - 1] }

  // ---------- labs and runs ----------

  function Allocation(managedRoot: Path, lab: Id): Storage {
    var root := managedRoot + ["labs", Label(lab)];
    Storage(root, root + ["workspace"], root + ["exports"], root + ["quarantine"], root + ["snapshots"])
  }

  /** What creating a lab draws from outside: fresh ids, and whether the directories could be made. */
  datatype LabDraft = LabDraft(labId: Id, approvalId: Id, directories: bool)

  function PendingRequest(lab: Id, kind: ResourceType, resource: Id, now: Time): Approval {
    Approval(Some(lab), kind, resource, ApprovalState.Requested, false, None, None,
             Some(now + APPROVAL_LIFETIME), None, now)
  }

  function NewLab(p: Profile, gated: bool, now: Time): Lab {
    Lab(p.name, if gated then PendingApproval else LabState.Approved, p.runtime, 0, None, now)
  }

  function AddLab(c: Config, s: Tables, profile: string, requester: Requester, d: LabDraft, now: Time): Outcome {
    if profile !in c.profiles then Refused(s, ProfileMissing)
    else if !d.directories then Refused(s, StorageFailure)
    else
      var p := c.profiles[profile];
      var gated := StartNeedsApproval(p, requester);
      if d.labId in s.labs || d.labId in s.storage || (gated && d.approvalId in s.approvals) then
        Refused(s, IntegrityError)
      else
        var rows := s.(labs := s.labs[d.labId := NewLab(p, gated, now)],
                       storage := s.storage[d.labId := Allocation(c.managedRoot, d.labId)],
                       events := s.events + [Event(LabRequested, d.labId, Some(d.labId), Plain)]);
        if gated then
          Done(rows.(approvals := s.approvals[d.approvalId := PendingRequest(d.labId, LabResource, d.labId, now)],
                     events := s.events
                               + [Event(ApprovalRequested, d.approvalId, Some(d.labId), Plain)]
                               + [Event(LabRequested, d.labId, Some(d.labId), Plain)]))
        else Done(rows)
  }

  function DestroyLab(c: Config, s: Tables, lab: Id, removed: bool): Outcome {
    if lab !in s.labs then Refused(s, LabMissing)
    else if lab !in s.storage then Refused(s, LabStorageMissing)
    else if s.labs[lab].state == LabState.Destroyed then Refused(s, LabAlreadyDestroyed)
    else if !Under(c.managedRoot, s.storage[lab].root) || !removed then Refused(s, StorageFailure)
    else Done(s.(labs := s.labs[lab := s.labs[lab].(state := LabState.Destroyed)],
                 events := s.events + [Event(LabDestroyed, lab, Some(lab), Plain)]))
  }

  function AddRun(c: Config, s: Tables, lab: Id, command: string, run: Id, now: Time): Outcome {
    if lab !in s.labs then Refused(s, LabMissing)
    else if run in s.runs then Refused(s, IntegrityError)
    else
      var row := Run(lab, RunState.Queued, command, Some(now + c.runTimeoutMinutes * 60), None, now);
      Done(s.(runs := s.runs[run := row], events := s.events + [Event(RunQueued, run, Some(lab), Plain)]))
  }

  // ---------- approval decisions ----------

  datatype Decision = Approve | Deny

  /** The request at or past its expiry. */
  predicate Overdue(a: Approval, now: Time) { a.expiresAt.Some? && a.expiresAt.value <= now }

  function Decided(a: Approval, d: Decision, actor: string, comment: Option<string>, now: Time): Approval {
    a.(state := if d.Approve? then ApprovalState.Approved else ApprovalState.Rejected,
       approved := d.Approve?, comment := comment, decidedBy := Some(actor), decidedAt := Some(now))
  }

  function DecidedLab(l: Lab, d: Decision): Lab {
    l.(state := if d.Approve? then LabState.Approved else LabState.Failed)
  }

  function DecidedExport(e: Export, d: Decision, comment: Option<string>): Export {
    if d.Approve? then e.(approvalRequired := false, state := ExportState.Approved, denialReason := None)
    else e.(state := ExportState.Rejected, denialReason := comment)
  }

  function DecisionError(s: Tables, id: Id, d: Decision, comment: Option<string>, now: Time): Option<Error> {
    if id !in s.approvals then Some(ApprovalMissing)
    else
      var a := s.approvals[id];
      if a.state != ApprovalState.Requested then Some(ApprovalNotPending)
      else if Overdue(a, now) then Some(ApprovalRequestExpired)
      else if d.Deny? && (comment.None? || Blank(comment.value)) then Some(CommentRequired)
      else if a.resourceType.LabResource? && a.resource !in s.labs then Some(LabMissing)
      else if a.resourceType.ExportResource? && a.resource !in s.exports then Some(ExportMissing)
      else None
  }

  function DecisionKind(d: Decision): EventKind { if d.Approve? then ApprovalApproved else ApprovalDenied }

  function Decide(s: Tables, id: Id, d: Decision, actor: string, comment: Option<string>, now: Time): Outcome {
    var error := DecisionError(s, id, d, comment, now);
    if error.Some? then Refused(s, error.value)
    else
      var a := s.approvals[id];
      Done(s.(
        approvals := s.approvals[id := Decided(a, d, actor, comment, now)],
        labs := if a.resourceType.LabResource?
                then s.labs[a.resource := DecidedLab(s.labs[a.resource], d)] else s.labs,
        exports := if a.resourceType.ExportResource?
                   then s.exports[a.resource := DecidedExport(s.exports[a.resource], d, comment)] else s.exports,
        events := s.events + [Event(DecisionKind(d), id, a.lab, Plain)]))
  }

  // ---------- exports ----------

  /** The quarantined copy of a source file: its digest and length. */
  datatype Copy = Copy(sha256: string, size: nat)

  /** What staging draws from outside: fresh ids, and the copy if the source is a file. */
  datatype ExportDraft = ExportDraft(exportId: Id, approvalId: Id, copy: Option<Copy>)

  function GateError(p: Profile, exports: Path, source: string, d: ExportDraft): Option<Error> {
    if !ValidateExport(p, source).allowed then Some(PolicyDenied)
    else
      match ResolveSource(exports, source)
      case Err(NotGuestPath) => Some(NotAGuestExportPath)
      case Err(Escapes) => Some(PathEscapes)
      case Ok(host) => if d.copy.None? || host == [] then Some(ExportSourceMissing) else None
  }

  /**
   * Of the sources the policy allows, the gate refuses as no guest path exactly those under the policy's second
   * managed prefix, and as escapes exactly the guest paths that leave the exports root for good.
   */
  lemma AllowedSourcesIff(p: Profile, exports: Path, source: string, d: ExportDraft)
    requires ValidateExport(p, source).allowed
    ensures GateError(p, exports, source, d) == Some(NotAGuestExportPath) <==>
      StartsWith(source, "/artifacts/approved/")
    ensures GateError(p, exports, source, d) == Some(PathEscapes) <==>
      StartsWith(source, "/lab/exports/")
      && !Returns(Norm(exports), Net(Segments(source[|"/lab/exports/"|..])))
  {
    GateAsksPaths(p, exports, source, d);
    OnePrefix(source);
    if StartsWith(source, "/lab/exports/") {
      AcceptedSource(exports, source);
    } else {
      RefusedSource(exports, source);
    }
  }

  lemma GateAsksPaths(p: Profile, exports: Path, source: string, d: ExportDraft)
    requires ValidateExport(p, source).allowed
    ensures GateError(p, exports, source, d) == Some(NotAGuestExportPath) <==>
      ResolveSource(exports, source) == Err(NotGuestPath)
    ensures GateError(p, exports, source, d) == Some(PathEscapes) <==> ResolveSource(exports, source) == Err(Escapes)
    ensures StartsWith(source, "/lab/exports/") || StartsWith(source, "/artifacts/approved/")
  {
  }

  lemma AcceptedSource(exports: Path, source: string)
    requires StartsWith(source, "/lab/exports/")
    ensures ResolveSource(exports, source) != Err(NotGuestPath)
    ensures ResolveSource(exports, source) == Err(Escapes) <==>
      !Returns(Norm(exports), Net(Segments(source[|"/lab/exports/"|..])))
  {
    var tail := source[|"/lab/exports/"|..];
    AcceptedIff(exports, tail);
    assert source == source[..|"/lab/exports/"|] + tail;
  }

  lemma RefusedSource(exports: Path, source: string)
    requires StartsWith(source, "/artifacts/approved/")
    ensures ResolveSource(exports, source) == Err(NotGuestPath)
  {
    var tail := source[|"/artifacts/approved/"|..];
    ApprovedArtifactsAreRefused(exports, tail);
    assert source == source[..|"/artifacts/approved/"|] + tail;
  }

  lemma OnePrefix(source: string)
    ensures !(StartsWith(source, "/lab/exports/") && StartsWith(source, "/artifacts/approved/"))
  {
    PrefixAt("/lab/exports/", source, 1);
    PrefixAt("/artifacts/approved/", source, 1);
  }

  /** The policy allows every source under its second managed prefix; the gate refuses every one of them. */
  lemma AllowedArtifactsAreRefused(p: Profile, exports: Path, tail: string, d: ExportDraft)
    ensures ValidateExport(p, "/artifacts/approved/" + tail).allowed
    ensures GateError(p, exports, "/artifacts/approved/" + tail, d) == Some(NotAGuestExportPath)
  {
    assert ("/artifacts/approved/" + tail)[..|"/artifacts/approved/"|] == "/artifacts/approved/";
    AllowedSourcesIff(p, exports, "/artifacts/approved/" + tail, d);
  }

  function NewExport(p: Profile, st: Storage, lab: Id, source: string, run: Option<Id>, d: ExportDraft, now: Time)
    : Export
    requires GateError(p, st.exports, source, d).None?
  {
    var host := ResolveSource(st.exports, source).value;
    Export(lab, run, source, Quarantined, st.quarantine + [Label(d.exportId), Name(host)], None,
           ValidateExport(p, source).approvalRequired, d.copy.value.sha256, d.copy.value.size, None, now)
  }

  function RunError(s: Tables, lab: Id, run: Option<Id>): Option<Error> {
    if run.None? then None
    else if run.value !in s.runs then Some(RunMissing)
    else if s.runs[run.value].lab != lab then Some(RunMismatch)
    else None
  }

  function CreateExport(
    c: Config, s: Tables, lab: Id, source: string, run: Option<Id>, d: ExportDraft, now: Time): Outcome
  {
    if lab !in s.labs then Refused(s, LabMissing)
    else if lab !in s.storage then Refused(s, LabStorageMissing)
    else if RunError(s, lab, run).Some? then Refused(s, RunError(s, lab, run).value)
    else if s.labs[lab].profile !in c.profiles then Refused(s, ProfileMissing)
    else
      var p := c.profiles[s.labs[lab].profile];
      var st := s.storage[lab];
      var error := GateError(p, st.exports, source, d);
      if error.Some? then Refused(s, error.value)
      else
        var row := NewExport(p, st, lab, source, run, d, now);
        if d.exportId in s.exports || (row.approvalRequired && d.approvalId in s.approvals) then
          Refused(s, IntegrityError)
        else
          var rows := s.(exports := s.exports[d.exportId := row],
                         events := s.events
                                   + [Event(ExportRequested, d.exportId, Some(lab), Plain)]
                                   + [Event(ExportStaged, d.exportId, Some(lab), Plain)]);
          if row.approvalRequired then
            Done(rows.(
              approvals := s.approvals[d.approvalId := PendingRequest(lab, ExportResource, d.exportId, now)],
              events := rows.events + [Event(ApprovalRequested, d.approvalId, Some(lab), Plain)]))
          else Done(rows)
  }

  function ReleaseError(e: Export, present: bool): Option<Error> {
    if e.state.Rejected? then Some(ExportAlreadyRejected)
    else if e.state.Released? then Some(ExportAlreadyReleased)
    else if e.approvalRequired then Some(ExportNeedsApproval)
    else if !present then Some(ExportSourceMissing)
    else None
  }

  function ReleasedPath(st: Storage, id: Id, e: Export): Path {
    st.root + ["released", Label(id), Name(e.quarantinePath)]
  }

  /** `present`: the quarantined copy is still there. A blocked release commits its event all the same. */
  function ReleaseExport(s: Tables, id: Id, present: bool): Outcome {
    if id !in s.exports then Refused(s, ExportMissing)
    else
      var e := s.exports[id];
      if e.lab !in s.storage then Refused(s, LabStorageMissing)
      else
        match ReleaseError(e, present)
        case Some(error) =>
          if error.ExportNeedsApproval? then
            Outcome(s.(events := s.events + [Event(ExportReleaseBlocked, id, Some(e.lab), Plain)]), Some(error))
          else Refused(s, error)
        case None =>
          var path := ReleasedPath(s.storage[e.lab], id, e);
          Done(s.(
            exports := s.exports[id := e.(state := Released, releasedPath := Some(path), denialReason := None)],
            events := s.events + [Event(ExportReleased, id, Some(e.lab), Plain)]))
  }

  function DenyError(e: Export, reason: string): Option<Error> {
    if e.state.Released? then Some(ExportAlreadyReleased)
    else if e.state.Rejected? then Some(ExportAlreadyRejected)
    else if Blank(reason) then Some(ReasonRequired)
    else None
  }

  function DenyExport(s: Tables, id: Id, reason: string): Outcome {
    if id !in s.exports then Refused(s, ExportMissing)
    else
      var e := s.exports[id];
      match DenyError(e, reason)
      case Some(error) => Refused(s, error)
      case None =>
        Done(s.(
          exports := s.exports[id := e.(state := ExportState.Rejected, denialReason := Some(reason),
                                        releasedPath := None)],
          events := s.events + [Event(ExportDenied, id, Some(e.lab), Plain)]))
  }
}
