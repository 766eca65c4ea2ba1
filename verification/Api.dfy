/**
 * The governed endpoints as they run: they change session rows one assignment at a time, then commit, or
 * raise and lose their work. Each is proved to leave committed exactly what its transition function says.
 */
module Api {
  import opened Basics
  import opened Schema
  import opened Policy
  import opened Governance
  import opened ExportGate
  import opened Files
  import Allocator
  import FileTree

  /** What destroying a lab does to the disk: nothing unless the call gets as far as removing its directories. */
  function Removal(s: Tables, nodes: FileTree.Nodes, managed: Path, lab: Id): FileTree.Change {
    if lab in s.labs && lab in s.storage && s.labs[lab].state != LabState.Destroyed
    then Allocator.Deallocated(nodes, managed, s.storage[lab].root)
    else FileTree.Change(nodes, false)
  }

  /** The row written for a staged export. */
  function ExportRow(lab: Id, source: string, run: Option<Id>, staged: Staged, now: Time): Export {
    Export(lab, run, source, Quarantined, staged.quarantinePath, None, staged.approvalRequired, staged.sha256,
           staged.size, None, now)
  }

  class Endpoints {
    const config: Config

    constructor (config: Config)
      ensures this.config == config
    {
      this.config := config;
    }

    /** Adds a pending approval row for a resource. */
    method RecordApprovalRequest(
      session: Session, id: Id, lab: Id, kind: ResourceType, resource: Id, now: Time)
      modifies session`approvals, session`events
      ensures session.approvals == old(session.approvals)[id := PendingRequest(lab, kind, resource, now)]
      ensures session.events == old(session.events) + [Event(ApprovalRequested, id, Some(lab), Plain)]
    {
      session.approvals := session.approvals[id := PendingRequest(lab, kind, resource, now)];
      session.Write(ApprovalRequested, id, Some(lab), Plain);
    }

    /** On an error the rows are left half written: the caller's session or savepoint undoes them. */
    method CreateLabRecord(session: Session, profile: string, requester: Requester, d: LabDraft, now: Time)
      returns (error: Option<Error>)
      modifies session
      ensures session.committed == old(session.committed)
      ensures error == AddLab(config, old(session.Rows()), profile, requester, d, now).error
      ensures error.None? ==>
        session.Rows() == AddLab(config, old(session.Rows()), profile, requester, d, now).rows
    {
      if profile !in config.profiles {
        return Some(ProfileMissing);
      }
      var decision := config.profiles[profile];
      var approvalRequired := StartNeedsApproval(decision, requester);
      if !d.directories {
        return Some(StorageFailure);
      }
      var clash := d.labId in session.labs || d.labId in session.storage
                   || (approvalRequired && d.approvalId in session.approvals);
      session.labs := session.labs[d.labId := NewLab(decision, approvalRequired, now)];
      session.storage := session.storage[d.labId := Allocation(config.managedRoot, d.labId)];
      if approvalRequired {
        RecordApprovalRequest(session, d.approvalId, d.labId, LabResource, d.labId, now);
      }
      session.Write(LabRequested, d.labId, Some(d.labId), Plain);
      if clash {
        return Some(IntegrityError);
      }
      return None;
    }

    method CreateRunRecord(session: Session, lab: Id, command: string, run: Id, now: Time)
      returns (error: Option<Error>)
      modifies session
      ensures session.committed == old(session.committed)
      ensures error == AddRun(config, old(session.Rows()), lab, command, run, now).error
      ensures error.None? ==> session.Rows() == AddRun(config, old(session.Rows()), lab, command, run, now).rows
    {
      if lab !in session.labs {
        return Some(LabMissing);
      }
      var clash := run in session.runs;
      session.runs := session.runs[run :=
        Run(lab, RunState.Queued, command, Some(now + config.runTimeoutMinutes * 60), None, now)];
      session.Write(RunQueued, run, Some(lab), Plain);
      if clash {
        return Some(IntegrityError);
      }
      return None;
    }

    method PostLab(session: Session, profile: string, requester: Requester, d: LabDraft, now: Time)
      returns (error: Option<Error>)
      requires session.Clean()
      modifies session
      ensures session.Clean()
      ensures Outcome(session.Rows(), error) == AddLab(config, old(session.Rows()), profile, requester, d, now)
    {
      error := CreateLabRecord(session, profile, requester, d, now);
      if error.Some? {
        session.Rollback();
      } else {
        session.Commit();
      }
    }

    method PostRun(session: Session, lab: Id, command: string, run: Id, now: Time) returns (error: Option<Error>)
      requires session.Clean()
      modifies session
      ensures session.Clean()
      ensures Outcome(session.Rows(), error) == AddRun(config, old(session.Rows()), lab, command, run, now)
    {
      error := CreateRunRecord(session, lab, command, run, now);
      if error.Some? {
        session.Rollback();
      } else {
        session.Commit();
      }
    }

    /** Removes the lab's directories and marks it destroyed, in that order. */
    method DeleteLab(session: Session, allocator: Allocator.ManagedStorageAllocator, disk: FileTree.Tree, lab: Id)
      returns (error: Option<Error>)
      requires session.Clean() && allocator.root == config.managedRoot
      modifies session, disk
      ensures session.Clean()
      ensures var removal := Removal(old(session.Rows()), old(disk.nodes), config.managedRoot, lab);
        && Outcome(session.Rows(), error) == DestroyLab(config, old(session.Rows()), lab, removal.ok)
        && disk.nodes == removal.nodes
    {
      if lab !in session.labs {
        return Some(LabMissing);
      }
      if lab !in session.storage {
        return Some(LabStorageMissing);
      }
      if session.labs[lab].state == LabState.Destroyed {
        return Some(LabAlreadyDestroyed);
      }
      var removed := allocator.Destroy(disk, session.storage[lab]);
      if !removed {
        return Some(StorageFailure);
      }
      session.labs := session.labs[lab := session.labs[lab].(state := LabState.Destroyed)];
      session.Write(LabDestroyed, lab, Some(lab), Plain);
      session.Commit();
      return None;
    }

    /** Raises unless the request is still open; an expired one is marked first, and the mark is lost. */
    method EnsureApprovalPending(session: Session, id: Id, now: Time) returns (error: Option<Error>)
      requires id in session.approvals
      modifies session`approvals
      ensures var a := old(session.approvals)[id];
        error == if a.state != ApprovalState.Requested then Some(ApprovalNotPending)
                 else if Overdue(a, now) then Some(ApprovalRequestExpired)
                 else None
      ensures session.approvals
           == if error == Some(ApprovalRequestExpired)
              then old(session.approvals)[id := old(session.approvals)[id].(
                     state := ApprovalState.Expired, approved := false, decidedAt := Some(now))]
              else old(session.approvals)
    {
      var row := session.approvals[id];
      if row.state != ApprovalState.Requested {
        return Some(ApprovalNotPending);
      }
      if row.expiresAt.Some? && row.expiresAt.value <= now {
        row := row.(state := ApprovalState.Expired, approved := false, decidedAt := Some(now));
        session.approvals := session.approvals[id := row];
        return Some(ApprovalRequestExpired);
      }
      return None;
    }

    /** Decides the approval and moves the row it is about; on an error some of that may be done already. */
    method ApplyDecision(session: Session, id: Id, d: Decision, actor: string, comment: Option<string>, now: Time)
      returns (error: Option<Error>)
      requires id in session.approvals
      modifies session`approvals, session`labs, session`exports
      ensures error == DecisionError(old(session.Rows()), id, d, comment, now)
      ensures error.None? ==>
        session.Rows() == Governance.Decide(old(session.Rows()), id, d, actor, comment, now).rows
                            .(events := session.events)
    {
      error := EnsureApprovalPending(session, id, now);
      if error.Some? {
        return;
      }
      if d.Deny? && (comment.None? || Blank(comment.value)) {
        return Some(CommentRequired);
      }
      var row := session.approvals[id];
      row := row.(state := if d.Approve? then ApprovalState.Approved else ApprovalState.Rejected);
      row := row.(approved := d.Approve?);
      row := row.(comment := comment);
      row := row.(decidedBy := Some(actor));
      row := row.(decidedAt := Some(now));
      session.approvals := session.approvals[id := row];
      if row.resourceType.LabResource? {
        if row.resource !in session.labs {
          return Some(LabMissing);
        }
        var lab := session.labs[row.resource];
        session.labs := session.labs[row.resource :=
          lab.(state := if d.Approve? then LabState.Approved else LabState.Failed)];
      } else if row.resourceType.ExportResource? {
        if row.resource !in session.exports {
          return Some(ExportMissing);
        }
        var x := session.exports[row.resource];
        if d.Approve? {
          x := x.(approvalRequired := false);
          x := x.(state := ExportState.Approved);
          x := x.(denialReason := None);
        } else {
          x := x.(state := ExportState.Rejected);
          x := x.(denialReason := comment);
        }
        session.exports := session.exports[row.resource := x];
      }
    }

    /** The approve and deny endpoints. */
    method Decide(session: Session, id: Id, d: Decision, actor: string, comment: Option<string>, now: Time)
      returns (error: Option<Error>)
      requires session.Clean()
      modifies session
      ensures session.Clean()
      ensures Outcome(session.Rows(), error)
           == Governance.Decide(old(session.Rows()), id, d, actor, comment, now)
    {
      if id !in session.approvals {
        return Some(ApprovalMissing);
      }
      var lab := session.approvals[id].lab;
      error := ApplyDecision(session, id, d, actor, comment, now);
      if error.Some? {
        session.Rollback();
        return;
      }
      session.Write(DecisionKind(d), id, lab, Plain);
      session.Commit();
    }

    /** Adds the row of a staged export, and its approval request if it needs one. */
    method RecordExport(
      session: Session, lab: Id, source: string, run: Option<Id>, staged: Staged,
      exportId: Id, approvalId: Id, now: Time)
      returns (clash: bool)
      modifies session`exports, session`approvals, session`events
      ensures clash <==> exportId in old(session.exports)
                         || (staged.approvalRequired && approvalId in old(session.approvals))
      ensures session.exports == old(session.exports)[exportId := ExportRow(lab, source, run, staged, now)]
      ensures session.approvals
           == if staged.approvalRequired
              then old(session.approvals)[approvalId := PendingRequest(lab, ExportResource, exportId, now)]
              else old(session.approvals)
      ensures session.events
           == old(session.events) + [Event(ExportStaged, exportId, Some(lab), Plain)]
              + (if staged.approvalRequired then [Event(ApprovalRequested, approvalId, Some(lab), Plain)] else [])
    {
      clash := exportId in session.exports || (staged.approvalRequired && approvalId in session.approvals);
      session.exports := session.exports[exportId := ExportRow(lab, source, run, staged, now)];
      session.Write(ExportStaged, exportId, Some(lab), Plain);
      if staged.approvalRequired {
        RecordApprovalRequest(session, approvalId, lab, ExportResource, exportId, now);
      }
    }

    /** What the endpoint looks up before it stages anything. */
    method CheckExport(session: Session, lab: Id, run: Option<Id>) returns (error: Option<Error>)
      ensures error
           == if lab !in session.labs then Some(LabMissing)
              else if lab !in session.storage then Some(LabStorageMissing)
              else RunError(session.Rows(), lab, run)
    {
      if lab !in session.labs {
        return Some(LabMissing);
      }
      if lab !in session.storage {
        return Some(LabStorageMissing);
      }
      if run.Some? {
        if run.value !in session.runs {
          return Some(RunMissing);
        }
        if session.runs[run.value].lab != lab {
          return Some(RunMismatch);
        }
      }
      return None;
    }

    /** The body of the export endpoint, without the commit; on an error some rows may be written already. */
    method StageExport<S>(
      session: Session, gate: ExportGate<S>, disk: Disk,
      lab: Id, source: string, run: Option<Id>, exportId: Id, approvalId: Id, now: Time)
      returns (error: Option<Error>)
      modifies session, disk
      ensures session.committed == old(session.committed)
      ensures var d := DraftFor(gate.hash, old(session.Rows()), old(disk.files), lab, source, exportId, approvalId);
        var o := CreateExport(config, old(session.Rows()), lab, source, run, d, now);
        error == o.error && (error.None? ==> session.Rows() == o.rows)
      ensures disk.files == StagedFiles(config, old(session.Rows()), old(disk.files), lab, source, run, exportId)
    {
      error := CheckExport(session, lab, run);
      if error.Some? {
        return;
      }
      var storage := session.storage[lab];
      session.Write(ExportRequested, exportId, Some(lab), Plain);
      if session.labs[lab].profile !in config.profiles {
        return Some(ProfileMissing);
      }
      var staged := gate.StageExport(disk, exportId, config.profiles[session.labs[lab].profile], storage, source);
      if staged.Err? {
        return Some(staged.error);
      }
      var clash := RecordExport(session, lab, source, run, staged.value, exportId, approvalId, now);
      if clash {
        return Some(IntegrityError);
      }
      return None;
    }

    method PostExport<S>(
      session: Session, gate: ExportGate<S>, disk: Disk,
      lab: Id, source: string, run: Option<Id>, exportId: Id, approvalId: Id, now: Time)
      returns (error: Option<Error>)
      requires session.Clean()
      modifies session, disk
      ensures session.Clean()
      ensures var d := DraftFor(gate.hash, old(session.Rows()), old(disk.files), lab, source, exportId, approvalId);
        Outcome(session.Rows(), error) == CreateExport(config, old(session.Rows()), lab, source, run, d, now)
      ensures disk.files == StagedFiles(config, old(session.Rows()), old(disk.files), lab, source, run, exportId)
    {
      error := StageExport(session, gate, disk, lab, source, run, exportId, approvalId, now);
      if error.Some? {
        session.Rollback();
      } else {
        session.Commit();
      }
    }

    method Release<S>(session: Session, gate: ExportGate<S>, disk: Disk, id: Id) returns (error: Option<Error>)
      requires session.Clean()
      modifies session, disk
      ensures session.Clean()
      ensures Outcome(session.Rows(), error)
           == ReleaseExport(
                old(session.Rows()), id,
                id in old(session.exports) && old(session.exports)[id].quarantinePath in old(disk.files))
      ensures disk.files == ReleasedFiles(old(session.Rows()), old(disk.files), id)
    {
      if id !in session.exports {
        return Some(ExportMissing);
      }
      var row := session.exports[id];
      if row.lab !in session.storage {
        return Some(LabStorageMissing);
      }
      var released := gate.ReleaseExport(disk, id, row, session.storage[row.lab]);
      if released.Err? {
        error := Some(released.error);
        if released.error.ExportNeedsApproval? {
          session.Write(ExportReleaseBlocked, id, Some(row.lab), Plain);
          session.Commit();
        }
        return;
      }
      row := row.(state := Released);
      row := row.(releasedPath := Some(released.value));
      row := row.(denialReason := None);
      session.exports := session.exports[id := row];
      session.Write(ExportReleased, id, Some(row.lab), Plain);
      session.Commit();
      return None;
    }

    method Deny(session: Session, id: Id, reason: string) returns (error: Option<Error>)
      requires session.Clean()
      modifies session
      ensures session.Clean()
      ensures Outcome(session.Rows(), error) == DenyExport(old(session.Rows()), id, reason)
    {
      if id !in session.exports {
        return Some(ExportMissing);
      }
      var row := session.exports[id];
      if row.state.Released? {
        return Some(ExportAlreadyReleased);
      }
      if row.state.Rejected? {
        return Some(ExportAlreadyRejected);
      }
      if Blank(reason) {
        return Some(ReasonRequired);
      }
      row := row.(state := ExportState.Rejected);
      row := row.(denialReason := Some(reason));
      row := row.(releasedPath := None);
      session.exports := session.exports[id := row];
      session.Write(ExportDenied, id, Some(row.lab), Plain);
      session.Commit();
      return None;
    }
  }
}
