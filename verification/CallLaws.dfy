/** What each call needs to succeed, what each of its errors means, and what it leaves in every column. */
module CallLaws {
  import opened Basics
  import opened Schema
  import opened Policy
  import opened Paths
  import opened Governance
  import opened ControlPlane
  import L = Leases
  import Q = Scheduler

  const DAY: Time := 86400

  // ---------- labs ----------

  /** This requester's lab of this profile may not start before someone approves it. */
  predicate NeedsStartApproval(p: Profile, requester: Requester) {
    p.approvalOnStart || (requester != Human && (p.risk == High || p.risk == Critical))
  }

  /** A request that waits for a decision for a day. */
  predicate Waiting(a: Approval, lab: Id, kind: ResourceType, resource: Id, now: Time) {
    a == Approval(lab := Some(lab), resourceType := kind, resource := resource, state := ApprovalState.Requested,
                  approved := false, comment := None, decidedBy := None, expiresAt := Some(now + DAY),
                  decidedAt := None, createdAt := now)
  }

  /** `after` adds one waiting request under `a` if one is needed, and none otherwise. */
  predicate AsksIff(
    needed: bool, before: map<Id, Approval>, after: map<Id, Approval>, a: Id, lab: Id, kind: ResourceType,
    resource: Id, now: Time)
  {
    if needed then a !in before && a in after && after == before[a := after[a]]
                   && Waiting(after[a], lab, kind, resource, now)
    else after == before
  }

  /** A lab is created with its storage in its own directory, waiting for approval exactly when it needs one. */
  lemma LabCreated(c: Config, s: Tables, profile: string, requester: Requester, d: LabDraft, now: Time)
    requires Call(c, s, Step.CreateLab(profile, requester, d, now)).error == None
    ensures var t, id := Next(c, s, Step.CreateLab(profile, requester, d, now)), d.labId;
      && profile in c.profiles && id !in s.labs && id !in s.storage
      && var p := c.profiles[profile];
      var gated, root := NeedsStartApproval(p, requester), c.managedRoot + ["labs", Label(id)];
      && t.labs == s.labs[id := Lab(
           profile := p.name, state := if gated then LabState.PendingApproval else LabState.Approved,
           runtime := p.runtime, destroyAttempts := 0, lastDestroyError := None, createdAt := now)]
      && t.storage == s.storage[id := Storage(
           root := root, workspace := root + ["workspace"], exports := root + ["exports"],
           quarantine := root + ["quarantine"], snapshots := root + ["snapshots"])]
      && AsksIff(gated, s.approvals, t.approvals, d.approvalId, id, LabResource, id, now)
      && t.events == s.events
           + (if gated then [Event(ApprovalRequested, d.approvalId, Some(id), Plain)] else [])
           + [Event(LabRequested, id, Some(id), Plain)]
  {
    LabAnswered(c, s, profile, requester, d, now);
    LabAdded(c, s, profile, requester, d, now);
    LabAsks(c, s, profile, requester, d, now);
  }

  lemma LabAdded(c: Config, s: Tables, profile: string, requester: Requester, d: LabDraft, now: Time)
    requires AddLab(c, s, profile, requester, d, now).error == None && profile in c.profiles
    ensures var t, id := AddLab(c, s, profile, requester, d, now).rows, d.labId;
      && t.labs == s.labs[id := NewLab(c.profiles[profile], NeedsStartApproval(c.profiles[profile], requester), now)]
      && t.storage == s.storage[id := Allocation(c.managedRoot, id)]
  {
  }

  lemma LabAsks(c: Config, s: Tables, profile: string, requester: Requester, d: LabDraft, now: Time)
    requires AddLab(c, s, profile, requester, d, now).error == None && profile in c.profiles
    ensures var t, id, gated := AddLab(c, s, profile, requester, d, now).rows, d.labId,
                                NeedsStartApproval(c.profiles[profile], requester);
      && AsksIff(gated, s.approvals, t.approvals, d.approvalId, id, LabResource, id, now)
      && t.events == s.events
           + (if gated then [Event(ApprovalRequested, d.approvalId, Some(id), Plain)] else [])
           + [Event(LabRequested, id, Some(id), Plain)]
  {
  }

  /** What the answer to a lab request means. */
  lemma LabAnswered(c: Config, s: Tables, profile: string, requester: Requester, d: LabDraft, now: Time)
    ensures var taken := d.labId in s.labs || d.labId in s.storage
      || (profile in c.profiles && NeedsStartApproval(c.profiles[profile], requester) && d.approvalId in s.approvals);
      match Call(c, s, Step.CreateLab(profile, requester, d, now)).error
      case None => profile in c.profiles && d.directories && !taken
      case Some(ProfileMissing) => profile !in c.profiles
      case Some(StorageFailure) => profile in c.profiles && !d.directories
      case Some(IntegrityError) => profile in c.profiles && d.directories && taken
      case Some(_) => false
  {
  }

  /** Deleting a lab marks it and nothing else, and is refused unless its files could be removed where they belong. */
  lemma LabDeleted(c: Config, s: Tables, lab: Id, removed: bool)
    ensures var o, inside := Call(c, s, Step.DestroyLab(lab, removed)),
                             lab in s.storage && IsPrefix(c.managedRoot, Norm(s.storage[lab].root));
      match o.error
      case None =>
        && lab in s.labs && lab in s.storage && s.labs[lab].state != LabState.Destroyed && inside && removed
        && o.rows == s.(labs := s.labs[lab := s.labs[lab].(state := LabState.Destroyed)],
                        events := s.events + [Event(LabDestroyed, lab, Some(lab), Plain)])
      case Some(LabMissing) => lab !in s.labs
      case Some(LabStorageMissing) => lab in s.labs && lab !in s.storage
      case Some(LabAlreadyDestroyed) =>
        lab in s.labs && lab in s.storage && s.labs[lab].state == LabState.Destroyed
      case Some(StorageFailure) =>
        lab in s.labs && lab in s.storage && s.labs[lab].state != LabState.Destroyed && !(inside && removed)
      case Some(_) => false
  {
  }

  /** A run is queued for any lab there is, with the configured minutes to finish. */
  lemma RunCreated(c: Config, s: Tables, lab: Id, command: string, run: Id, now: Time)
    ensures var o := Call(c, s, CreateRun(lab, command, run, now));
      match o.error
      case None =>
        && lab in s.labs && run !in s.runs
        && o.rows == s.(
             runs := s.runs[run := Run(
               lab := lab, state := RunState.Queued, command := command,
               timeoutAt := Some(now + 60 * c.runTimeoutMinutes), finishedAt := None, createdAt := now)],
             events := s.events + [Event(RunQueued, run, Some(lab), Plain)])
      case Some(LabMissing) => lab !in s.labs
      case Some(IntegrityError) => lab in s.labs && run in s.runs
      case Some(_) => false
  {
  }

  // ---------- decisions ----------

  /** Nothing but white space. */
  predicate NothingSaid(text: string) {
    forall ch :: ch in text ==> ch in {' ', '\t', '\n', '\r', 11 as char, 12 as char}
  }

  lemma BlankSaysNothing(text: string)
    ensures Blank(text) <==> NothingSaid(text)
  {
    if Blank(text) {
      forall ch | ch in text ensures ch in {' ', '\t', '\n', '\r', 11 as char, 12 as char} {
        var i :| 0 <= i < |text| && text[i] == ch;
        assert IsSpace(text[i]);
      }
    }
    if NothingSaid(text) {
      forall i | 0 <= i < |text| ensures IsSpace(text[i]) { assert text[i] in text; }
    }
  }

  /** A decision may be given now: the row waits and its expiry, if it has one, is still to come. */
  predicate OpenFor(s: Tables, id: Id, now: Time) {
    && id in s.approvals
    && s.approvals[id].state == ApprovalState.Requested
    && (s.approvals[id].expiresAt != None ==> now < s.approvals[id].expiresAt.value)
  }

  /** The row a request is about is there. */
  predicate SubjectThere(s: Tables, a: Approval) {
    && (a.resourceType == LabResource ==> a.resource in s.labs)
    && (a.resourceType == ExportResource ==> a.resource in s.exports)
  }

  /** What the answer to a decision means. */
  lemma DecisionAnswered(
    c: Config, s: Tables, id: Id, d: Decision, actor: string, comment: Option<string>, now: Time)
    ensures var silent := d == Decision.Deny && (comment == None || NothingSaid(comment.value));
      match Call(c, s, Decide(id, d, actor, comment, now)).error
      case None => OpenFor(s, id, now) && !silent && SubjectThere(s, s.approvals[id])
      case Some(ApprovalMissing) => id !in s.approvals
      case Some(ApprovalNotPending) => id in s.approvals && s.approvals[id].state != ApprovalState.Requested
      case Some(ApprovalRequestExpired) =>
        id in s.approvals && s.approvals[id].state == ApprovalState.Requested && !OpenFor(s, id, now)
      case Some(CommentRequired) => OpenFor(s, id, now) && silent
      case Some(LabMissing) =>
        OpenFor(s, id, now) && !silent
        && s.approvals[id].resourceType == LabResource && s.approvals[id].resource !in s.labs
      case Some(ExportMissing) =>
        OpenFor(s, id, now) && !silent
        && s.approvals[id].resourceType == ExportResource && s.approvals[id].resource !in s.exports
      case Some(_) => false
  {
    if comment.Some? { BlankSaysNothing(comment.value); }
  }

  /** An approval marks its own row, its lab APPROVED or its export APPROVED and free to go, and nothing else. */
  lemma ApprovalGiven(c: Config, s: Tables, id: Id, actor: string, comment: Option<string>, now: Time)
    requires Call(c, s, Decide(id, Approve, actor, comment, now)).error == None
    ensures var t, a := Next(c, s, Decide(id, Approve, actor, comment, now)), s.approvals[id];
      && t == s.(approvals := t.approvals, labs := t.labs, exports := t.exports, events := t.events)
      && t.approvals == s.approvals[id := a.(state := ApprovalState.Approved, approved := true, comment := comment,
                                              decidedBy := Some(actor), decidedAt := Some(now))]
      && t.events == s.events + [Event(ApprovalApproved, id, a.lab, Plain)]
      && t.labs == (if a.resourceType == LabResource then
                      s.labs[a.resource := s.labs[a.resource].(state := LabState.Approved)] else s.labs)
      && t.exports == (if a.resourceType == ExportResource then
                         s.exports[a.resource := s.exports[a.resource].(
                           state := ExportState.Approved, approvalRequired := false, denialReason := None)]
                       else s.exports)
  {
  }

  /** A denial marks its own row, its lab FAILED or its export REJECTED for the reason given, and nothing else. */
  lemma DenialGiven(c: Config, s: Tables, id: Id, actor: string, comment: Option<string>, now: Time)
    requires Call(c, s, Decide(id, Decision.Deny, actor, comment, now)).error == None
    ensures var t, a := Next(c, s, Decide(id, Decision.Deny, actor, comment, now)), s.approvals[id];
      && t == s.(approvals := t.approvals, labs := t.labs, exports := t.exports, events := t.events)
      && t.approvals == s.approvals[id := a.(state := ApprovalState.Rejected, approved := false, comment := comment,
                                              decidedBy := Some(actor), decidedAt := Some(now))]
      && t.events == s.events + [Event(ApprovalDenied, id, a.lab, Plain)]
      && t.labs == (if a.resourceType == LabResource then
                      s.labs[a.resource := s.labs[a.resource].(state := LabState.Failed)] else s.labs)
      && t.exports == (if a.resourceType == ExportResource then
                         s.exports[a.resource := s.exports[a.resource].(
                           state := ExportState.Rejected, denialReason := comment)]
                       else s.exports)
  {
  }

  // ---------- exports ----------

  predicate Begins(text: string, with: string) { |with| <= |text| && text[..|with|] == with }

  /** The run named, if one is, is a run of this lab. */
  predicate RunFits(s: Tables, lab: Id, run: Option<Id>) {
    run != None ==> run.value in s.runs && s.runs[run.value].lab == lab
  }

  /** Everything an export call asks of the rows before it looks at its source. */
  predicate MayExport(c: Config, s: Tables, lab: Id, run: Option<Id>) {
    lab in s.labs && lab in s.storage && RunFits(s, lab, run) && s.labs[lab].profile in c.profiles
  }

  /** Where a guest source leads on the host, if it does not leave the exports root for good. */
  function HostOf(exports: Path, source: string): Option<Path>
    requires Begins(source, "/lab/exports/")
  {
    var root, n := Norm(exports), Net(Segments(source[|"/lab/exports/"|..]));
    if Returns(root, n) then Some(Up(root, n.ups) + n.down) else None
  }

  lemma HostIsResolved(exports: Path, source: string)
    requires Begins(source, "/lab/exports/")
    ensures ResolveSource(exports, source)
         == match HostOf(exports, source) case Some(host) => Ok(host) case None => Err(Escapes)
  {
    AcceptedIff(exports, source[|"/lab/exports/"|..]);
    assert source == "/lab/exports/" + source[|"/lab/exports/"|..];
  }

  /** A guest source that leads to a file somewhere below the exports root. */
  predicate Exportable(exports: Path, source: string, copy: Option<Copy>) {
    && Begins(source, "/lab/exports/")
    && HostOf(exports, source) != None && HostOf(exports, source).value != []
    && copy != None
  }

  /** The checks of the gate, and what each of its refusals means. */
  lemma GateAnswered(p: Profile, exports: Path, source: string, d: ExportDraft)
    ensures var guest, approved := Begins(source, "/lab/exports/"), Begins(source, "/artifacts/approved/");
      match GateError(p, exports, source, d)
      case None => Exportable(exports, source, d.copy)
      case Some(PolicyDenied) => !guest && !approved
      case Some(NotAGuestExportPath) => approved
      case Some(PathEscapes) => guest && HostOf(exports, source) == None
      case Some(ExportSourceMissing) =>
        guest && HostOf(exports, source) != None && !Exportable(exports, source, d.copy)
      case Some(_) => false
  {
    assert StartsWith(source, "/lab/exports/") == Begins(source, "/lab/exports/");
    assert StartsWith(source, "/artifacts/approved/") == Begins(source, "/artifacts/approved/");
    if ValidateExport(p, source).allowed { AllowedSourcesIff(p, exports, source, d); }
    if Begins(source, "/lab/exports/") { HostIsResolved(exports, source); }
  }

  /** The checks of an export call, and what each of its refusals means. */
  lemma ExportAnswered(
    c: Config, s: Tables, lab: Id, source: string, run: Option<Id>, d: ExportDraft, now: Time)
    ensures match Call(c, s, StageExport(lab, source, run, d, now)).error
      case None =>
        && MayExport(c, s, lab, run) && Exportable(s.storage[lab].exports, source, d.copy)
        && d.exportId !in s.exports
        && (c.profiles[s.labs[lab].profile].approvalOnExport ==> d.approvalId !in s.approvals)
      case Some(LabMissing) => lab !in s.labs
      case Some(LabStorageMissing) => lab in s.labs && lab !in s.storage
      case Some(RunMissing) => lab in s.labs && lab in s.storage && run != None && run.value !in s.runs
      case Some(RunMismatch) =>
        lab in s.labs && lab in s.storage && !RunFits(s, lab, run) && run.value in s.runs
      case Some(ProfileMissing) =>
        lab in s.labs && lab in s.storage && RunFits(s, lab, run) && s.labs[lab].profile !in c.profiles
      case Some(IntegrityError) =>
        && MayExport(c, s, lab, run) && Exportable(s.storage[lab].exports, source, d.copy)
        && (d.exportId in s.exports
            || (c.profiles[s.labs[lab].profile].approvalOnExport && d.approvalId in s.approvals))
      case Some(why) =>
        && MayExport(c, s, lab, run)
        && GateError(c.profiles[s.labs[lab].profile], s.storage[lab].exports, source, d) == Some(why)
  {
    if MayExport(c, s, lab, run) {
      GateAnswered(c.profiles[s.labs[lab].profile], s.storage[lab].exports, source, d);
    }
  }

  /** The row of an export as it is staged. */
  predicate StagedRow(
    x: Export, st: Storage, lab: Id, source: string, run: Option<Id>, d: ExportDraft, gated: bool, now: Time)
  {
    && Exportable(st.exports, source, d.copy)
    && var host := HostOf(st.exports, source).value;
    x == Export(
      lab := lab, run := run, source := source, state := Quarantined,
      quarantinePath := st.quarantine + [Label(d.exportId), host[|host| - 1]],
      releasedPath := None, approvalRequired := gated, sha256 := d.copy.value.sha256, size := d.copy.value.size,
      denialReason := None, createdAt := now)
  }

  lemma NewExportIsStaged(
    p: Profile, st: Storage, lab: Id, source: string, run: Option<Id>, d: ExportDraft, now: Time)
    requires GateError(p, st.exports, source, d).None?
    ensures StagedRow(NewExport(p, st, lab, source, run, d, now), st, lab, source, run, d, p.approvalOnExport, now)
  {
    GatePassed(p, st.exports, source, d);
    var host := HostOf(st.exports, source).value;
    assert Name(host) == host[|host| - 1];
    assert NewExport(p, st, lab, source, run, d, now).quarantinePath == st.quarantine + [Label(d.exportId), Name(host)];
  }

  lemma GatePassed(p: Profile, exports: Path, source: string, d: ExportDraft)
    requires GateError(p, exports, source, d).None?
    ensures Exportable(exports, source, d.copy) && ResolveSource(exports, source) == Ok(HostOf(exports, source).value)
    ensures ValidateExport(p, source).approvalRequired == p.approvalOnExport
  {
    GateAnswered(p, exports, source, d);
    HostIsResolved(exports, source);
  }

  /** A staged export is quarantined under its own id, with its copy's digest and size, and a request if need be. */
  lemma ExportIsStaged(c: Config, s: Tables, lab: Id, source: string, run: Option<Id>, d: ExportDraft, now: Time)
    requires Call(c, s, StageExport(lab, source, run, d, now)).error == None
    ensures MayExport(c, s, lab, run)
    ensures var t, id := Next(c, s, StageExport(lab, source, run, d, now)), d.exportId;
      var gated := c.profiles[s.labs[lab].profile].approvalOnExport;
      && id in t.exports && t.exports == s.exports[id := t.exports[id]]
      && StagedRow(t.exports[id], s.storage[lab], lab, source, run, d, gated, now)
      && AsksIff(gated, s.approvals, t.approvals, d.approvalId, lab, ExportResource, id, now)
      && t.events == s.events
           + [Event(ExportRequested, id, Some(lab), Plain)]
           + [Event(ExportStaged, id, Some(lab), Plain)]
           + (if gated then [Event(ApprovalRequested, d.approvalId, Some(lab), Plain)] else [])
  {
    ExportAnswered(c, s, lab, source, run, d, now);
    var p, st := c.profiles[s.labs[lab].profile], s.storage[lab];
    assert GateError(p, st.exports, source, d).None?;
    NewExportIsStaged(p, st, lab, source, run, d, now);
    StagedRows(c, s, lab, source, run, d, now, NewExport(p, st, lab, source, run, d, now));
  }

  lemma StagedRows(
    c: Config, s: Tables, lab: Id, source: string, run: Option<Id>, d: ExportDraft, now: Time, row: Export)
    requires CreateExport(c, s, lab, source, run, d, now).error == None && MayExport(c, s, lab, run)
    requires var p, st := c.profiles[s.labs[lab].profile], s.storage[lab];
      GateError(p, st.exports, source, d).None? && row == NewExport(p, st, lab, source, run, d, now)
    ensures var t, id := CreateExport(c, s, lab, source, run, d, now).rows, d.exportId;
      && t.exports == s.exports[id := row]
      && AsksIff(row.approvalRequired, s.approvals, t.approvals, d.approvalId, lab, ExportResource, id, now)
      && t.events == s.events
           + [Event(ExportRequested, id, Some(lab), Plain)]
           + [Event(ExportStaged, id, Some(lab), Plain)]
           + (if row.approvalRequired then [Event(ApprovalRequested, d.approvalId, Some(lab), Plain)] else [])
  {
  }

  /** What the answer to a release means: it succeeds exactly on an export that nothing holds back any more. */
  lemma ReleaseAnswered(c: Config, s: Tables, id: Id, present: bool)
    ensures var there := id in s.exports && s.exports[id].lab in s.storage;
      match Call(c, s, Step.ReleaseExport(id, present)).error
      case None =>
        there && s.exports[id].state !in {ExportState.Rejected, Released} && !s.exports[id].approvalRequired && present
      case Some(ExportMissing) => id !in s.exports
      case Some(LabStorageMissing) => id in s.exports && s.exports[id].lab !in s.storage
      case Some(ExportAlreadyRejected) => there && s.exports[id].state == ExportState.Rejected
      case Some(ExportAlreadyReleased) => there && s.exports[id].state == Released
      case Some(ExportNeedsApproval) =>
        there && s.exports[id].state !in {ExportState.Rejected, Released} && s.exports[id].approvalRequired
      case Some(ExportSourceMissing) =>
        there && s.exports[id].state !in {ExportState.Rejected, Released} && !s.exports[id].approvalRequired && !present
      case Some(_) => false
  {
  }

  /** A release marks the export RELEASED, under its lab's own directory for it, and changes nothing else. */
  lemma ExportIsReleased(c: Config, s: Tables, id: Id, present: bool)
    requires Call(c, s, Step.ReleaseExport(id, present)).error == None
    requires s.exports[id].quarantinePath != []
    ensures id in s.exports && s.exports[id].lab in s.storage
    ensures var x := s.exports[id];
      var name := x.quarantinePath[|x.quarantinePath| - 1];
      Next(c, s, Step.ReleaseExport(id, present)) == s.(
        exports := s.exports[id := x.(
          state := Released, denialReason := None,
          releasedPath := Some(s.storage[x.lab].root + ["released", Label(id), name]))],
        events := s.events + [Event(ExportReleased, id, Some(x.lab), Plain)])
  {
  }

  /**
   * Once an outstanding request about an export is approved, whatever happened to the export before, releasing it
   * succeeds exactly if its copy is still there and its lab has storage, and then the row is RELEASED.
   */
  lemma ApprovedExportIsReleased(
    c: Config, s: Tables, a: Id, actor: string, comment: Option<string>, now: Time, present: bool)
    requires Call(c, s, Decide(a, Approve, actor, comment, now)).error == None
    requires s.approvals[a].resourceType == ExportResource
    ensures var id, t := s.approvals[a].resource, Next(c, s, Decide(a, Approve, actor, comment, now));
      var o := Call(c, t, Step.ReleaseExport(id, present));
      && id in s.exports && id in o.rows.exports
      && (o.error == None <==> present && s.exports[id].lab in s.storage)
      && o.rows.exports[id].state == (if o.error == None then Released else ExportState.Approved)
  {
    ApprovalGiven(c, s, a, actor, comment, now);
  }

  /** A denial rejects any export that was neither released nor rejected, for the reason given. */
  lemma ExportIsDenied(c: Config, s: Tables, id: Id, reason: string)
    ensures var o := Call(c, s, Step.DenyExport(id, reason));
      match o.error
      case None =>
        && id in s.exports && s.exports[id].state !in {ExportState.Rejected, Released} && !NothingSaid(reason)
        && o.rows == s.(
             exports := s.exports[id := s.exports[id].(
               state := ExportState.Rejected, denialReason := Some(reason), releasedPath := None)],
             events := s.events + [Event(ExportDenied, id, Some(s.exports[id].lab), Plain)])
      case Some(ExportMissing) => id !in s.exports
      case Some(ExportAlreadyReleased) => id in s.exports && s.exports[id].state == Released
      case Some(ExportAlreadyRejected) => id in s.exports && s.exports[id].state == ExportState.Rejected
      case Some(ReasonRequired) =>
        id in s.exports && s.exports[id].state !in {ExportState.Rejected, Released} && NothingSaid(reason)
      case Some(_) => false
  {
    BlankSaysNothing(reason);
  }

  // ---------- leases ----------

  /** What the answer to a lease request means, and the row it stores: the secret must be allowed to the lab. */
  lemma LeaseAnswered(
    c: Config, broker: L.Broker, s: Tables, lab: Id, secret: string, ttlMinutes: int, lease: Id, now: Time)
    ensures var o := Call(c, s, IssueLease(broker, lab, secret, ttlMinutes, lease, now));
      var known := ttlMinutes >= 1 && lab in s.labs && s.labs[lab].profile in c.profiles;
      var allowed := known && secret in c.profiles[s.labs[lab].profile].allowedSecrets;
      match o.error
      case None =>
        && allowed && secret in broker && lease !in s.leases
        && o.rows == s.(
             leases := s.leases[lease := Lease(
               lab := lab, secret := secret, approved := true, expiresAt := now + 60 * ttlMinutes, revokedAt := None,
               createdAt := now)],
             events := s.events + [Event(LeaseIssued, lease, Some(lab), Plain)])
      case Some(TtlTooShort) => ttlMinutes <= 0
      case Some(LabMissing) => ttlMinutes >= 1 && lab !in s.labs
      case Some(ProfileMissing) => ttlMinutes >= 1 && lab in s.labs && s.labs[lab].profile !in c.profiles
      case Some(SecretNotAllowed) => known && !allowed
      case Some(SecretMissing) => allowed && secret !in broker
      case Some(IntegrityError) => allowed && secret in broker && lease in s.leases
      case Some(_) => false
  {
  }

  /** A revocation stamps an open lease and nothing else; a lease that has ended stays as it ended. */
  lemma RevocationAnswered(c: Config, s: Tables, lease: Id, now: Time)
    ensures var o := Call(c, s, RevokeLease(lease, now));
      match o.error
      case None =>
        && lease in s.leases && s.leases[lease].revokedAt == None
        && o.rows == s.(
             leases := s.leases[lease := s.leases[lease].(revokedAt := Some(now))],
             events := s.events + [Event(LeaseRevoked, lease, Some(s.leases[lease].lab), Plain)])
      case Some(LeaseMissing) => lease !in s.leases
      case Some(LeaseAlreadyRevoked) => lease in s.leases && s.leases[lease].revokedAt != None
      case Some(_) => false
  {
  }

  // ---------- jobs ----------

  /** A request that names its requester, asks for one to ten attempts, and carries its action's payload alone. */
  predicate WellAsked(r: Q.JobRequest) {
    && r.requester != "" && 1 <= r.maxAttempts <= 10
    && (r.action == JobAction.CreateLab ==> r.profile != None && r.lab == None && r.command == None)
    && (r.action == StartRun ==> r.profile == None && r.lab != None && r.command != None)
  }

  /** The jobs of this requester that are queued or being dispatched. */
  function Unsettled(s: Tables, requester: string): set<Id> {
    set j | j in s.jobs && s.jobs[j].requester == requester && s.jobs[j].state !in {Succeeded, JobState.Failed}
  }

  lemma UnsettledArePending(s: Tables, requester: string)
    ensures Q.PendingJobs(s.jobs, requester) == Unsettled(s, requester)
  {
  }

  /** What the answer to a job request means, and the row it stores: what was asked, at the moment asked for. */
  lemma JobAnswered(c: Config, s: Tables, r: Q.JobRequest, id: Id, now: Time)
    ensures var o, crowded := Call(c, s, Step.Enqueue(r, id, now)), |Unsettled(s, r.requester)| >= c.quota;
      match o.error
      case None =>
        && WellAsked(r) && !crowded && id !in s.jobs
        && o.rows == s.(
             jobs := s.jobs[id := Job(
               action := r.action, state := JobState.Queued, requester := r.requester, profile := r.profile,
               lab := r.lab, command := r.command,
               scheduledFor := match r.scheduledFor case Some(moment) => moment case None => now,
               attempts := 0, maxAttempts := r.maxAttempts, lastError := None, resultType := None, result := None,
               dispatchedAt := None, completedAt := None, createdAt := now)],
             events := s.events + [Event(JobEnqueued, id, None, Plain)])
      case Some(InvalidRequest) => !WellAsked(r)
      case Some(QuotaExceeded) => WellAsked(r) && crowded
      case Some(IntegrityError) => WellAsked(r) && !crowded && id in s.jobs
      case Some(_) => false
  {
    UnsettledArePending(s, r.requester);
  }
}
