/** What an export call and a release do to the disk, and when they succeed, told of the files themselves. */
module CopyLaws {
  import opened Basics
  import opened Schema
  import opened Governance
  import opened Files
  import opened ExportGate
  import opened ControlPlane
  import opened CallLaws
  import opened Quarantine

  // ---------- staging ----------

  /** The source is a guest path, and there is a file where it leads, below the exports root. */
  predicate SourceThere(p: Plant, lab: Id, source: string)
    requires lab in p.rows.storage
  {
    && Begins(source, "/lab/exports/")
    && var host := HostOf(p.rows.storage[lab].exports, source);
    host != None && host.value != [] && host.value in p.files
  }

  lemma DraftIsCopy<S>(h: Hash<S>, p: Plant, lab: Id, source: string, e: Id, approvalId: Id)
    requires lab in p.rows.storage && Begins(source, "/lab/exports/")
    ensures var exports, d := p.rows.storage[lab].exports, DraftFor(h, p.rows, p.files, lab, source, e, approvalId);
      && d.exportId == e && d.approvalId == approvalId
      && (Exportable(exports, source, d.copy) <==> SourceThere(p, lab, source))
      && (SourceThere(p, lab, source) ==>
            var data := p.files[HostOf(exports, source).value]; d.copy == Some(Copy(Digest(h, data), |data|)))
  {
    HostIsResolved(p.rows.storage[lab].exports, source);
  }

  lemma StagingIsHost(c: Config, p: Plant, lab: Id, source: string, run: Option<Id>)
    requires MayExport(c, p.rows, lab, run)
    ensures Staging(c, p.rows, p.files, lab, source, run)
         == if SourceThere(p, lab, source) then HostOf(p.rows.storage[lab].exports, source) else None
  {
    var st, profile := p.rows.storage[lab], c.profiles[p.rows.labs[lab].profile];
    var d := ExportDraft(0, 0, Some(Copy("", 0)));
    GateAnswered(profile, st.exports, source, d);
    if Begins(source, "/lab/exports/") { HostIsResolved(st.exports, source); }
  }

  lemma StageAnswered<S>(
    c: Config, h: Hash<S>, p: Plant, lab: Id, source: string, run: Option<Id>, e: Id, approvalId: Id, now: Time)
    requires MayExport(c, p.rows, lab, run) && e !in p.rows.exports && approvalId !in p.rows.approvals
    ensures var d := DraftFor(h, p.rows, p.files, lab, source, e, approvalId);
      Call(c, p.rows, StageExport(lab, source, run, d, now)).error == None <==> SourceThere(p, lab, source)
  {
    var d := DraftFor(h, p.rows, p.files, lab, source, e, approvalId);
    ExportAnswered(c, p.rows, lab, source, run, d, now);
    GateAnswered(c.profiles[p.rows.labs[lab].profile], p.rows.storage[lab].exports, source, d);
    if Begins(source, "/lab/exports/") { DraftIsCopy(h, p, lab, source, e, approvalId); }
  }

  /**
   * An export call that the rows let through succeeds exactly if its source is a guest path that leads to a file below
   * the exports root. It then puts that file's bytes, and nothing else, into the quarantine directory of the export,
   * under the file's name, and the row holds their digest and size; otherwise it changes nothing.
   */
  lemma StageCopies<S>(
    c: Config, h: Hash<S>, p: Plant, lab: Id, source: string, run: Option<Id>, e: Id, approvalId: Id, now: Time)
    requires MayExport(c, p.rows, lab, run) && e !in p.rows.exports && approvalId !in p.rows.approvals
    ensures var m := Stages(lab, source, run, e, approvalId, now);
      var q := After(c, h, p, m);
      && (e in q.rows.exports <==> SourceThere(p, lab, source))
      && (!SourceThere(p, lab, source) ==> q == p)
      && (SourceThere(p, lab, source) ==>
            var host := HostOf(p.rows.storage[lab].exports, source).value;
            var copied := p.rows.storage[lab].quarantine + [Label(e), host[|host| - 1]];
            && q.files == p.files[copied := p.files[host]]
            && q.rows.exports[e].quarantinePath == copied
            && q.rows.exports[e].sha256 == Digest(h, p.files[host]) && q.rows.exports[e].size == |p.files[host]|)
  {
    var d := DraftFor(h, p.rows, p.files, lab, source, e, approvalId);
    StageAnswered(c, h, p, lab, source, run, e, approvalId, now);
    StagingIsHost(c, p, lab, source, run);
    if SourceThere(p, lab, source) {
      DraftIsCopy(h, p, lab, source, e, approvalId);
      ExportIsStaged(c, p.rows, lab, source, run, d, now);
    } else {
      RefusedCommitsNothing(c, p.rows, StageExport(lab, source, run, d, now));
    }
  }

  /** And those are the bytes that the quarantine results call staged. */
  lemma StagedAreCopied<S>(
    c: Config, h: Hash<S>, p: Plant, lab: Id, source: string, run: Option<Id>, e: Id, approvalId: Id, now: Time,
    staged: map<Id, Content>)
    requires MayExport(c, p.rows, lab, run) && SourceThere(p, lab, source)
    ensures StagedNow(c, h, p, Stages(lab, source, run, e, approvalId, now), staged)
         == staged[e := p.files[HostOf(p.rows.storage[lab].exports, source).value]]
  {
    StagingIsHost(c, p, lab, source, run);
  }

  // ---------- releasing ----------

  /** Nothing holds the export back, and its quarantined copy is there. */
  predicate MayLeave(p: Plant, e: Id)
    requires e in p.rows.exports
  {
    var x := p.rows.exports[e];
    x.state !in {ExportState.Rejected, Released} && !x.approvalRequired && x.quarantinePath in p.files
  }

  /**
   * A release succeeds exactly if nothing holds the export back and its quarantined copy is there, and puts those
   * bytes at the path it records, in the export's own directory under its lab's root; a refused one leaves the disk.
   */
  lemma ReleaseCopies<S>(c: Config, h: Hash<S>, p: Plant, e: Id)
    requires e in p.rows.exports && p.rows.exports[e].lab in p.rows.storage && p.rows.exports[e].quarantinePath != []
    ensures var x, q := p.rows.exports[e], After(c, h, p, Releases(e));
      var out := p.rows.storage[x.lab].root + ["released", Label(e), x.quarantinePath[|x.quarantinePath| - 1]];
      && e in q.rows.exports
      && (MayLeave(p, e) ==> q.rows.exports[e].state == Released && q.rows.exports[e].releasedPath == Some(out)
                             && q.files == p.files[out := p.files[x.quarantinePath]])
      && (!MayLeave(p, e) ==> q.files == p.files && q.rows.exports == p.rows.exports)
  {
    var there := p.rows.exports[e].quarantinePath in p.files;
    ReleaseAnswered(c, p.rows, e, there);
    FilesReleased(p, e);
    if MayLeave(p, e) { ExportIsReleased(c, p.rows, e, there); }
    else { RefusedCommitsNothing(c, p.rows, Step.ReleaseExport(e, there)); }
  }

  lemma FilesReleased(p: Plant, e: Id)
    requires e in p.rows.exports && p.rows.exports[e].lab in p.rows.storage && p.rows.exports[e].quarantinePath != []
    ensures var x := p.rows.exports[e];
      var out := p.rows.storage[x.lab].root + ["released", Label(e), x.quarantinePath[|x.quarantinePath| - 1]];
      ReleasedFiles(p.rows, p.files, e) == if MayLeave(p, e) then p.files[out := p.files[x.quarantinePath]] else p.files
  {
  }
}
