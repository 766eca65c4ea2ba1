/** Rows and files together: what is released is what was staged, whatever labs write in between. */
module Quarantine {
  import opened Basics
  import opened Schema
  import opened Policy
  import opened Governance
  import opened Files
  import opened ExportGate
  import opened ControlPlane
  import opened GovernanceLaws
  import opened ReconcilerLaws
  import R = Reconciler
  import Q = Scheduler

  /** The database and the disk. */
  datatype Plant = Plant(rows: Tables, files: map<Path, Content>)

  /** What may happen to them: guests write their own areas, storage is lost, and the control plane steps. */
  datatype Move =
    | GuestWrites(lab: Id, path: Path, content: Option<Content>)
    | Loses(gone: set<Path>)
    | Stages(lab: Id, source: string, forRun: Option<Id>, exportId: Id, approvalId: Id, now: Time)
    | Releases(exported: Id)
    | Other(step: Step)

  /** The directories mounted into a lab. */
  predicate InGuestArea(c: Config, lab: Id, p: Path) {
    var a := Allocation(c.managedRoot, lab);
    IsPrefix(a.workspace, p) || IsPrefix(a.exports, p)
  }

  /** Guests write only what is mounted; export ids are fresh; exports and releases come with their files. */
  predicate Sound(c: Config, p: Plant, m: Move) {
    match m
    case GuestWrites(lab, path, _) => InGuestArea(c, lab, path)
    case Stages(_, _, _, exportId, _, _) => exportId !in p.rows.exports
    case Other(step) => !step.StageExport? && !step.ReleaseExport?
    case _ => true
  }

  /** The control-plane step of a move, if it is one. */
  function StepOf<S>(c: Config, h: Hash<S>, p: Plant, m: Move): Option<Step> {
    match m
    case Stages(lab, source, run, exportId, approvalId, now) =>
      Some(StageExport(lab, source, run, DraftFor(h, p.rows, p.files, lab, source, exportId, approvalId), now))
    case Releases(e) =>
      Some(ReleaseExport(e, e in p.rows.exports && p.rows.exports[e].quarantinePath in p.files))
    case Other(step) => Some(step)
    case _ => None
  }

  function FilesAfter(c: Config, p: Plant, m: Move): map<Path, Content> {
    match m
    case GuestWrites(_, path, content) => if content.Some? then p.files[path := content.value] else p.files - {path}
    case Loses(gone) => p.files - gone
    case Stages(lab, source, run, exportId, _, _) => StagedFiles(c, p.rows, p.files, lab, source, run, exportId)
    case Releases(e) => ReleasedFiles(p.rows, p.files, e)
    case Other(_) => p.files
  }

  function After<S>(c: Config, h: Hash<S>, p: Plant, m: Move): Plant {
    var step := StepOf(c, h, p, m);
    Plant(if step.Some? then Next(c, p.rows, step.value) else p.rows, FilesAfter(c, p, m))
  }

  function RunMoves<S>(c: Config, h: Hash<S>, p: Plant, moves: seq<Move>): Plant {
    if moves == [] then p
    else After(c, h, RunMoves(c, h, p, moves[..|moves| - 1]), moves[|moves| - 1])
  }

  ghost predicate AllSound<S>(c: Config, h: Hash<S>, p: Plant, moves: seq<Move>) {
    forall i :: 0 <= i < |moves| ==> Sound(c, RunMoves(c, h, p, moves[..i]), moves[i])
  }

  /** The bytes each export copied when it was staged. */
  function StagedBytes<S>(c: Config, h: Hash<S>, p: Plant, moves: seq<Move>): map<Id, Content> {
    if moves == [] then map[]
    else
      var n := |moves| - 1;
      StagedNow(c, h, RunMoves(c, h, p, moves[..n]), moves[n], StagedBytes(c, h, p, moves[..n]))
  }

  function StagedNow<S>(c: Config, h: Hash<S>, p: Plant, m: Move, staged: map<Id, Content>): map<Id, Content> {
    if !m.Stages? then staged
    else
      match Staging(c, p.rows, p.files, m.lab, m.source, m.forRun)
      case None => staged
      case Some(host) => staged[m.exportId := p.files[host]]
  }

  // ---------- where things are ----------

  /** The directory of a lab that a managed path is in. */
  function Area(c: Config, p: Path): string {
    if |p| > |c.managedRoot| + 2 then p[|c.managedRoot| + 2] else ""
  }

  /** The export that a path in a quarantine or a released directory belongs to. */
  function Owner(c: Config, p: Path): string {
    if |p| > |c.managedRoot| + 3 then p[|c.managedRoot| + 3] else ""
  }

  lemma GuestAreas(c: Config, lab: Id, p: Path)
    requires InGuestArea(c, lab, p)
    ensures Area(c, p) == "workspace" || Area(c, p) == "exports"
  {
    var a, n := Allocation(c.managedRoot, lab), |c.managedRoot| + 2;
    assert a.workspace[n] == "workspace" && a.exports[n] == "exports";
    if IsPrefix(a.workspace, p) { assert p[..|a.workspace|][n] == p[n]; } else { assert p[..|a.exports|][n] == p[n]; }
  }

  lemma QuarantineArea(c: Config, lab: Id, e: Id, name: string)
    ensures var p := Allocation(c.managedRoot, lab).quarantine + [Label(e), name];
      Area(c, p) == "quarantine" && Owner(c, p) == Label(e) && Name(p) == name
  {
  }

  lemma ReleasedArea(c: Config, lab: Id, e: Id, x: Export)
    ensures var p := ReleasedPath(Allocation(c.managedRoot, lab), e, x);
      Area(c, p) == "released" && Owner(c, p) == Label(e)
  {
  }

  // ---------- the invariant ----------

  ghost predicate StorageOk(c: Config, s: Tables) {
    forall l :: l in s.storage ==> s.storage[l] == Allocation(c.managedRoot, l)
  }

  /** An export's copies, where they still exist, hold the bytes it staged, and its row describes those bytes. */
  predicate CopiesOk<S>(c: Config, h: Hash<S>, files: map<Path, Content>, e: Id, x: Export, data: Content) {
    && Area(c, x.quarantinePath) == "quarantine" && Owner(c, x.quarantinePath) == Label(e)
    && x.sha256 == Digest(h, data) && x.size == |data|
    && (x.quarantinePath in files ==> files[x.quarantinePath] == data)
    && (x.releasedPath.Some? ==>
          var r := x.releasedPath.value;
          Area(c, r) == "released" && Owner(c, r) == Label(e) && (r in files ==> files[r] == data))
  }

  ghost predicate Intact<S>(c: Config, h: Hash<S>, p: Plant, staged: map<Id, Content>) {
    && StorageOk(c, p.rows)
    && forall e :: e in p.rows.exports ==> e in staged && CopiesOk(c, h, p.files, e, p.rows.exports[e], staged[e])
  }

  /** Whatever happens to files outside quarantine and released directories, and whatever goes missing, is harmless. */
  lemma FilesAside<S>(
    c: Config, h: Hash<S>, before: map<Path, Content>, after: map<Path, Content>, e: Id, x: Export, data: Content)
    requires CopiesOk(c, h, before, e, x, data)
    requires forall p ::
      p in after && Owner(c, p) == Label(e) && (Area(c, p) == "quarantine" || Area(c, p) == "released") ==>
        p in before && after[p] == before[p]
    ensures CopiesOk(c, h, after, e, x, data)
  {
  }

  lemma GuestsAreHarmless<S>(c: Config, h: Hash<S>, p: Plant, m: Move, staged: map<Id, Content>)
    requires Intact(c, h, p, staged) && Sound(c, p, m) && (m.GuestWrites? || m.Loses?)
    ensures Intact(c, h, After(c, h, p, m), staged)
  {
    if m.GuestWrites? { GuestAreas(c, m.lab, m.path); }
    forall e | e in p.rows.exports
      ensures CopiesOk(c, h, FilesAfter(c, p, m), e, p.rows.exports[e], staged[e])
    {
      FilesAside(c, h, p.files, FilesAfter(c, p, m), e, p.rows.exports[e], staged[e]);
    }
  }

  // ---------- staging ----------

  /** What a stage move does to the rows: nothing, or one new export of the bytes it copied. */
  lemma StageOutcome<S>(c: Config, h: Hash<S>, p: Plant, m: Move)
    requires m.Stages?
    ensures var t := After(c, h, p, m).rows;
      var host := Staging(c, p.rows, p.files, m.lab, m.source, m.forRun);
      && t.storage == p.rows.storage
      && (t.exports == p.rows.exports
          || (host.Some? && m.exportId in t.exports
              && t.exports == p.rows.exports[m.exportId := t.exports[m.exportId]]
              && var x := t.exports[m.exportId];
              && x.quarantinePath == QuarantinePath(p.rows.storage[m.lab], m.exportId, host.value)
              && x.sha256 == Digest(h, p.files[host.value]) && x.size == |p.files[host.value]|
              && x.releasedPath.None?))
  {
  }

  lemma StageKeepsIntact<S>(c: Config, h: Hash<S>, p: Plant, m: Move, staged: map<Id, Content>)
    requires Intact(c, h, p, staged) && Sound(c, p, m) && m.Stages?
    ensures Intact(c, h, After(c, h, p, m), StagedNow(c, h, p, m, staged))
  {
    StageOutcome(c, h, p, m);
    var host := Staging(c, p.rows, p.files, m.lab, m.source, m.forRun);
    if host.Some? {
      StagedCopies(c, h, p, After(c, h, p, m), m.lab, m.exportId, host.value, staged);
    }
  }

  /** A copy into a fresh quarantine directory, recorded or not. */
  lemma StagedCopies<S>(
    c: Config, h: Hash<S>, p: Plant, q: Plant, lab: Id, exportId: Id, host: Path, staged: map<Id, Content>)
    requires Intact(c, h, p, staged) && exportId !in p.rows.exports && lab in p.rows.storage && host in p.files
    requires var path := QuarantinePath(p.rows.storage[lab], exportId, host);
      && q.files == p.files[path := p.files[host]]
      && q.rows.storage == p.rows.storage
      && (q.rows.exports == p.rows.exports
          || (exportId in q.rows.exports
              && q.rows.exports == p.rows.exports[exportId := q.rows.exports[exportId]]
              && var x := q.rows.exports[exportId];
              && x.quarantinePath == path && x.sha256 == Digest(h, p.files[host]) && x.size == |p.files[host]|
              && x.releasedPath.None?))
    ensures Intact(c, h, q, staged[exportId := p.files[host]])
  {
    var path, data := QuarantinePath(p.rows.storage[lab], exportId, host), p.files[host];
    QuarantineArea(c, lab, exportId, Name(host));
    forall e | e in q.rows.exports && e != exportId
      ensures CopiesOk(c, h, q.files, e, q.rows.exports[e], staged[e])
    {
      LabelsDiffer(e, exportId);
      FilesAside(c, h, p.files, q.files, e, p.rows.exports[e], staged[e]);
    }
  }

  lemma LabelsDiffer(a: Id, b: Id)
    requires a != b
    ensures Label(a) != Label(b)
  {
    if Label(a) == Label(b) { LabelInjective(a, b); }
  }

  // ---------- releasing ----------

  lemma ReleaseOutcome<S>(c: Config, h: Hash<S>, p: Plant, m: Move)
    requires m.Releases?
    ensures var q, e := After(c, h, p, m), m.exported;
      && q.rows.storage == p.rows.storage
      && ((q.rows.exports == p.rows.exports && q.files == p.files)
          || (e in p.rows.exports && e in q.rows.exports && p.rows.exports[e].lab in p.rows.storage
              && var x := p.rows.exports[e];
              var path := ReleasedPath(p.rows.storage[x.lab], e, x);
              && x.quarantinePath in p.files
              && q.files == p.files[path := p.files[x.quarantinePath]]
              && q.rows.exports == p.rows.exports[e := q.rows.exports[e]]
              && q.rows.exports[e]
                 == x.(state := Released, releasedPath := Some(path), denialReason := None)))
  {
  }

  lemma ReleaseKeepsIntact<S>(c: Config, h: Hash<S>, p: Plant, m: Move, staged: map<Id, Content>)
    requires Intact(c, h, p, staged) && m.Releases?
    ensures Intact(c, h, After(c, h, p, m), staged)
  {
    ReleaseOutcome(c, h, p, m);
    ReleasedCopies(c, h, p, After(c, h, p, m), m.exported, staged);
  }

  lemma ReleasedCopies<S>(c: Config, h: Hash<S>, p: Plant, q: Plant, e: Id, staged: map<Id, Content>)
    requires Intact(c, h, p, staged) && q.rows.storage == p.rows.storage
    requires (q.rows.exports == p.rows.exports && q.files == p.files)
          || (e in p.rows.exports && e in q.rows.exports && p.rows.exports[e].lab in p.rows.storage
              && var x := p.rows.exports[e];
              var path := ReleasedPath(p.rows.storage[x.lab], e, x);
              && x.quarantinePath in p.files
              && q.files == p.files[path := p.files[x.quarantinePath]]
              && q.rows.exports == p.rows.exports[e := q.rows.exports[e]]
              && q.rows.exports[e]
                 == x.(state := Released, releasedPath := Some(path), denialReason := None))
    ensures Intact(c, h, q, staged)
  {
    if !(q.rows.exports == p.rows.exports && q.files == p.files) {
      var x := p.rows.exports[e];
      ReleasedArea(c, x.lab, e, x);
      OwnRelease(c, h, p.files, q.files, e, x, ReleasedPath(p.rows.storage[x.lab], e, x), staged[e]);
      forall y | y in q.rows.exports && y != e ensures CopiesOk(c, h, q.files, y, q.rows.exports[y], staged[y]) {
        LabelsDiffer(y, e);
        FilesAside(c, h, p.files, q.files, y, p.rows.exports[y], staged[y]);
      }
    }
  }

  lemma OwnRelease<S>(
    c: Config, h: Hash<S>, before: map<Path, Content>, after: map<Path, Content>, e: Id, x: Export, path: Path,
    data: Content)
    requires CopiesOk(c, h, before, e, x, data) && x.quarantinePath in before
    requires Area(c, path) == "released" && Owner(c, path) == Label(e)
    requires after == before[path := before[x.quarantinePath]]
    ensures CopiesOk(c, h, after, e, x.(state := Released, releasedPath := Some(path), denialReason := None), data)
  {
  }

  // ---------- every other step ----------

  /** Exports keep where they came from; a released path may only be forgotten. */
  predicate SameProvenance(x: Export, y: Export) {
    && y.lab == x.lab && y.quarantinePath == x.quarantinePath && y.sha256 == x.sha256 && y.size == x.size
    && (y.releasedPath == x.releasedPath || y.releasedPath.None?)
  }

  ghost predicate ProvenanceKept(s: Tables, t: Tables) {
    t.exports.Keys == s.exports.Keys && forall e :: e in s.exports ==> SameProvenance(s.exports[e], t.exports[e])
  }

  lemma DecideKeepsProvenance(s: Tables, a: Id, d: Decision, actor: string, comment: Option<string>, now: Time)
    ensures ProvenanceKept(s, Governance.Decide(s, a, d, actor, comment, now).rows)
  {
  }

  lemma DenyKeepsProvenance(s: Tables, e: Id, reason: string)
    ensures ProvenanceKept(s, Governance.DenyExport(s, e, reason).rows)
  {
  }

  lemma PassKeepsProvenance(s: Tables, now: Time, w: R.World, max: int)
    ensures ProvenanceKept(s, R.Reconcile(s, now, w, max))
  {
    PassRows(s, now, w, max);
  }

  lemma AddLabStorage(c: Config, s: Tables, profile: string, requester: Requester, d: LabDraft, now: Time)
    requires StorageOk(c, s)
    ensures var t := AddLab(c, s, profile, requester, d, now).rows; StorageOk(c, t) && t.exports == s.exports
  {
  }

  lemma DispatchStorage(c: Config, s: Tables, cb: Q.Callback, now: Time, done: Time)
    requires StorageOk(c, s)
    ensures var t := Q.Dispatch(c, s, cb, now, done).rows; StorageOk(c, t) && t.exports == s.exports
  {
    Q.DueQueryMembers(s.jobs, now);
    var q := Q.DueQuery(s.jobs, now);
    if q != [] {
      var started := Q.Started(s.jobs[q[0]], now);
      AttemptStorage(c, s.(jobs := s.jobs[q[0] := started]), started, cb, now);
    }
  }

  lemma AttemptStorage(c: Config, s: Tables, j: Job, cb: Q.Callback, now: Time)
    requires StorageOk(c, s)
    ensures var t := Q.Attempted(c, s, j, cb, now).rows; StorageOk(c, t) && t.exports == s.exports
  {
    if j.action.CreateLab? && j.profile.Some? {
      AddLabStorage(c, s, j.profile.value, Requester.Scheduler, cb.draft, now);
    }
  }

  lemma OtherKeeps(c: Config, s: Tables, step: Step)
    requires StorageOk(c, s) && !step.StageExport? && !step.ReleaseExport?
    ensures ProvenanceKept(s, Next(c, s, step)) && StorageOk(c, Next(c, s, step))
  {
    match step
    case CreateLab(profile, requester, draft, now) => AddLabStorage(c, s, profile, requester, draft, now);
    case Decide(a, d, actor, comment, now) => DecideKeepsProvenance(s, a, d, actor, comment, now);
    case DenyExport(e, reason) => DenyKeepsProvenance(s, e, reason);
    case Dispatch(cb, now, done) => DispatchStorage(c, s, cb, now, done);
    case Reconcile(now, w) =>
      PassKeepsProvenance(s, now, w, c.maxDestroyAttempts);
      PassRows(s, now, w, c.maxDestroyAttempts);
    case _ => StepFramed(c, s, step);
  }

  lemma OtherKeepsIntact<S>(c: Config, h: Hash<S>, p: Plant, step: Step, staged: map<Id, Content>)
    requires Intact(c, h, p, staged) && !step.StageExport? && !step.ReleaseExport?
    ensures Intact(c, h, Plant(Next(c, p.rows, step), p.files), staged)
  {
    OtherKeeps(c, p.rows, step);
    ProvenanceIntact(c, h, p, Next(c, p.rows, step), staged);
  }

  lemma ProvenanceIntact<S>(c: Config, h: Hash<S>, p: Plant, t: Tables, staged: map<Id, Content>)
    requires Intact(c, h, p, staged) && ProvenanceKept(p.rows, t) && StorageOk(c, t)
    ensures Intact(c, h, Plant(t, p.files), staged)
  {
    forall e | e in t.exports ensures CopiesOk(c, h, p.files, e, t.exports[e], staged[e]) {
      assert SameProvenance(p.rows.exports[e], t.exports[e]);
    }
  }

  lemma MoveKeepsIntact<S>(c: Config, h: Hash<S>, p: Plant, m: Move, staged: map<Id, Content>)
    requires Intact(c, h, p, staged) && Sound(c, p, m)
    ensures Intact(c, h, After(c, h, p, m), StagedNow(c, h, p, m, staged))
  {
    match m
    case GuestWrites(_, _, _) => GuestsAreHarmless(c, h, p, m, staged);
    case Loses(_) => GuestsAreHarmless(c, h, p, m, staged);
    case Stages(_, _, _, _, _, _) => StageKeepsIntact(c, h, p, m, staged);
    case Releases(_) => ReleaseKeepsIntact(c, h, p, m, staged);
    case Other(step) => OtherKeepsIntact(c, h, p, step, staged);
  }

  lemma {:induction false} AlwaysIntact<S>(c: Config, h: Hash<S>, files: map<Path, Content>, moves: seq<Move>)
    requires AllSound(c, h, Plant(EMPTY, files), moves)
    ensures Intact(c, h, RunMoves(c, h, Plant(EMPTY, files), moves), StagedBytes(c, h, Plant(EMPTY, files), moves))
  {
    var p := Plant(EMPTY, files);
    if moves != [] {
      var n := |moves| - 1;
      forall i | 0 <= i < n ensures Sound(c, RunMoves(c, h, p, moves[..n][..i]), moves[..n][i]) {
        assert moves[..n][..i] == moves[..i];
      }
      AlwaysIntact(c, h, files, moves[..n]);
      assert Sound(c, RunMoves(c, h, p, moves[..n]), moves[n]);
      MoveKeepsIntact(c, h, RunMoves(c, h, p, moves[..n]), moves[n], StagedBytes(c, h, p, moves[..n]));
    }
  }

  /**
   * Over every run, whatever guests write and whatever storage is lost: an export's row holds the digest and size of
   * the bytes it staged, its quarantined copy is those bytes or gone, and so is its released copy.
   */
  lemma QuarantineIntegrity<S>(c: Config, h: Hash<S>, files: map<Path, Content>, moves: seq<Move>, e: Id)
    requires AllSound(c, h, Plant(EMPTY, files), moves)
    requires e in RunMoves(c, h, Plant(EMPTY, files), moves).rows.exports
    ensures var p, staged := RunMoves(c, h, Plant(EMPTY, files), moves), StagedBytes(c, h, Plant(EMPTY, files), moves);
      var x := p.rows.exports[e];
      && e in staged
      && x.sha256 == Digest(h, staged[e]) && x.size == |staged[e]|
      && (x.quarantinePath in p.files ==> p.files[x.quarantinePath] == staged[e])
      && (x.releasedPath.Some? && x.releasedPath.value in p.files ==> p.files[x.releasedPath.value] == staged[e])
  {
    AlwaysIntact(c, h, files, moves);
    var p, staged := RunMoves(c, h, Plant(EMPTY, files), moves), StagedBytes(c, h, Plant(EMPTY, files), moves);
    assert CopiesOk(c, h, p.files, e, p.rows.exports[e], staged[e]);
  }

  /** A release that succeeds puts the staged bytes at the released path it records. */
  lemma ReleaseCopiesWhatWasStaged<S>(c: Config, h: Hash<S>, files: map<Path, Content>, moves: seq<Move>, e: Id)
    requires AllSound(c, h, Plant(EMPTY, files), moves)
    requires var p := RunMoves(c, h, Plant(EMPTY, files), moves);
      && e in p.rows.exports && !p.rows.exports[e].state.Released?
      && var q := After(c, h, p, Releases(e)); e in q.rows.exports && q.rows.exports[e].state.Released?
    ensures var p, staged := RunMoves(c, h, Plant(EMPTY, files), moves), StagedBytes(c, h, Plant(EMPTY, files), moves);
      var q := After(c, h, p, Releases(e));
      && q.rows.exports[e].releasedPath.Some? && q.rows.exports[e].releasedPath.value in q.files
      && e in staged && q.files[q.rows.exports[e].releasedPath.value] == staged[e]
  {
    QuarantineIntegrity(c, h, files, moves, e);
    ReleaseOutcome(c, h, RunMoves(c, h, Plant(EMPTY, files), moves), Releases(e));
  }

  /** The rows of every run with files are rows of a run of the control plane, so its safety results apply here. */
  lemma {:induction false} RowsAreReachable<S>(c: Config, h: Hash<S>, files: map<Path, Content>, moves: seq<Move>)
    ensures Reachable(c, RunMoves(c, h, Plant(EMPTY, files), moves).rows)
  {
    var p := Plant(EMPTY, files);
    if moves == [] {
      assert RunFrom(c, EMPTY, []) == EMPTY;
    } else {
      var n := |moves| - 1;
      RowsAreReachable(c, h, files, moves[..n]);
      var before := RunMoves(c, h, p, moves[..n]);
      var steps :| before.rows == RunFrom(c, EMPTY, steps);
      var step := StepOf(c, h, before, moves[n]);
      if step.Some? {
        var all := steps + [step.value];
        assert all[..|all| - 1] == steps;
        assert RunMoves(c, h, p, moves).rows == RunFrom(c, EMPTY, all);
      }
    }
  }
}
