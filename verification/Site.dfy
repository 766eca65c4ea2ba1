/** The whole site: rows and one disk under exports, lab deletions, snapshots and restores, over every run. */
module Site {
  import opened Basics
  import opened Schema
  import opened Governance
  import opened Files
  import opened FileTree
  import opened Snapshots
  import opened SnapshotLaws
  import opened ControlPlane
  import opened Quarantine
  import opened StorageLaws
  import Allocator
  import Api

  /** The database and the disk. */
  datatype Site = Site(rows: Tables, nodes: Nodes)

  /** A snapshot that was taken: the disk before and after, what was asked for, and what was packed. */
  datatype Saved =
    Saved(before: Nodes, taken: Nodes, q: Request, m: Metadata, members: seq<Member>, rels: seq<Path>)

  /** What the past of a site holds: the bytes each export staged, and the snapshots taken. */
  datatype Past = Past(staged: map<Id, Content>, saved: map<Id, Saved>)

  datatype History = History(site: Site, past: Past)

  /** What may happen. `nodes` is the disk afterwards, whatever directories came and went. */
  datatype Act =
    | Moves(move: Move, nodes: Nodes)
    | Deletes(lab: Id)
    | Takes(saved: Saved)
    | FailsToTake(q: Request, nodes: Nodes, members: seq<Member>, rels: seq<Path>)
    | Restores(snapshot: Id, target: Id, runtime: RuntimeClass, now: Time)

  function PlantOf(s: Site): Plant { Plant(s.rows, FilesOf(s.nodes)) }

  /**
   * A move changes files as it does in quarantine runs; snapshots are taken of directories with ordinary names,
   * under fresh ids; and what is restored was taken.
   */
  ghost predicate Possible<T>(c: Config, h: Hash<T>, codec: Codec, x: History, act: Act) {
    match act
    case Moves(move, nodes) =>
      Sound(c, PlantOf(x.site), move) && Rooted(nodes) && FilesOf(nodes) == FilesAfter(c, PlantOf(x.site), move)
    case Deletes(_) => true
    case Takes(s) => s.before == x.site.nodes && s.q.id !in x.past.saved && Genuine(c, h, codec, s)
    case FailsToTake(q, nodes, members, rels) =>
      && q.st == Allocation(c.managedRoot, q.lab) && q.id !in x.past.saved
      && FailedTake(codec, x.site.nodes, nodes, q.st, q.id, members, rels)
    case Restores(snapshot, _, _, _) => snapshot in x.past.saved
  }

  /** The record of a snapshot taken of an allocated lab's workspace. */
  ghost predicate Genuine<T>(c: Config, h: Hash<T>, codec: Codec, s: Saved) {
    && s.q.st == Allocation(c.managedRoot, s.q.lab)
    && Rooted(s.before) && CleanTree(s.before) && IsDir(s.before, s.q.st.workspace)
    && Taken(codec, h, s.before, s.taken, s.q, s.m, s.members, s.rels)
  }

  function RestoreInto(c: Config, codec: Codec, nodes: Nodes, s: Saved, target: Id, runtime: RuntimeClass, now: Time)
    : RestoreOutcome
  {
    Restore(codec, nodes, s.m.archive, target, runtime, Allocation(c.managedRoot, target).workspace, now)
  }

  function WithDisk(x: History, nodes: Nodes): History { x.(site := x.site.(nodes := nodes)) }

  function Recorded(x: History, s: Saved): History { x.(past := x.past.(saved := x.past.saved[s.q.id := s])) }

  function AfterAct<T>(c: Config, h: Hash<T>, codec: Codec, x: History, act: Act): History {
    var s := x.site;
    match act
    case Moves(move, nodes) =>
      History(Site(After(c, h, PlantOf(s), move).rows, nodes),
              x.past.(staged := StagedNow(c, h, PlantOf(s), move, x.past.staged)))
    case Deletes(lab) =>
      var removal := Api.Removal(s.rows, s.nodes, c.managedRoot, lab);
      x.(site := Site(Next(c, s.rows, DestroyLab(lab, removal.ok)), removal.nodes))
    case Takes(taken) => Recorded(WithDisk(x, taken.taken), taken)
    case FailsToTake(_, nodes, _, _) => WithDisk(x, nodes)
    case Restores(id, target, runtime, now) =>
      if id !in x.past.saved then x
      else WithDisk(x, RestoreInto(c, codec, s.nodes, x.past.saved[id], target, runtime, now).nodes)
  }

  function Begin(nodes: Nodes): History { History(Site(EMPTY, nodes), Past(map[], map[])) }

  function RunActs<T>(c: Config, h: Hash<T>, codec: Codec, x: History, acts: seq<Act>): History
    decreases |acts|
  {
    if acts == [] then x else RunActs(c, h, codec, AfterAct(c, h, codec, x, acts[0]), acts[1..])
  }

  ghost predicate AllPossible<T>(c: Config, h: Hash<T>, codec: Codec, x: History, acts: seq<Act>)
    decreases |acts|
  {
    acts != [] ==>
      && Possible(c, h, codec, x, acts[0])
      && AllPossible(c, h, codec, AfterAct(c, h, codec, x, acts[0]), acts[1..])
  }

  // ---------- the invariant ----------

  /** A manifest that still names its snapshot. */
  predicate Names(codec: Codec, data: Content, m: Metadata) {
    var k := codec.load(data);
    k.Some? && k.value.archive == m.archive && k.value.manifest == m.manifest && k.value.runtime.Container?
  }

  /** The two files of a snapshot, where they still exist, are its archive as written and a manifest of it. */
  predicate Kept(codec: Codec, files: map<Path, Content>, s: Saved) {
    && (s.m.archive in files ==> files[s.m.archive] == codec.pack(s.members))
    && (s.m.manifest in files ==> Names(codec, files[s.m.manifest], s.m))
  }

  ghost predicate Whole<T>(c: Config, h: Hash<T>, codec: Codec, x: History) {
    && Rooted(x.site.nodes)
    && Intact(c, h, PlantOf(x.site), x.past.staged)
    && forall id :: id in x.past.saved ==>
         x.past.saved[id].q.id == id && Genuine(c, h, codec, x.past.saved[id])
         && Kept(codec, FilesOf(x.site.nodes), x.past.saved[id])
  }

  predicate HasFiles(nodes: Nodes, s: Saved) { s.m.archive in FilesOf(nodes) && s.m.manifest in FilesOf(nodes) }

  // ---------- where things are ----------

  lemma SnapshotArea<T>(c: Config, h: Hash<T>, codec: Codec, s: Saved)
    requires Genuine(c, h, codec, s)
    ensures Area(c, s.m.archive) == "snapshots" && Area(c, s.m.manifest) == "snapshots"
    ensures Name(s.m.archive) == Label(s.q.id) + ".tar.gz" && Name(s.m.manifest) == Label(s.q.id) + ".json"
  {
  }

  /** The files of snapshots under different ids are different files, whatever the labs. */
  lemma FilesApart(a: Id, b: Id)
    requires a != b
    ensures Label(a) + ".tar.gz" != Label(b) + ".tar.gz" && Label(a) + ".json" != Label(b) + ".json"
    ensures Label(a) + ".tar.gz" != Label(b) + ".json"
  {
    LabelsDiffer(a, b);
    var x, y := Label(a), Label(b);
    assert (x + ".tar.gz")[..|x + ".tar.gz"| - 7] == x && (y + ".tar.gz")[..|y + ".tar.gz"| - 7] == y;
    assert (x + ".json")[..|x + ".json"| - 5] == x && (y + ".json")[..|y + ".json"| - 5] == y;
    assert (x + ".tar.gz")[|x + ".tar.gz"| - 1] == 'z' && (y + ".json")[|y + ".json"| - 1] == 'n';
  }

  /** In this area of all labs files only went missing. */
  ghost predicate Aside(c: Config, area: string, before: map<Path, Content>, after: map<Path, Content>) {
    forall p :: p in after && Area(c, p) == area ==> p in before && after[p] == before[p]
  }

  lemma CopiesAside<T>(c: Config, h: Hash<T>, p: Plant, after: map<Path, Content>, staged: map<Id, Content>)
    requires Intact(c, h, p, staged)
    requires Aside(c, "quarantine", p.files, after) && Aside(c, "released", p.files, after)
    ensures Intact(c, h, p.(files := after), staged)
  {
    forall e | e in p.rows.exports ensures CopiesOk(c, h, after, e, p.rows.exports[e], staged[e]) {
      FilesAside(c, h, p.files, after, e, p.rows.exports[e], staged[e]);
    }
  }

  lemma SnapshotsAside<T>(c: Config, h: Hash<T>, codec: Codec, x: History, after: map<Path, Content>)
    requires Whole(c, h, codec, x) && Aside(c, "snapshots", FilesOf(x.site.nodes), after)
    ensures forall id :: id in x.past.saved ==> Kept(codec, after, x.past.saved[id])
  {
    forall id | id in x.past.saved ensures Kept(codec, after, x.past.saved[id]) {
      SnapshotArea(c, h, codec, x.past.saved[id]);
    }
  }

  // ---------- moves and deletions ----------

  /** No move of an export or a guest touches a snapshot. */
  lemma MovesAside<T>(c: Config, h: Hash<T>, p: Plant, m: Move, staged: map<Id, Content>)
    requires Intact(c, h, p, staged) && Sound(c, p, m)
    ensures Aside(c, "snapshots", p.files, FilesAfter(c, p, m))
  {
    match m
    case GuestWrites(lab, path, _) => GuestAreas(c, lab, path);
    case Stages(lab, source, run, exportId, _, _) =>
      var host := ExportGate.Staging(c, p.rows, p.files, lab, source, run);
      if host.Some? { QuarantineArea(c, lab, exportId, Name(host.value)); }
    case Releases(e) =>
      if e in p.rows.exports { ReleasedArea(c, p.rows.exports[e].lab, e, p.rows.exports[e]); }
    case _ =>
  }

  lemma MoveKeepsWhole<T>(c: Config, h: Hash<T>, codec: Codec, x: History, act: Act)
    requires Whole(c, h, codec, x) && Possible(c, h, codec, x, act) && act.Moves?
    ensures Whole(c, h, codec, AfterAct(c, h, codec, x, act))
  {
    MoveKeepsIntact(c, h, PlantOf(x.site), act.move, x.past.staged);
    MovesAside(c, h, PlantOf(x.site), act.move, x.past.staged);
    SnapshotsAside(c, h, codec, x, FilesOf(act.nodes));
  }

  lemma RemovalShrinks(s: Tables, nodes: Nodes, managed: Path, lab: Id)
    requires Rooted(nodes)
    ensures var after := Api.Removal(s, nodes, managed, lab).nodes;
      && Rooted(after)
      && forall p :: p in FilesOf(after) ==> p in FilesOf(nodes) && FilesOf(after)[p] == FilesOf(nodes)[p]
  {
    if lab in s.labs && lab in s.storage {
      var root, after := s.storage[lab].root, Api.Removal(s, nodes, managed, lab).nodes;
      forall p | p in after && p != [] && after != nodes ensures !IsPrefix(root, Parent(p)) {
        if IsPrefix(root, Parent(p)) { InsideBelow(root, p); }
      }
    }
  }

  lemma DeletionKeepsWhole<T>(c: Config, h: Hash<T>, codec: Codec, x: History, lab: Id)
    requires Whole(c, h, codec, x)
    ensures Whole(c, h, codec, AfterAct(c, h, codec, x, Deletes(lab)))
  {
    var removal := Api.Removal(x.site.rows, x.site.nodes, c.managedRoot, lab);
    var files := FilesOf(removal.nodes);
    RemovalShrinks(x.site.rows, x.site.nodes, c.managedRoot, lab);
    CopiesAside(c, h, PlantOf(x.site), files, x.past.staged);
    OtherKeepsIntact(c, h, PlantOf(x.site).(files := files), DestroyLab(lab, removal.ok), x.past.staged);
    SnapshotsAside(c, h, codec, x, files);
  }

  // ---------- taking snapshots ----------

  /** Making directories leaves the files as they are. */
  lemma MakingAddsNoFile(nodes: Nodes, dir: Path)
    ensures FilesOf(MakeDirs(nodes, dir).nodes) == FilesOf(nodes)
  {
    forall p ensures var made := MakeDirs(nodes, dir).nodes;
      (p in made && p !in nodes ==> made[p].Dir?) && (p in nodes ==> p in made && made[p] == nodes[p])
    {
      MakeDirsOnlyAbove(nodes, dir, p);
    }
  }

  /** The files of a request: no other snapshot's, and in no area of exports. */
  ghost predicate OnlyItsFiles(c: Config, q: Request, before: map<Path, Content>, after: map<Path, Content>) {
    forall p :: p in after && !(p in before && after[p] == before[p]) ==>
      && Area(c, p) == "snapshots"
      && (Name(p) == Label(q.id) + ".tar.gz" || Name(p) == Label(q.id) + ".json")
  }

  lemma OnlyItsFilesKeeps<T>(c: Config, h: Hash<T>, codec: Codec, x: History, q: Request, after: Nodes)
    requires Whole(c, h, codec, x) && q.id !in x.past.saved && Rooted(after)
    requires OnlyItsFiles(c, q, FilesOf(x.site.nodes), FilesOf(after))
    ensures Whole(c, h, codec, WithDisk(x, after))
  {
    CopiesAside(c, h, PlantOf(x.site), FilesOf(after), x.past.staged);
    forall id | id in x.past.saved ensures Kept(codec, FilesOf(after), x.past.saved[id]) {
      SnapshotArea(c, h, codec, x.past.saved[id]);
      FilesApart(id, q.id);
      FilesApart(q.id, id);
    }
  }

  lemma TakenRooted<T>(c: Config, h: Hash<T>, codec: Codec, s: Saved)
    requires Genuine(c, h, codec, s)
    ensures Rooted(s.taken)
  {
    var made := MakeDirs(s.before, s.q.st.snapshots).nodes;
    MakeDirsRooted(s.before, s.q.st.snapshots);
    ArchiveIsNotManifest(s.q.st, s.q.id);
    assert Parent(s.m.archive) == s.q.st.snapshots && Parent(s.m.manifest) == s.q.st.snapshots;
    FileRooted(made, s.m.archive, codec.pack(s.members));
    FileRooted(made[s.m.archive := File(codec.pack(s.members))], s.m.manifest, codec.dump(s.m));
  }

  lemma TakenFiles<T>(c: Config, h: Hash<T>, codec: Codec, s: Saved)
    requires Genuine(c, h, codec, s)
    ensures OnlyItsFiles(c, s.q, FilesOf(s.before), FilesOf(s.taken))
    ensures HasFiles(s.taken, s) && FilesOf(s.before).Keys <= FilesOf(s.taken).Keys
  {
    MakingAddsNoFile(s.before, s.q.st.snapshots);
    SnapshotArea(c, h, codec, s);
    TwoFiles(MakeDirs(s.before, s.q.st.snapshots).nodes, s.m.archive, codec.pack(s.members), s.m.manifest,
             codec.dump(s.m));
  }

  lemma TwoFiles(nodes: Nodes, a: Path, x: Content, b: Path, y: Content)
    ensures FilesOf(nodes[a := File(x)][b := File(y)]) == FilesOf(nodes)[a := x][b := y]
  {
  }

  lemma TakenKept<T>(c: Config, h: Hash<T>, codec: Codec, s: Saved)
    requires Lossless(codec) && Genuine(c, h, codec, s)
    ensures Kept(codec, FilesOf(s.taken), s)
  {
    TakenIsSaved(codec, h, s.before, s.taken, s.q, s.m, s.members, s.rels);
    ArchiveIsNotManifest(s.q.st, s.q.id);
  }

  lemma FailedTakeFiles(
    c: Config, codec: Codec, before: Nodes, after: Nodes, q: Request, members: seq<Member>, rels: seq<Path>)
    requires Rooted(before) && q.st == Allocation(c.managedRoot, q.lab)
    requires FailedTake(codec, before, after, q.st, q.id, members, rels)
    ensures Rooted(after) && OnlyItsFiles(c, q, FilesOf(before), FilesOf(after))
    ensures FilesOf(before).Keys <= FilesOf(after).Keys
  {
    var made, archive := MakeDirs(before, q.st.snapshots), ArchivePath(q.st, q.id);
    MakingAddsNoFile(before, q.st.snapshots);
    MakeDirsRooted(before, q.st.snapshots);
    assert Parent(archive) == q.st.snapshots && Area(c, archive) == "snapshots";
    if after != made.nodes { FileRooted(made.nodes, archive, after[archive].data); }
  }

  lemma TakeKeepsWhole<T>(c: Config, h: Hash<T>, codec: Codec, x: History, s: Saved)
    requires Lossless(codec) && Whole(c, h, codec, x) && Possible(c, h, codec, x, Takes(s))
    ensures Whole(c, h, codec, AfterAct(c, h, codec, x, Takes(s)))
  {
    TakenRooted(c, h, codec, s);
    TakenFiles(c, h, codec, s);
    TakenKept(c, h, codec, s);
    OnlyItsFilesKeeps(c, h, codec, x, s.q, s.taken);
    RecordKeepsWhole(c, h, codec, WithDisk(x, s.taken), s);
  }

  lemma RecordKeepsWhole<T>(c: Config, h: Hash<T>, codec: Codec, x: History, s: Saved)
    requires Whole(c, h, codec, x) && Genuine(c, h, codec, s) && Kept(codec, FilesOf(x.site.nodes), s)
    ensures Whole(c, h, codec, Recorded(x, s))
  {
  }

  lemma FailedTakeKeepsWhole<T>(c: Config, h: Hash<T>, codec: Codec, x: History, act: Act)
    requires Whole(c, h, codec, x) && Possible(c, h, codec, x, act) && act.FailsToTake?
    ensures Whole(c, h, codec, AfterAct(c, h, codec, x, act))
  {
    FailedTakeFiles(c, codec, x.site.nodes, act.nodes, act.q, act.members, act.rels);
    OnlyItsFilesKeeps(c, h, codec, x, act.q, act.nodes);
  }

  // ---------- restores ----------

  /** What a restore into `into` leaves of the files outside it: all as they were, but for the manifest rewritten. */
  ghost predicate Rewrites(
    codec: Codec, m: Metadata, into: Path, before: map<Path, Content>, after: map<Path, Content>)
  {
    forall p :: !IsPrefix(into, p) ==>
      && (p in after <==> p in before)
      && (p in after ==> after[p] == before[p] || (p == m.manifest && Names(codec, after[p], m)))
  }

  /** Both files there, the snapshot is saved in the sense of the round trip. */
  lemma SavedManifest<T>(c: Config, h: Hash<T>, codec: Codec, nodes: Nodes, s: Saved) returns (k: Metadata)
    requires Genuine(c, h, codec, s) && Kept(codec, FilesOf(nodes), s) && HasFiles(nodes, s)
    ensures StillSaved(codec, nodes, s.taken, s.m, k)
  {
    ArchiveIsNotManifest(s.q.st, s.q.id);
    k := codec.load(nodes[s.m.manifest].data).value;
  }

  /** With one of its files gone, or for a runtime that has no snapshots, a restore adds no file. */
  lemma RestoreWithout<T>(
    c: Config, h: Hash<T>, codec: Codec, nodes: Nodes, s: Saved, target: Id, runtime: RuntimeClass, now: Time)
    requires Genuine(c, h, codec, s) && Kept(codec, FilesOf(nodes), s)
    requires !HasFiles(nodes, s) || !runtime.Container?
    ensures Rewrites(codec, s.m, Allocation(c.managedRoot, target).workspace, FilesOf(nodes),
                     FilesOf(RestoreInto(c, codec, nodes, s, target, runtime, now).nodes))
  {
    var into := Allocation(c.managedRoot, target).workspace;
    var made := MakeDirs(nodes, into);
    MakingAddsNoFile(nodes, into);
    MakeDirsOnlyAbove(nodes, into, s.m.archive);
    ManifestBesideArchive(s.q.st.snapshots, s.q.id);
    RestoreStops(codec, nodes, s.m, target, runtime, into, now);
    ClearedFiles(made.nodes, into);
  }

  /** Such a restore stops before it unpacks anything. */
  lemma RestoreStops(
    codec: Codec, nodes: Nodes, m: Metadata, target: Id, runtime: RuntimeClass, into: Path, now: Time)
    requires m.archive != [] && ManifestPathFor(m.archive) == m.manifest
    requires m.manifest in FilesOf(nodes) ==> Names(codec, FilesOf(nodes)[m.manifest], m)
    requires m.archive !in FilesOf(nodes) || m.manifest !in FilesOf(nodes) || !runtime.Container?
    requires m.archive in MakeDirs(nodes, into).nodes && m.archive !in nodes ==>
      MakeDirs(nodes, into).nodes[m.archive].Dir?
    requires m.archive in nodes ==>
      m.archive in MakeDirs(nodes, into).nodes && MakeDirs(nodes, into).nodes[m.archive] == nodes[m.archive]
    ensures var made := MakeDirs(nodes, into).nodes;
      var after := Restore(codec, nodes, m.archive, target, runtime, into, now).nodes;
      after == nodes || after == made || after == Cleared(made, into)
  {
  }

  lemma ClearedFiles(nodes: Nodes, into: Path)
    ensures forall p :: !IsPrefix(into, p) ==>
      && (p in FilesOf(Cleared(nodes, into)) <==> p in FilesOf(nodes))
      && (p in FilesOf(nodes) ==> FilesOf(Cleared(nodes, into))[p] == FilesOf(nodes)[p])
  {
  }

  lemma RestoreRewrites<T>(
    c: Config, h: Hash<T>, codec: Codec, nodes: Nodes, s: Saved, target: Id, runtime: RuntimeClass, now: Time)
    requires Lossless(codec) && Paths.Plain(c.managedRoot) && Rooted(nodes)
    requires Genuine(c, h, codec, s) && Kept(codec, FilesOf(nodes), s)
    ensures Rewrites(codec, s.m, Allocation(c.managedRoot, target).workspace, FilesOf(nodes),
                     FilesOf(RestoreInto(c, codec, nodes, s, target, runtime, now).nodes))
  {
    if HasFiles(nodes, s) && runtime.Container? {
      var k := SavedManifest(c, h, codec, nodes, s);
      var into := Allocation(c.managedRoot, target).workspace;
      AllocatedRoundTrip(
        codec, h, c.managedRoot, s.before, s.taken, s.q, s.m, s.members, s.rels, nodes, k, target, now);
      if MakeDirs(nodes, into).ok {
        MakingAddsNoFile(nodes, into);
        RoundTripRewrites(codec, s, into, MakeDirs(nodes, into).nodes,
                          RestoreInto(c, codec, nodes, s, target, runtime, now).nodes,
                          RestoredMetadata(k, target, now));
      } else {
        BlockedRestoreAddsNoFile(
          codec, h, s.before, s.taken, s.q, s.m, s.members, s.rels, nodes, k, target, into, now);
      }
    } else {
      RestoreWithout(c, h, codec, nodes, s, target, runtime, now);
    }
  }

  lemma RoundTripRewrites(codec: Codec, s: Saved, into: Path, made: Nodes, after: Nodes, k: Metadata)
    requires StillSaved(codec, after, s.taken, s.m, k) && s.m.manifest in FilesOf(made)
    requires forall p :: !IsPrefix(into, p) && p != s.m.manifest ==>
      (p in after <==> p in made) && (p in after ==> after[p] == made[p])
    ensures Rewrites(codec, s.m, into, FilesOf(made), FilesOf(after))
  {
  }

  lemma WorkspaceArea(c: Config, target: Id, p: Path)
    requires IsPrefix(Allocation(c.managedRoot, target).workspace, p)
    ensures Area(c, p) == "workspace"
  {
    PrefixAt(Allocation(c.managedRoot, target).workspace, p, |c.managedRoot| + 2);
  }

  lemma RewritesAside(
    c: Config, codec: Codec, m: Metadata, target: Id, area: string, before: map<Path, Content>,
    after: map<Path, Content>)
    requires Rewrites(codec, m, Allocation(c.managedRoot, target).workspace, before, after)
    requires area != "workspace" && Area(c, m.manifest) != area
    ensures Aside(c, area, before, after)
  {
    forall p | p in after && Area(c, p) == area ensures p in before && after[p] == before[p] {
      if IsPrefix(Allocation(c.managedRoot, target).workspace, p) { WorkspaceArea(c, target, p); }
    }
  }

  /** A rewritten manifest is no file of another snapshot, and still a manifest of its own. */
  lemma RewrittenKept<T>(
    c: Config, h: Hash<T>, codec: Codec, s: Saved, o: Saved, target: Id, before: map<Path, Content>,
    after: map<Path, Content>)
    requires Genuine(c, h, codec, s) && Genuine(c, h, codec, o) && Kept(codec, before, o)
    requires s == o || s.q.id != o.q.id
    requires Rewrites(codec, s.m, Allocation(c.managedRoot, target).workspace, before, after)
    ensures Kept(codec, after, o)
  {
    SnapshotArea(c, h, codec, s);
    SnapshotArea(c, h, codec, o);
    ArchiveIsNotManifest(o.q.st, o.q.id);
    if s.q.id != o.q.id {
      FilesApart(o.q.id, s.q.id);
    }
    forall p | p == o.m.archive || p == o.m.manifest
      ensures !IsPrefix(Allocation(c.managedRoot, target).workspace, p)
    {
      if IsPrefix(Allocation(c.managedRoot, target).workspace, p) { WorkspaceArea(c, target, p); }
    }
  }

  lemma RestoreKeepsWhole<T>(
    c: Config, h: Hash<T>, codec: Codec, x: History, id: Id, target: Id, runtime: RuntimeClass, now: Time)
    requires Lossless(codec) && Paths.Plain(c.managedRoot) && Whole(c, h, codec, x) && id in x.past.saved
    ensures Whole(c, h, codec, AfterAct(c, h, codec, x, Restores(id, target, runtime, now)))
  {
    var after := RestoreInto(c, codec, x.site.nodes, x.past.saved[id], target, runtime, now).nodes;
    RestoreStaysRooted(c, codec, x.site.nodes, x.past.saved[id], target, runtime, now);
    RestoreRewrites(c, h, codec, x.site.nodes, x.past.saved[id], target, runtime, now);
    RewritesKeepWhole(c, h, codec, x, id, target, after);
    RestoreSetsDisk(c, h, codec, x, id, target, runtime, now);
  }

  lemma RestoreSetsDisk<T>(
    c: Config, h: Hash<T>, codec: Codec, x: History, id: Id, target: Id, runtime: RuntimeClass, now: Time)
    requires id in x.past.saved
    ensures AfterAct(c, h, codec, x, Restores(id, target, runtime, now))
         == WithDisk(x, RestoreInto(c, codec, x.site.nodes, x.past.saved[id], target, runtime, now).nodes)
  {
  }

  lemma RestoreStaysRooted(
    c: Config, codec: Codec, nodes: Nodes, s: Saved, target: Id, runtime: RuntimeClass, now: Time)
    requires Rooted(nodes)
    ensures Rooted(RestoreInto(c, codec, nodes, s, target, runtime, now).nodes)
  {
    RestoreRooted(codec, nodes, s.m.archive, target, runtime, Allocation(c.managedRoot, target).workspace, now);
  }

  lemma RewritesKeepWhole<T>(c: Config, h: Hash<T>, codec: Codec, x: History, id: Id, target: Id, after: Nodes)
    requires Whole(c, h, codec, x) && id in x.past.saved && Rooted(after)
    requires Rewrites(codec, x.past.saved[id].m, Allocation(c.managedRoot, target).workspace,
                      FilesOf(x.site.nodes), FilesOf(after))
    ensures Whole(c, h, codec, WithDisk(x, after))
  {
    var s, before := x.past.saved[id], FilesOf(x.site.nodes);
    SnapshotArea(c, h, codec, s);
    RewritesAside(c, codec, s.m, target, "quarantine", before, FilesOf(after));
    RewritesAside(c, codec, s.m, target, "released", before, FilesOf(after));
    CopiesAside(c, h, PlantOf(x.site), FilesOf(after), x.past.staged);
    forall other | other in x.past.saved ensures Kept(codec, FilesOf(after), x.past.saved[other]) {
      RewrittenKept(c, h, codec, s, x.past.saved[other], target, before, FilesOf(after));
    }
  }

  // ---------- over every run ----------

  lemma ActKeepsWhole<T>(c: Config, h: Hash<T>, codec: Codec, x: History, act: Act)
    requires Lossless(codec) && Paths.Plain(c.managedRoot)
    requires Whole(c, h, codec, x) && Possible(c, h, codec, x, act)
    ensures Whole(c, h, codec, AfterAct(c, h, codec, x, act))
  {
    match act
    case Moves(_, _) => MoveKeepsWhole(c, h, codec, x, act);
    case Deletes(lab) => DeletionKeepsWhole(c, h, codec, x, lab);
    case Takes(s) => TakeKeepsWhole(c, h, codec, x, s);
    case FailsToTake(_, _, _, _) => FailedTakeKeepsWhole(c, h, codec, x, act);
    case Restores(id, target, runtime, now) => RestoreKeepsWhole(c, h, codec, x, id, target, runtime, now);
  }

  lemma {:induction false} AlwaysWhole<T>(c: Config, h: Hash<T>, codec: Codec, x: History, acts: seq<Act>)
    requires Lossless(codec) && Paths.Plain(c.managedRoot)
    requires Whole(c, h, codec, x) && AllPossible(c, h, codec, x, acts)
    ensures Whole(c, h, codec, RunActs(c, h, codec, x, acts))
    decreases |acts|
  {
    if acts != [] {
      ActKeepsWhole(c, h, codec, x, acts[0]);
      AlwaysWhole(c, h, codec, AfterAct(c, h, codec, x, acts[0]), acts[1..]);
    }
  }

  lemma BeginsWhole<T>(c: Config, h: Hash<T>, codec: Codec, nodes: Nodes)
    requires Rooted(nodes)
    ensures Whole(c, h, codec, Begin(nodes))
  {
  }

  /**
   * Over every run of guests' writes, losses, exports, releases, deletions, snapshots and restores, done or failed: an
   * export's row holds the digest and size of the bytes it staged, and its copies are those bytes or gone.
   */
  lemma SiteIntegrity<T>(c: Config, h: Hash<T>, codec: Codec, nodes: Nodes, acts: seq<Act>, e: Id)
    requires Lossless(codec) && Paths.Plain(c.managedRoot) && Rooted(nodes)
    requires AllPossible(c, h, codec, Begin(nodes), acts)
    requires e in RunActs(c, h, codec, Begin(nodes), acts).site.rows.exports
    ensures var x := RunActs(c, h, codec, Begin(nodes), acts);
      var row, files, staged := x.site.rows.exports[e], FilesOf(x.site.nodes), x.past.staged;
      && e in staged
      && row.sha256 == Digest(h, staged[e]) && row.size == |staged[e]|
      && (row.quarantinePath in files ==> files[row.quarantinePath] == staged[e])
      && (row.releasedPath.Some? && row.releasedPath.value in files ==> files[row.releasedPath.value] == staged[e])
  {
    BeginsWhole(c, h, codec, nodes);
    AlwaysWhole(c, h, codec, Begin(nodes), acts);
    var x := RunActs(c, h, codec, Begin(nodes), acts);
    assert CopiesOk(c, h, FilesOf(x.site.nodes), e, x.site.rows.exports[e], x.past.staged[e]);
  }

  /** The rows of every run are rows of a run of the control plane, so its safety results apply here too. */
  lemma {:induction false} SiteRowsAreReachable<T>(c: Config, h: Hash<T>, codec: Codec, x: History, acts: seq<Act>)
    requires Reachable(c, x.site.rows)
    ensures Reachable(c, RunActs(c, h, codec, x, acts).site.rows)
    decreases |acts|
  {
    if acts != [] {
      ActReaches(c, h, codec, x, acts[0]);
      SiteRowsAreReachable(c, h, codec, AfterAct(c, h, codec, x, acts[0]), acts[1..]);
    }
  }

  lemma ActReaches<T>(c: Config, h: Hash<T>, codec: Codec, x: History, act: Act)
    requires Reachable(c, x.site.rows)
    ensures Reachable(c, AfterAct(c, h, codec, x, act).site.rows)
  {
    var p := PlantOf(x.site);
    match act
    case Moves(move, _) => if StepOf(c, h, p, move).Some? { StepReaches(c, p.rows, StepOf(c, h, p, move).value); }
    case Deletes(lab) =>
      StepReaches(c, p.rows, DestroyLab(lab, Api.Removal(p.rows, x.site.nodes, c.managedRoot, lab).ok));
    case _ =>
  }

  lemma StepReaches(c: Config, s: Tables, step: Step)
    requires Reachable(c, s)
    ensures Reachable(c, Next(c, s, step))
  {
    var steps :| s == RunFrom(c, EMPTY, steps);
    var all := steps + [step];
    assert all[..|all| - 1] == steps && RunFrom(c, EMPTY, all) == Next(c, s, step);
  }

  // ---------- how long a snapshot lasts ----------

  /** Neither of the snapshot's files is lost, and its lab is not deleted. */
  predicate Spares(s: Saved, act: Act) {
    match act
    case Moves(Loses(gone), _) => s.m.archive !in gone && s.m.manifest !in gone
    case Deletes(lab) => lab != s.q.lab
    case _ => true
  }

  lemma MovesSpare(c: Config, p: Plant, m: Move, file: Path)
    requires Sound(c, p, m) && Area(c, file) == "snapshots" && file in p.files
    requires m.Loses? ==> file !in m.gone
    ensures file in FilesAfter(c, p, m)
  {
    if m.GuestWrites? { GuestAreas(c, m.lab, m.path); }
  }

  lemma DeletionSpares(c: Config, s: Tables, nodes: Nodes, lab: Id, other: Id, name: string)
    requires StorageOk(c, s) && lab != other
    requires Allocation(c.managedRoot, other).snapshots + [name] in FilesOf(nodes)
    ensures Allocation(c.managedRoot, other).snapshots + [name]
         in FilesOf(Api.Removal(s, nodes, c.managedRoot, lab).nodes)
  {
    var p := Allocation(c.managedRoot, other).snapshots + [name];
    assert p[..|Allocation(c.managedRoot, other).root|] == Allocation(c.managedRoot, other).root;
    if lab in s.storage { Allocator.DestroyLeavesOthers(nodes, c.managedRoot, lab, other, p); }
  }

  /** The snapshot is on record, with both its files on the disk. */
  ghost predicate Holds(x: History, s: Saved) {
    s.q.id in x.past.saved && x.past.saved[s.q.id] == s && HasFiles(x.site.nodes, s)
  }

  lemma MoveSpares<T>(c: Config, h: Hash<T>, codec: Codec, x: History, act: Act, s: Saved)
    requires Possible(c, h, codec, x, act) && act.Moves? && Genuine(c, h, codec, s)
    requires Holds(x, s) && Spares(s, act)
    ensures Holds(AfterAct(c, h, codec, x, act), s)
  {
    SnapshotArea(c, h, codec, s);
    MovesSpare(c, PlantOf(x.site), act.move, s.m.archive);
    MovesSpare(c, PlantOf(x.site), act.move, s.m.manifest);
  }

  lemma DeletesSpare<T>(c: Config, h: Hash<T>, codec: Codec, x: History, lab: Id, s: Saved)
    requires Genuine(c, h, codec, s) && StorageOk(c, x.site.rows) && Holds(x, s) && lab != s.q.lab
    ensures Holds(AfterAct(c, h, codec, x, Deletes(lab)), s)
  {
    DeletionSpares(c, x.site.rows, x.site.nodes, lab, s.q.lab, Label(s.q.id) + ".tar.gz");
    DeletionSpares(c, x.site.rows, x.site.nodes, lab, s.q.lab, Label(s.q.id) + ".json");
  }

  lemma TakesSpare<T>(c: Config, h: Hash<T>, codec: Codec, x: History, act: Act, s: Saved)
    requires Possible(c, h, codec, x, act) && (act.Takes? || act.FailsToTake?)
    requires Rooted(x.site.nodes) && Holds(x, s)
    ensures Holds(AfterAct(c, h, codec, x, act), s)
  {
    if act.Takes? {
      TakenFiles(c, h, codec, act.saved);
    } else {
      FailedTakeFiles(c, codec, x.site.nodes, act.nodes, act.q, act.members, act.rels);
    }
  }

  lemma RestoreSpares<T>(
    c: Config, h: Hash<T>, codec: Codec, x: History, id: Id, target: Id, runtime: RuntimeClass, now: Time, s: Saved)
    requires Lossless(codec) && Paths.Plain(c.managedRoot) && Whole(c, h, codec, x) && id in x.past.saved
    requires Genuine(c, h, codec, s) && Holds(x, s)
    ensures Holds(AfterAct(c, h, codec, x, Restores(id, target, runtime, now)), s)
  {
    RestoreRewrites(c, h, codec, x.site.nodes, x.past.saved[id], target, runtime, now);
    RestoreSetsDisk(c, h, codec, x, id, target, runtime, now);
    SnapshotArea(c, h, codec, s);
    forall p | p == s.m.archive || p == s.m.manifest
      ensures !IsPrefix(Allocation(c.managedRoot, target).workspace, p)
    {
      if IsPrefix(Allocation(c.managedRoot, target).workspace, p) { WorkspaceArea(c, target, p); }
    }
  }

  /** What spares a snapshot leaves both its files there. */
  lemma SparedStays<T>(c: Config, h: Hash<T>, codec: Codec, x: History, act: Act, s: Saved)
    requires Lossless(codec) && Paths.Plain(c.managedRoot)
    requires Whole(c, h, codec, x) && Possible(c, h, codec, x, act) && Holds(x, s) && Spares(s, act)
    ensures Holds(AfterAct(c, h, codec, x, act), s)
  {
    match act
    case Moves(_, _) => MoveSpares(c, h, codec, x, act, s);
    case Deletes(lab) => DeletesSpare(c, h, codec, x, lab, s);
    case Takes(_) => TakesSpare(c, h, codec, x, act, s);
    case FailsToTake(_, _, _, _) => TakesSpare(c, h, codec, x, act, s);
    case Restores(id, target, runtime, now) => RestoreSpares(c, h, codec, x, id, target, runtime, now, s);
  }

  /** Every one of these acts spares the snapshot. */
  predicate AllSpare(s: Saved, acts: seq<Act>) { forall i :: 0 <= i < |acts| ==> Spares(s, acts[i]) }

  lemma SparedNext<T>(c: Config, h: Hash<T>, codec: Codec, x: History, acts: seq<Act>, s: Saved)
    requires Lossless(codec) && Paths.Plain(c.managedRoot)
    requires Whole(c, h, codec, x) && acts != [] && AllPossible(c, h, codec, x, acts)
    requires Holds(x, s) && AllSpare(s, acts)
    ensures var y := AfterAct(c, h, codec, x, acts[0]);
      Whole(c, h, codec, y) && AllPossible(c, h, codec, y, acts[1..]) && Holds(y, s) && AllSpare(s, acts[1..])
  {
    assert Spares(s, acts[0]);
    ActKeepsWhole(c, h, codec, x, acts[0]);
    SparedStays(c, h, codec, x, acts[0], s);
  }

  lemma {:induction false} SparedLasts<T>(
    c: Config, h: Hash<T>, codec: Codec, x: History, acts: seq<Act>, s: Saved)
    requires Lossless(codec) && Paths.Plain(c.managedRoot)
    requires Whole(c, h, codec, x) && AllPossible(c, h, codec, x, acts)
    requires Holds(x, s) && AllSpare(s, acts)
    ensures Holds(RunActs(c, h, codec, x, acts), s)
    decreases |acts|
  {
    if acts != [] {
      SparedNext(c, h, codec, x, acts, s);
      SparedLasts(c, h, codec, AfterAct(c, h, codec, x, acts[0]), acts[1..], s);
    }
  }

  /** A snapshot on record with both its files restores to what was saved, into any lab. */
  lemma HeldRestores<T>(c: Config, h: Hash<T>, codec: Codec, x: History, s: Saved, target: Id, now: Time)
    requires Lossless(codec) && Paths.Plain(c.managedRoot) && Whole(c, h, codec, x) && Holds(x, s)
    ensures var into, o :=
        Allocation(c.managedRoot, target).workspace, RestoreInto(c, codec, x.site.nodes, s, target, Container, now);
      && (o.result.Ok? <==> MakeDirs(x.site.nodes, into).ok)
      && (o.result.Ok? ==> SameTree(o.nodes, into, s.before, s.q.st.workspace))
  {
    var k := SavedManifest(c, h, codec, x.site.nodes, s);
    AllocatedRoundTrip(
      codec, h, c.managedRoot, s.before, s.taken, s.q, s.m, s.members, s.rels, x.site.nodes, k, target, now);
  }

  /**
   * A snapshot taken after any run, whose files are not lost and whose lab is not deleted in any further run, can then
   * be restored into every lab whose directories can be made, and gives back the workspace as it was when it was
   * taken, whatever guests, exports, other snapshots and other restores did in between.
   */
  lemma SnapshotsLast<T>(
    c: Config, h: Hash<T>, codec: Codec, nodes: Nodes, before: seq<Act>, s: Saved, after: seq<Act>, target: Id,
    now: Time)
    requires Lossless(codec) && Paths.Plain(c.managedRoot) && Rooted(nodes)
    requires AllPossible(c, h, codec, Begin(nodes), before)
    requires AllPossible(c, h, codec, RunActs(c, h, codec, Begin(nodes), before), [Takes(s)] + after)
    requires AllSpare(s, after)
    ensures var x := RunActs(c, h, codec, Begin(nodes), before);
      var y := RunActs(c, h, codec, x, [Takes(s)] + after).site.nodes;
      var into, o := Allocation(c.managedRoot, target).workspace, RestoreInto(c, codec, y, s, target, Container, now);
      && s.before == x.site.nodes
      && (o.result.Ok? <==> MakeDirs(y, into).ok)
      && (o.result.Ok? ==> SameTree(o.nodes, into, x.site.nodes, s.q.st.workspace))
  {
    BeginsWhole(c, h, codec, nodes);
    AlwaysWhole(c, h, codec, Begin(nodes), before);
    TakenLasts(c, h, codec, RunActs(c, h, codec, Begin(nodes), before), s, after, target, now);
  }

  lemma TakenLasts<T>(
    c: Config, h: Hash<T>, codec: Codec, x: History, s: Saved, after: seq<Act>, target: Id, now: Time)
    requires Lossless(codec) && Paths.Plain(c.managedRoot) && Whole(c, h, codec, x)
    requires AllPossible(c, h, codec, x, [Takes(s)] + after) && AllSpare(s, after)
    ensures var y := RunActs(c, h, codec, x, [Takes(s)] + after).site.nodes;
      var into, o := Allocation(c.managedRoot, target).workspace, RestoreInto(c, codec, y, s, target, Container, now);
      && s.before == x.site.nodes
      && (o.result.Ok? <==> MakeDirs(y, into).ok)
      && (o.result.Ok? ==> SameTree(o.nodes, into, x.site.nodes, s.q.st.workspace))
  {
    assert ([Takes(s)] + after)[1..] == after;
    TakenFiles(c, h, codec, s);
    ActKeepsWhole(c, h, codec, x, Takes(s));
    var y := AfterAct(c, h, codec, x, Takes(s));
    SparedLasts(c, h, codec, y, after, s);
    AlwaysWhole(c, h, codec, y, after);
    HeldRestores(c, h, codec, RunActs(c, h, codec, y, after), s, target, now);
  }
}
