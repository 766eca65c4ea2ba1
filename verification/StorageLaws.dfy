/** Deleting a lab and restoring a snapshot, as the copies of exports see them. */
module StorageLaws {
  import opened Basics
  import opened Governance
  import opened Files
  import opened FileTree
  import opened Snapshots
  import opened SnapshotLaws
  import opened Quarantine
  import A = Allocator
  import S = Schema

  /** The regular files of a disk, as the export gate sees them. */
  function FilesOf(nodes: Nodes): map<Path, Content> {
    map p | p in nodes && nodes[p].File? :: nodes[p].data
  }

  /** What is at or below a directory. */
  function Below(nodes: Nodes, root: Path): set<Path> { set p | p in nodes && IsPrefix(root, p) }

  /** Deleting a lab's storage is, for the files, a loss of everything below its root and of nothing else. */
  lemma DeletionIsALoss<T>(c: Config, h: Hash<T>, rows: S.Tables, nodes: Nodes, managed: Path, root: Path)
    requires Rooted(nodes)
    ensures var d := A.Deallocated(nodes, managed, root);
      Plant(rows, FilesOf(d.nodes))
      == if d.ok then After(c, h, Plant(rows, FilesOf(nodes)), Loses(Below(nodes, root)))
         else Plant(rows, FilesOf(nodes))
  {
    var d := A.Deallocated(nodes, managed, root);
    if d.ok {
      forall p ensures p in FilesOf(d.nodes) <==> p in FilesOf(nodes) - Below(nodes, root) {
        if p in nodes && IsPrefix(root, p) {
          AboveExists(nodes, p, root);
        }
      }
      assert FilesOf(d.nodes) == FilesOf(nodes) - Below(nodes, root);
    }
  }

  /** A change inside a workspace and at a manifest's place is harmless to exports' copies. */
  lemma WorkspaceAside<T>(
    c: Config, h: Hash<T>, nodes: Nodes, after: Nodes, target: Id, lab: Id, name: string, e: Id, x: S.Export,
    data: Content)
    requires CopiesOk(c, h, FilesOf(nodes), e, x, data)
    requires var into := Allocation(c.managedRoot, target).workspace;
      var made := MakeDirs(nodes, into).nodes;
      forall p :: !IsPrefix(into, p) && p != Allocation(c.managedRoot, lab).snapshots + [name] ==>
        (p in after <==> p in made) && (p in after ==> after[p] == made[p])
    ensures CopiesOk(c, h, FilesOf(after), e, x, data)
  {
    var into := Allocation(c.managedRoot, target).workspace;
    forall p | p in FilesOf(after) && Owner(c, p) == Label(e)
               && (Area(c, p) == "quarantine" || Area(c, p) == "released")
      ensures p in FilesOf(nodes) && FilesOf(after)[p] == FilesOf(nodes)[p]
    {
      NotInWorkspace(c, target, lab, name, p);
      MakeDirsOnlyAbove(nodes, into, p);
    }
    FilesAside(c, h, FilesOf(nodes), FilesOf(after), e, x, data);
  }

  lemma NotInWorkspace(c: Config, target: Id, lab: Id, name: string, p: Path)
    requires Area(c, p) == "quarantine" || Area(c, p) == "released"
    ensures !IsPrefix(Allocation(c.managedRoot, target).workspace, p)
    ensures p != Allocation(c.managedRoot, lab).snapshots + [name]
  {
    var n := |c.managedRoot| + 2;
    PrefixAt(Allocation(c.managedRoot, target).workspace, p, n);
    assert (Allocation(c.managedRoot, lab).snapshots + [name])[n] == "snapshots";
    assert "snapshots"[0] != "quarantine"[0] && "snapshots"[0] != "released"[0];
  }

  /** Restoring a snapshot of one lab into another leaves every export's quarantined and released copies intact. */
  lemma RestoreKeepsCopies<T>(
    c: Config, h: Hash<T>, codec: Codec, before: Nodes, taken: Nodes, q: Request, m: Metadata, members: seq<Member>,
    rels: seq<Path>, nodes: Nodes, k: Metadata, target: Id, now: Time, e: Id, x: S.Export, data: Content)
    requires Lossless(codec) && Taken(codec, h, before, taken, q, m, members, rels)
    requires q.st == Allocation(c.managedRoot, q.lab) && Paths.Plain(c.managedRoot)
    requires Rooted(before) && CleanTree(before) && IsDir(before, q.st.workspace)
    requires StillSaved(codec, nodes, taken, m, k) && Rooted(nodes)
    requires CopiesOk(c, h, FilesOf(nodes), e, x, data)
    ensures var into := Allocation(c.managedRoot, target).workspace;
      CopiesOk(c, h, FilesOf(Restore(codec, nodes, m.archive, target, S.Container, into, now).nodes), e, x, data)
  {
    var into := Allocation(c.managedRoot, target).workspace;
    var o := Restore(codec, nodes, m.archive, target, S.Container, into, now);
    AllocatedRoundTrip(codec, h, c.managedRoot, before, taken, q, m, members, rels, nodes, k, target, now);
    if o.result.Ok? {
      WorkspaceAside(c, h, nodes, o.nodes, target, q.lab, Label(q.id) + ".json", e, x, data);
    } else {
      BlockedRestoreAddsNoFile(codec, h, before, taken, q, m, members, rels, nodes, k, target, into, now);
      FilesAside(c, h, FilesOf(nodes), FilesOf(o.nodes), e, x, data);
    }
  }

  /** A restore that a file blocks at the workspace adds no file. */
  lemma BlockedRestoreAddsNoFile<T>(
    codec: Codec, hash: Hash<T>, before: Nodes, taken: Nodes, q: Request, m: Metadata, members: seq<Member>,
    rels: seq<Path>, nodes: Nodes, k: Metadata, target: Id, into: Path, now: Time)
    requires Lossless(codec) && Taken(codec, hash, before, taken, q, m, members, rels)
    requires StillSaved(codec, nodes, taken, m, k) && !MakeDirs(nodes, into).ok
    ensures FilesOf(Restore(codec, nodes, m.archive, target, S.Container, into, now).nodes) == FilesOf(nodes)
  {
    TakenReadsBack(codec, hash, before, taken, q, m, members, rels, nodes, k);
    forall p ensures var made := MakeDirs(nodes, into).nodes;
      (p in made && p !in nodes ==> made[p].Dir?) && (p in nodes ==> p in made && made[p] == nodes[p])
    {
      MakeDirsOnlyAbove(nodes, into, p);
    }
  }
}
