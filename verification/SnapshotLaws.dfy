/** Taking a snapshot and restoring it are inverse, and touch nothing else. */
module SnapshotLaws {
  import opened Basics
  import opened Schema
  import opened Paths
  import opened Governance
  import opened Files
  import opened FileTree
  import opened Snapshots

  /** The same directory tree, at two places. */
  ghost predicate SameTree(a: Nodes, at: Path, b: Nodes, bt: Path) {
    forall rel :: (at + rel in a <==> bt + rel in b) && (at + rel in a ==> a[at + rel] == b[bt + rel])
  }

  /** A tree of `src` laid over what is at `at`, as far as `done` goes. */
  ghost function Grafted(nodes: Nodes, at: Path, src: Nodes, ws: Path, done: set<Path>): Nodes {
    map p | p in nodes.Keys + (set rel | rel in done :: at + rel) ::
      if IsPrefix(at, p) && p[|at|..] in done && ws + p[|at|..] in src then src[ws + p[|at|..]]
      else if p in nodes then nodes[p] else Dir
  }

  lemma GraftedAt(nodes: Nodes, at: Path, src: Nodes, ws: Path, done: set<Path>, p: Path)
    requires forall rel :: rel in done ==> ws + rel in src
    ensures var g := Grafted(nodes, at, src, ws, done);
      if IsPrefix(at, p) && p[|at|..] in done then p in g && g[p] == src[ws + p[|at|..]]
      else (p in g <==> p in nodes) && (p in g ==> g[p] == nodes[p])
  {
    if IsPrefix(at, p) { assert at + p[|at|..] == p; }
    forall rel ensures (at + rel)[..|at|] == at && (at + rel)[|at|..] == rel {}
  }

  lemma GraftNothing(nodes: Nodes, at: Path, src: Nodes, ws: Path)
    ensures Grafted(nodes, at, src, ws, {}) == nodes
  {
    forall p ensures p in Grafted(nodes, at, src, ws, {}) <==> p in nodes { GraftedAt(nodes, at, src, ws, {}, p); }
  }

  lemma GraftOneMore(nodes: Nodes, at: Path, src: Nodes, ws: Path, done: set<Path>, rel: Path)
    requires (forall r :: r in done ==> ws + r in src) && ws + rel in src
    ensures Grafted(nodes, at, src, ws, done)[at + rel := src[ws + rel]] == Grafted(nodes, at, src, ws, done + {rel})
  {
    var g, h := Grafted(nodes, at, src, ws, done)[at + rel := src[ws + rel]], Grafted(nodes, at, src, ws, done + {rel});
    assert (at + rel)[..|at|] == at && (at + rel)[|at|..] == rel;
    forall p ensures (p in g <==> p in h) && (p in g ==> g[p] == h[p]) {
      GraftedAt(nodes, at, src, ws, done, p);
      GraftedAt(nodes, at, src, ws, done + {rel}, p);
      if IsPrefix(at, p) { assert at + p[|at|..] == p; }
    }
  }

  /** What is at `at` and what is unpacked there are files and directories in the same places, where both exist. */
  ghost predicate NoClash(nodes: Nodes, at: Path, src: Nodes, ws: Path) {
    forall rel :: at + rel in nodes && ws + rel in src ==> (nodes[at + rel].Dir? <==> src[ws + rel].Dir?)
  }

  ghost predicate CleanRels(rels: seq<Path>) {
    forall i, k :: 0 <= i < |rels| && 0 <= k < |rels[i]| ==> CleanName(rels[i][k])
  }

  /** A packed member unpacks at its own place. */
  lemma MemberTarget(root: Path, rel: Path, node: Node)
    requires Paths.Plain(root) && forall k :: 0 <= k < |rel| ==> CleanName(rel[k])
    ensures Target(root, Member(MemberName(rel), node)) == root + ["workspace"] + rel
    ensures SafeMember(root, MemberName(rel))
  {
    var parts := ["workspace"] + rel;
    forall k | 0 <= k < |parts| ensures CleanName(parts[k]) {
      if k == 0 { WorkspaceIsClean(); }
    }
    JoinedSegments(parts);
    PlainWalk(parts);
    SafeMemberWalk(root, MemberName(rel));
    assert root + parts == root + ["workspace"] + rel;
  }

  lemma WorkspaceIsClean()
    ensures CleanName("workspace")
  {
  }

  /** The directory a member goes into is there by the time it is unpacked. */
  lemma ParentFirst(members: seq<Member>, rels: seq<Path>, src: Nodes, ws: Path, n: nat)
    requires Packs(members, rels, src, ws) && Rooted(src) && n < |rels| && rels[n] != []
    ensures Parent(rels[n]) in rels[..n] && IsDir(src, ws + Parent(rels[n]))
  {
    var up := Parent(rels[n]);
    assert Parent(ws + rels[n]) == ws + up;
    assert up in rels;
    var j :| 0 <= j < |rels| && rels[j] == up;
    assert !(n < j);
    assert rels[..n][j] == up;
  }

  function SetOf(rels: seq<Path>, n: nat): set<Path>
    requires n <= |rels|
  {
    set i | 0 <= i < n :: rels[i]
  }

  /** A member whose directory is there, over nothing or something of its own kind. */
  lemma PutAt(nodes: Nodes, root: Path, m: Member, t: Path)
    requires Target(root, m) == t && IsPrefix(root, t) && t != [] && IsDir(nodes, Parent(t))
    requires t in nodes ==> (nodes[t].Dir? <==> m.node.Dir?)
    ensures PutMember(nodes, root, m) == Change(nodes[t := m.node], true)
  {
  }

  lemma ParentGrafted(
    nodes: Nodes, root: Path, src: Nodes, ws: Path, members: seq<Member>, rels: seq<Path>, n: nat)
    requires Packs(members, rels, src, ws) && Rooted(src) && n < |rels| && IsDir(nodes, root)
    ensures var at := root + ["workspace"];
      IsDir(Grafted(nodes, at, src, ws, SetOf(rels, n)), Parent(at + rels[n]))
  {
    var at, rel, done := root + ["workspace"], rels[n], SetOf(rels, n);
    var up := Parent(at + rel);
    GraftedAt(nodes, at, src, ws, done, up);
    if rel == [] {
      assert up == root;
    } else {
      ParentFirst(members, rels, src, ws, n);
      assert up == at + Parent(rel) && up[..|at|] == at && up[|at|..] == Parent(rel);
      var j :| 0 <= j < n && rels[..n][j] == Parent(rel);
      assert Parent(rel) in done;
    }
  }

  lemma PlaceAgrees(
    nodes: Nodes, root: Path, src: Nodes, ws: Path, members: seq<Member>, rels: seq<Path>, n: nat)
    requires Packs(members, rels, src, ws) && n < |rels| && NoClash(nodes, root + ["workspace"], src, ws)
    ensures var at := root + ["workspace"];
      var g, t := Grafted(nodes, at, src, ws, SetOf(rels, n)), at + rels[n];
      t in g ==> (g[t].Dir? <==> src[ws + rels[n]].Dir?)
  {
    var at, rel, done := root + ["workspace"], rels[n], SetOf(rels, n);
    var t := at + rel;
    assert t[..|at|] == at && t[|at|..] == rel;
    GraftedAt(nodes, at, src, ws, done, t);
    assert rel !in done;
  }

  lemma PutGrafts(
    nodes: Nodes, root: Path, src: Nodes, ws: Path, members: seq<Member>, rels: seq<Path>, n: nat)
    requires Packs(members, rels, src, ws) && Rooted(src) && CleanRels(rels) && n < |rels|
    requires Paths.Plain(root) && IsDir(nodes, root) && NoClash(nodes, root + ["workspace"], src, ws)
    ensures var at := root + ["workspace"];
      var g := Grafted(nodes, at, src, ws, SetOf(rels, n));
      PutMember(g, root, members[n]) == Change(g[at + rels[n] := src[ws + rels[n]]], true)
  {
    var at, rel := root + ["workspace"], rels[n];
    var g, t := Grafted(nodes, at, src, ws, SetOf(rels, n)), at + rel;
    MemberTarget(root, rel, src[ws + rel]);
    ParentGrafted(nodes, root, src, ws, members, rels, n);
    PlaceAgrees(nodes, root, src, ws, members, rels, n);
    assert t[..|root|] == root;
    PutAt(g, root, members[n], t);
  }

  /** Unpacking the packed members lays the workspace over what is there. */
  lemma {:induction false} ExtractGrafts(
    nodes: Nodes, root: Path, src: Nodes, ws: Path, members: seq<Member>, rels: seq<Path>, n: nat)
    requires Packs(members, rels, src, ws) && Rooted(src) && CleanRels(rels) && n <= |rels|
    requires Paths.Plain(root) && IsDir(nodes, root) && NoClash(nodes, root + ["workspace"], src, ws)
    ensures ExtractTo(nodes, root, members, n)
         == Change(Grafted(nodes, root + ["workspace"], src, ws, SetOf(rels, n)), true)
  {
    var at := root + ["workspace"];
    if n == 0 {
      GraftNothing(nodes, at, src, ws);
      assert SetOf(rels, 0) == {};
    } else {
      ExtractGrafts(nodes, root, src, ws, members, rels, n - 1);
      NextGraft(nodes, root, src, ws, members, rels, n - 1);
    }
  }

  lemma NextGraft(
    nodes: Nodes, root: Path, src: Nodes, ws: Path, members: seq<Member>, rels: seq<Path>, n: nat)
    requires Packs(members, rels, src, ws) && Rooted(src) && CleanRels(rels) && n < |rels|
    requires Paths.Plain(root) && IsDir(nodes, root) && NoClash(nodes, root + ["workspace"], src, ws)
    requires ExtractTo(nodes, root, members, n)
          == Change(Grafted(nodes, root + ["workspace"], src, ws, SetOf(rels, n)), true)
    ensures ExtractTo(nodes, root, members, n + 1)
         == Change(Grafted(nodes, root + ["workspace"], src, ws, SetOf(rels, n + 1)), true)
  {
    var at := root + ["workspace"];
    var g := Grafted(nodes, at, src, ws, SetOf(rels, n));
    PutGrafts(nodes, root, src, ws, members, rels, n);
    GraftRels(nodes, at, src, ws, members, rels, n);
    ExtractStep(nodes, root, members, n, g, g[at + rels[n] := src[ws + rels[n]]]);
  }

  lemma ExtractStep(nodes: Nodes, root: Path, members: seq<Member>, n: nat, g: Nodes, h: Nodes)
    requires n < |members| && ExtractTo(nodes, root, members, n) == Change(g, true)
    requires PutMember(g, root, members[n]) == Change(h, true)
    ensures ExtractTo(nodes, root, members, n + 1) == Change(h, true)
  {
  }

  lemma GraftRels(
    nodes: Nodes, at: Path, src: Nodes, ws: Path, members: seq<Member>, rels: seq<Path>, n: nat)
    requires Packs(members, rels, src, ws) && n < |rels|
    ensures Grafted(nodes, at, src, ws, SetOf(rels, n))[at + rels[n] := src[ws + rels[n]]]
         == Grafted(nodes, at, src, ws, SetOf(rels, n + 1))
  {
    GraftOneMore(nodes, at, src, ws, SetOf(rels, n), rels[n]);
    assert SetOf(rels, n + 1) == SetOf(rels, n) + {rels[n]};
  }

  lemma AllSafeMembers(root: Path, src: Nodes, ws: Path, members: seq<Member>, rels: seq<Path>)
    requires Packs(members, rels, src, ws) && CleanRels(rels) && Paths.Plain(root)
    ensures AllSafe(root, members)
  {
    forall i | 0 <= i < |members| ensures SafeMember(root, members[i].name) {
      MemberTarget(root, rels[i], src[ws + rels[i]]);
    }
  }

  // ---------- promoting ----------

  /** What is at `at`, laid over by the snapshot: the snapshot's entries, and entries there that it does not name. */
  ghost predicate LaidOver(g: Nodes, at: Path, src: Nodes, ws: Path, stale: Nodes) {
    forall rel ::
      && (at + rel in g <==> ws + rel in src || at + rel in stale)
      && (ws + rel in src ==> at + rel in g && g[at + rel] == src[ws + rel])
      && (at + rel in g && ws + rel !in src ==> g[at + rel] == stale[at + rel])
  }

  lemma GraftLaysOver(nodes: Nodes, at: Path, src: Nodes, ws: Path, members: seq<Member>, rels: seq<Path>)
    requires Packs(members, rels, src, ws)
    ensures LaidOver(Grafted(nodes, at, src, ws, SetOf(rels, |rels|)), at, src, ws, nodes)
    ensures forall p :: !IsPrefix(at, p) ==>
      var g := Grafted(nodes, at, src, ws, SetOf(rels, |rels|));
      (p in g <==> p in nodes) && (p in g ==> g[p] == nodes[p])
  {
    var done := SetOf(rels, |rels|);
    forall rel ensures rel in done <==> ws + rel in src {
      if ws + rel in src { assert rel in rels; }
    }
    var g := Grafted(nodes, at, src, ws, done);
    forall rel ensures
      && (at + rel in g <==> ws + rel in src || at + rel in nodes)
      && (ws + rel in src ==> at + rel in g && g[at + rel] == src[ws + rel])
      && (at + rel in g && ws + rel !in src ==> g[at + rel] == nodes[at + rel])
    {
      assert (at + rel)[..|at|] == at && (at + rel)[|at|..] == rel;
      GraftedAt(nodes, at, src, ws, done, at + rel);
    }
    forall p | !IsPrefix(at, p) ensures (p in g <==> p in nodes) && (p in g ==> g[p] == nodes[p]) {
      GraftedAt(nodes, at, src, ws, done, p);
    }
  }

  lemma ClearedAlready(nodes: Nodes, dir: Path)
    requires forall p :: p in nodes ==> !Inside(dir, p)
    ensures Cleared(nodes, dir) == nodes
  {
  }

  /** Promoting moves the whole tree that was unpacked, and nothing else. */
  lemma PromotedAt(nodes: Nodes, workspace: Path, rel: Path)
    requires Rooted(nodes) && workspace != [] && IsDir(nodes, workspace)
    requires forall p :: p in nodes ==> !Inside(workspace, p)
    requires Unpacked(workspace) != workspace && IsDir(nodes, Unpacked(workspace))
    ensures var from, x := Unpacked(workspace), Promoted(nodes, workspace);
      && x.ok
      && (workspace + rel in x.nodes <==> from + rel in nodes)
      && (from + rel in nodes ==> x.nodes[workspace + rel] == nodes[from + rel])
      && from + rel !in x.nodes
  {
    var from, to, p := Unpacked(workspace), workspace + rel, Unpacked(workspace) + rel;
    ClearedAlready(nodes, workspace);
    SiblingsApart(workspace);
    assert to[..|workspace|] == workspace && to[|workspace|..] == rel && p[..|from|] == from;
    AllMovedAt(nodes, from, workspace, to);
    AllMovedAt(nodes, from, workspace, p);
    NotBoth(from, workspace, to);
    if rel == [] { assert to == workspace && p == from; }
  }

  lemma PromotedElsewhere(nodes: Nodes, workspace: Path, p: Path)
    requires Rooted(nodes) && workspace != [] && IsDir(nodes, workspace)
    requires forall q :: q in nodes ==> !Inside(workspace, q)
    requires Unpacked(workspace) != workspace && IsDir(nodes, Unpacked(workspace))
    requires !IsPrefix(workspace, p) && !IsPrefix(Unpacked(workspace), p)
    ensures var x := Promoted(nodes, workspace).nodes;
      (p in x <==> p in nodes) && (p in x ==> x[p] == nodes[p])
  {
    ClearedAlready(nodes, workspace);
    SiblingsApart(workspace);
    AllMovedAt(nodes, Unpacked(workspace), workspace, p);
  }

  // ---------- a restore, exactly ----------

  /** What a refilled workspace holds, and that nothing changed elsewhere. */
  ghost predicate RefilledAs(after: Nodes, before: Nodes, workspace: Path, src: Nodes, ws: Path)
    requires workspace != []
  {
    var at := Unpacked(workspace);
    && (forall rel ::
          && (workspace + rel in after <==> ws + rel in src || at + rel in before)
          && (ws + rel in src ==> workspace + rel in after && after[workspace + rel] == src[ws + rel])
          && (workspace + rel in after && ws + rel !in src ==> after[workspace + rel] == before[at + rel])
          && (at != workspace ==> at + rel !in after))
    && (forall p :: !IsPrefix(workspace, p) && !IsPrefix(at, p) ==>
          (p in after <==> p in before) && (p in after ==> after[p] == before[p]))
  }

  lemma RefilledTree(
    nodes: Nodes, workspace: Path, src: Nodes, ws: Path, members: seq<Member>, rels: seq<Path>)
    requires Rooted(nodes) && workspace != [] && IsDir(nodes, workspace) && Paths.Plain(Parent(workspace))
    requires forall p :: p in nodes ==> !Inside(workspace, p)
    requires Packs(members, rels, src, ws) && Rooted(src) && CleanRels(rels) && IsDir(src, ws)
    requires NoClash(nodes, Unpacked(workspace), src, ws)
    ensures var r := Refilled(nodes, workspace, members); r.ok && RefilledAs(r.nodes, nodes, workspace, src, ws)
  {
    var root, at := Parent(workspace), Unpacked(workspace);
    NormKeepsPlain(root);
    ExtractGrafts(nodes, root, src, ws, members, rels, |rels|);
    ExtractRooted(nodes, root, members, |members|);
    GraftLaysOver(nodes, at, src, ws, members, rels);
    var g := Grafted(nodes, at, src, ws, SetOf(rels, |rels|));
    assert ExtractTo(nodes, Norm(root), members, |members|) == Change(g, true);
    if at != workspace {
      assert at + [] == at && ws + [] == ws && IsDir(g, at);
      SiblingsApart(workspace);
      GraftsStayOut(nodes, g, workspace);
      PromotedRefill(g, nodes, workspace, src, ws);
    }
  }

  lemma GraftsStayOut(nodes: Nodes, g: Nodes, workspace: Path)
    requires workspace != [] && Apart(Unpacked(workspace), workspace) && IsDir(nodes, workspace)
    requires forall p :: p in nodes ==> !Inside(workspace, p)
    requires forall p :: !IsPrefix(Unpacked(workspace), p) ==> (p in g <==> p in nodes) && (p in g ==> g[p] == nodes[p])
    ensures IsDir(g, workspace) && forall p :: p in g ==> !Inside(workspace, p)
  {
    forall p | p in g ensures !Inside(workspace, p) {
      if IsPrefix(workspace, p) && IsPrefix(Unpacked(workspace), p) {
        PrefixesNest(workspace, Unpacked(workspace), p);
      }
    }
  }

  lemma PromotedRefill(g: Nodes, before: Nodes, workspace: Path, src: Nodes, ws: Path)
    requires Rooted(g) && workspace != [] && IsDir(g, workspace) && (forall p :: p in g ==> !Inside(workspace, p))
    requires Unpacked(workspace) != workspace && IsDir(g, Unpacked(workspace))
    requires LaidOver(g, Unpacked(workspace), src, ws, before)
    requires forall p :: !IsPrefix(Unpacked(workspace), p) ==>
      (p in g <==> p in before) && (p in g ==> g[p] == before[p])
    ensures var x := Promoted(g, workspace); x.ok && RefilledAs(x.nodes, before, workspace, src, ws)
  {
    var x, at := Promoted(g, workspace), Unpacked(workspace);
    PromotedAt(g, workspace, []);
    forall rel ensures
      && (workspace + rel in x.nodes <==> ws + rel in src || at + rel in before)
      && (ws + rel in src ==> workspace + rel in x.nodes && x.nodes[workspace + rel] == src[ws + rel])
      && (workspace + rel in x.nodes && ws + rel !in src ==> x.nodes[workspace + rel] == before[at + rel])
      && at + rel !in x.nodes
    {
      PromotedAt(g, workspace, rel);
    }
    forall p | !IsPrefix(workspace, p) && !IsPrefix(at, p)
      ensures (p in x.nodes <==> p in before) && (p in x.nodes ==> x.nodes[p] == before[p])
    {
      PromotedElsewhere(g, workspace, p);
    }
  }

  // ---------- snapshot, then restore ----------

  /** What a workspace holds after a restore, and that nothing changed elsewhere but the manifest. */
  ghost predicate RestoredAs(after: Nodes, before: Nodes, workspace: Path, src: Nodes, ws: Path, manifest: Path)
    requires workspace != []
  {
    var at := Unpacked(workspace);
    && (forall rel ::
          && (workspace + rel in after <==> ws + rel in src || (at != workspace && at + rel in before))
          && (ws + rel in src ==> workspace + rel in after && after[workspace + rel] == src[ws + rel])
          && (workspace + rel in after && ws + rel !in src ==> after[workspace + rel] == before[at + rel])
          && (at != workspace ==> at + rel !in after))
    && (forall p :: !IsPrefix(workspace, p) && !IsPrefix(at, p) && p != manifest ==>
          (p in after <==> p in before) && (p in after ==> after[p] == before[p]))
  }

  /** The snapshot's files are not where the restore unpacks, and the target's location has no dots. */
  ghost predicate Placed(m: Metadata, workspace: Path) {
    && workspace != [] && Paths.Plain(Parent(workspace)) && m.manifest != []
    && !IsPrefix(workspace, m.archive) && !IsPrefix(workspace, m.manifest)
    && !IsPrefix(Unpacked(workspace), m.archive) && !IsPrefix(Unpacked(workspace), m.manifest)
  }

  /** Both files of the snapshot are there. */
  ghost predicate Restorable(nodes: Nodes, m: Metadata, workspace: Path) {
    && Rooted(nodes) && Placed(m, workspace)
    && m.archive in nodes && nodes[m.archive].File?
    && m.manifest in nodes && nodes[m.manifest].File?
  }

  /**
   * The snapshot `m` is still on the disk: its archive as it was written, and at its manifest's place any manifest
   * `k` that names the same two files, as a restore of it leaves one.
   */
  ghost predicate StillSaved(codec: Codec, nodes: Nodes, taken: Nodes, m: Metadata, k: Metadata) {
    && m.archive in nodes && m.archive in taken && nodes[m.archive] == taken[m.archive]
    && m.manifest in nodes && nodes[m.manifest].File? && codec.load(nodes[m.manifest].data) == Some(k)
    && k.archive == m.archive && k.manifest == m.manifest && k.runtime.Container?
  }

  lemma ArchiveIsNotManifest(st: Storage, id: Id)
    ensures ArchivePath(st, id) != ManifestPath(st, id)
  {
    var a, b := ArchivePath(st, id), ManifestPath(st, id);
    assert a[|a| - 1] == Label(id) + ".tar.gz" && b[|b| - 1] == Label(id) + ".json";
    assert |a[|a| - 1]| != |b[|b| - 1]|;
  }

  lemma TakenReadsBack<S>(
    codec: Codec, hash: Hash<S>, before: Nodes, taken: Nodes, q: Request, m: Metadata, members: seq<Member>,
    rels: seq<Path>, nodes: Nodes, k: Metadata)
    requires Lossless(codec) && Taken(codec, hash, before, taken, q, m, members, rels)
    requires StillSaved(codec, nodes, taken, m, k)
    ensures LoadMetadata(codec, nodes, m.archive) == Ok(k)
    ensures nodes[m.archive].File? && codec.unpack(nodes[m.archive].data) == Some(members)
  {
    ManifestBesideArchive(q.st.snapshots, q.id);
    ArchiveIsNotManifest(q.st, q.id);
  }

  /** A snapshot that was just taken is saved, under its own metadata. */
  lemma TakenIsSaved<S>(
    codec: Codec, hash: Hash<S>, before: Nodes, taken: Nodes, q: Request, m: Metadata, members: seq<Member>,
    rels: seq<Path>)
    requires Lossless(codec) && Taken(codec, hash, before, taken, q, m, members, rels)
    ensures StillSaved(codec, taken, taken, m, m)
  {
    ArchiveIsNotManifest(q.st, q.id);
  }

  /** What is outside a directory stays when it is cleared. */
  lemma ClearedKeeps(nodes: Nodes, dir: Path, p: Path)
    requires !IsPrefix(dir, p)
    ensures (p in Cleared(nodes, dir) <==> p in nodes) && (p in nodes ==> Cleared(nodes, dir)[p] == nodes[p])
  {
  }

  lemma ManifestSurvives(nodes: Nodes, x: Nodes, workspace: Path, src: Nodes, ws: Path, manifest: Path, data: Content)
    requires Rooted(nodes) && workspace != [] && manifest in nodes && nodes[manifest].File? && manifest != []
    requires !IsPrefix(workspace, manifest) && !IsPrefix(Unpacked(workspace), manifest)
    requires RefilledAs(x, Cleared(nodes, workspace), workspace, src, ws)
    ensures WriteFile(x, manifest, data) == Change(x[manifest := File(data)], true)
  {
    var up := Parent(manifest);
    InsideBelow(workspace, manifest);
    InsideBelow(Unpacked(workspace), manifest);
    ClearedKeeps(nodes, workspace, manifest);
    ClearedKeeps(nodes, workspace, up);
  }

  lemma UnarchiveGives(
    codec: Codec, nodes: Nodes, m: Metadata, lab: Id, workspace: Path, now: Time,
    src: Nodes, ws: Path, members: seq<Member>, rels: seq<Path>)
    requires Restorable(nodes, m, workspace) && IsDir(nodes, workspace)
    requires Unpacked(workspace) != workspace ==> NoClash(nodes, Unpacked(workspace), src, ws)
    requires codec.unpack(nodes[m.archive].data) == Some(members)
    requires Packs(members, rels, src, ws) && Rooted(src) && CleanRels(rels) && IsDir(src, ws)
    ensures var o := Unarchive(codec, Cleared(nodes, workspace), m, lab, workspace, now);
      && o.result == Ok(RestoredMetadata(m, lab, now))
      && m.manifest in o.nodes && o.nodes[m.manifest] == File(codec.dump(RestoredMetadata(m, lab, now)))
      && RestoredAs(o.nodes, nodes, workspace, src, ws, m.manifest)
  {
    var base, at := Cleared(nodes, workspace), Unpacked(workspace);
    ClearedRooted(nodes, workspace);
    ClearedKeeps(nodes, workspace, m.archive);
    NormKeepsPlain(Parent(workspace));
    AllSafeMembers(Parent(workspace), src, ws, members, rels);
    ClearedClash(nodes, workspace, src, ws);
    RefilledTree(base, workspace, src, ws, members, rels);
    var x := Refilled(base, workspace, members).nodes;
    var data := codec.dump(RestoredMetadata(m, lab, now));
    ManifestSurvives(nodes, x, workspace, src, ws, m.manifest, data);
    RefilledIsRestored(nodes, x, workspace, src, ws, m.manifest, data);
  }

  lemma ClearedClash(nodes: Nodes, workspace: Path, src: Nodes, ws: Path)
    requires workspace != [] && IsDir(nodes, workspace) && IsDir(src, ws)
    requires Unpacked(workspace) != workspace ==> NoClash(nodes, Unpacked(workspace), src, ws)
    ensures NoClash(Cleared(nodes, workspace), Unpacked(workspace), src, ws)
  {
    var at, base := Unpacked(workspace), Cleared(nodes, workspace);
    forall rel | at + rel in base && ws + rel in src ensures base[at + rel].Dir? <==> src[ws + rel].Dir? {
      if at == workspace {
        assert (at + rel)[..|at|] == at;
        assert rel == [] && at + rel == at && ws + rel == ws;
      }
    }
  }

  /** A member of one kind cannot be unpacked over an entry of the other kind, so the archive cannot be either. */
  lemma ClashStops(
    nodes: Nodes, root: Path, src: Nodes, ws: Path, members: seq<Member>, rels: seq<Path>, i: nat)
    requires Packs(members, rels, src, ws) && CleanRels(rels) && Paths.Plain(root) && i < |members|
    requires root + ["workspace"] + rels[i] in nodes
    requires nodes[root + ["workspace"] + rels[i]].Dir? != src[ws + rels[i]].Dir?
    ensures !ExtractTo(nodes, root, members, |members|).ok
  {
    var t, before := root + ["workspace"] + rels[i], ExtractTo(nodes, root, members, i);
    MemberTarget(root, rels[i], src[ws + rels[i]]);
    ExtractKeepsKinds(nodes, root, members, i, t);
    PutClashes(before.nodes, root, members[i], t);
    FailedStep(nodes, root, members, i);
    StoppedStays(nodes, root, members, i + 1, |members|);
  }

  lemma FailedStep(nodes: Nodes, root: Path, members: seq<Member>, i: nat)
    requires i < |members| && !PutMember(ExtractTo(nodes, root, members, i).nodes, root, members[i]).ok
    ensures !ExtractTo(nodes, root, members, i + 1).ok
  {
  }

  lemma PutClashes(nodes: Nodes, root: Path, m: Member, t: Path)
    requires Target(root, m) == t && t in nodes && nodes[t].Dir? != m.node.Dir?
    ensures !PutMember(nodes, root, m).ok
  {
    if IsPrefix(root, t) && t != [] { MakeDirsKeeps(nodes, Parent(t), t); }
  }

  lemma UnarchiveClashes(
    codec: Codec, nodes: Nodes, m: Metadata, lab: Id, workspace: Path, now: Time,
    src: Nodes, ws: Path, members: seq<Member>, rels: seq<Path>, rel: Path)
    requires Restorable(nodes, m, workspace) && Unpacked(workspace) != workspace
    requires codec.unpack(nodes[m.archive].data) == Some(members)
    requires Packs(members, rels, src, ws) && CleanRels(rels)
    requires Unpacked(workspace) + rel in nodes && ws + rel in src
    requires nodes[Unpacked(workspace) + rel].Dir? != src[ws + rel].Dir?
    ensures Unarchive(codec, Cleared(nodes, workspace), m, lab, workspace, now).result.Err?
  {
    var root, at, base := Parent(workspace), Unpacked(workspace), Cleared(nodes, workspace);
    NormKeepsPlain(root);
    SiblingsApart(workspace);
    assert (at + rel)[..|at|] == at;
    NotBoth(at, workspace, at + rel);
    ClearedKeeps(nodes, workspace, at + rel);
    ClearedKeeps(nodes, workspace, m.archive);
    assert rel in rels;
    var i :| 0 <= i < |rels| && rels[i] == rel;
    ClashStops(base, root, src, ws, members, rels, i);
  }

  lemma RefilledIsRestored(
    nodes: Nodes, x: Nodes, workspace: Path, src: Nodes, ws: Path, manifest: Path, data: Content)
    requires workspace != [] && IsDir(src, ws) && RefilledAs(x, Cleared(nodes, workspace), workspace, src, ws)
    requires !IsPrefix(workspace, manifest) && !IsPrefix(Unpacked(workspace), manifest)
    ensures RestoredAs(x[manifest := File(data)], nodes, workspace, src, ws, manifest)
  {
    var at, base, after := Unpacked(workspace), Cleared(nodes, workspace), x[manifest := File(data)];
    forall rel ensures
      && (workspace + rel in after <==> ws + rel in src || (at != workspace && at + rel in nodes))
      && (ws + rel in src ==> workspace + rel in after && after[workspace + rel] == src[ws + rel])
      && (workspace + rel in after && ws + rel !in src ==>
            at + rel in nodes && after[workspace + rel] == nodes[at + rel])
      && (at != workspace ==> at + rel !in after)
    {
      assert (workspace + rel)[..|workspace|] == workspace && (at + rel)[..|at|] == at;
      assert ws + [] == ws;
      if at != workspace {
        SiblingsApart(workspace);
        if IsPrefix(workspace, at + rel) { PrefixesNest(workspace, at, at + rel); }
        ClearedKeeps(nodes, workspace, at + rel);
      }
    }
    forall p | !IsPrefix(workspace, p) && !IsPrefix(at, p) && p != manifest
      ensures (p in after <==> p in nodes) && (p in after ==> after[p] == nodes[p])
    {
      ClearedKeeps(nodes, workspace, p);
    }
  }

  /** Making directories adds only directories above the one asked for. */
  lemma {:induction false} MakeDirsOnlyAbove(nodes: Nodes, p: Path, q: Path)
    ensures var made := MakeDirs(nodes, p).nodes;
      (q in made && q !in nodes ==> IsPrefix(q, p) && made[q].Dir?) && (q in nodes ==> q in made && made[q] == nodes[q])
    decreases |p|
  {
    if p !in nodes && p != [] {
      MakeDirsOnlyAbove(nodes, Parent(p), q);
      assert p[..|p|] == p;
      assert |q| < |p| ==> Parent(p)[..|q|] == p[..|q|];
    }
  }

  /** The disk as the archive sees it. */
  function Source(before: Nodes, st: Storage, id: Id): Nodes {
    MakeDirs(before, st.snapshots).nodes - {ArchivePath(st, id)}
  }

  /** Taking a snapshot does not change the workspace it packs. */
  lemma SourceIsWorkspace(before: Nodes, st: Storage, id: Id)
    requires Rooted(before) && IsDir(before, st.workspace) && !IsPrefix(st.workspace, st.snapshots)
    requires !IsDir(MakeDirs(before, st.snapshots).nodes, ArchivePath(st, id))
    ensures Rooted(Source(before, st, id)) && SameTree(Source(before, st, id), st.workspace, before, st.workspace)
    ensures IsDir(Source(before, st, id), st.workspace)
  {
    var ws, archive := st.workspace, ArchivePath(st, id);
    MakeDirsRooted(before, st.snapshots);
    assert Parent(archive) == st.snapshots;
    InsideUnlessSame(ws, archive);
    forall rel ensures
      (ws + rel in Source(before, st, id) <==> ws + rel in before)
      && (ws + rel in before ==> Source(before, st, id)[ws + rel] == before[ws + rel])
    {
      MakeDirsOnlyAbove(before, st.snapshots, ws + rel);
      assert (ws + rel)[..|ws|] == ws;
      PrefixTransitive(ws, ws + rel, st.snapshots);
    }
    assert ws + [] == ws;
  }

  lemma PrefixTransitive(a: Path, b: Path, c: Path)
    requires IsPrefix(a, b)
    ensures IsPrefix(b, c) ==> IsPrefix(a, c)
  {
    assert |b| <= |c| ==> c[..|b|][..|a|] == c[..|a|];
  }

  /** Equal source trees give equal restores. */
  lemma RestoredFrame(after: Nodes, nodes: Nodes, workspace: Path, a: Nodes, b: Nodes, ws: Path, manifest: Path)
    requires workspace != [] && RestoredAs(after, nodes, workspace, a, ws, manifest) && SameTree(a, ws, b, ws)
    ensures RestoredAs(after, nodes, workspace, b, ws, manifest)
  {
  }

  lemma CleanRelsOf(before: Nodes, src: Nodes, ws: Path, members: seq<Member>, rels: seq<Path>)
    requires CleanTree(before) && SameTree(src, ws, before, ws) && Packs(members, rels, src, ws)
    ensures CleanRels(rels)
  {
    forall i, k | 0 <= i < |rels| && 0 <= k < |rels[i]| ensures CleanName(rels[i][k]) {
      var p := ws + rels[i];
      assert p in before && p[|ws| + k] == rels[i][k];
    }
  }

  /** Making the workspace's directories touches nothing beside it. */
  lemma MadeBeside(nodes: Nodes, workspace: Path, p: Path)
    requires !IsPrefix(p, workspace)
    ensures var made := MakeDirs(nodes, workspace).nodes;
      (p in made <==> p in nodes) && (p in nodes ==> made[p] == nodes[p])
  {
    MakeDirsOnlyAbove(nodes, workspace, p);
  }

  lemma SiblingIsBeside(workspace: Path, rel: Path)
    requires workspace != [] && Unpacked(workspace) != workspace
    ensures !IsPrefix(Unpacked(workspace) + rel, workspace)
  {
    SiblingsApart(workspace);
    var p := Unpacked(workspace) + rel;
    assert p[..|Unpacked(workspace)|] == Unpacked(workspace);
    PrefixTransitive(Unpacked(workspace), p, workspace);
  }

  lemma ClashBeside(nodes: Nodes, workspace: Path, src: Nodes, ws: Path)
    requires workspace != [] && Unpacked(workspace) != workspace
    ensures NoClash(MakeDirs(nodes, workspace).nodes, Unpacked(workspace), src, ws)
       <==> NoClash(nodes, Unpacked(workspace), src, ws)
  {
    forall rel ensures var made, p := MakeDirs(nodes, workspace).nodes, Unpacked(workspace) + rel;
      (p in made <==> p in nodes) && (p in nodes ==> made[p] == nodes[p])
    {
      SiblingIsBeside(workspace, rel);
      MadeBeside(nodes, workspace, Unpacked(workspace) + rel);
    }
  }

  /** Once the workspace's directories are made, a restore is the unpacking. */
  lemma RestoreUnpacks(
    codec: Codec, nodes: Nodes, m: Metadata, k: Metadata, lab: Id, workspace: Path, now: Time)
    requires LoadMetadata(codec, nodes, m.archive) == Ok(k) && k.runtime.Container? && k.archive == m.archive
    requires Restorable(nodes, m, workspace) && k.manifest == m.manifest
    ensures var made, o := MakeDirs(nodes, workspace), Restore(codec, nodes, m.archive, lab, Container, workspace, now);
      && (!made.ok ==> o.result.Err?)
      && (made.ok ==> o == Unarchive(codec, Cleared(made.nodes, workspace), k, lab, workspace, now)
                      && Restorable(made.nodes, k, workspace) && IsDir(made.nodes, workspace)
                      && made.nodes[m.archive] == nodes[m.archive])
  {
    MakeDirsRooted(nodes, workspace);
  }

  /**
   * Take a snapshot, let anything happen to the disk that leaves the snapshot saved, and restore it: the target
   * workspace then holds the source workspace as it was when the snapshot was taken, none of its own former
   * content, and besides only what lay unpacked next to it before; nothing else changes but the manifest, which
   * still names the snapshot.
   */
  lemma RestoreGives<S>(
    codec: Codec, hash: Hash<S>, before: Nodes, taken: Nodes, q: Request, m: Metadata, members: seq<Member>,
    rels: seq<Path>, nodes: Nodes, k: Metadata, target: Id, workspace: Path, now: Time)
    requires Lossless(codec) && Taken(codec, hash, before, taken, q, m, members, rels)
    requires Rooted(before) && CleanTree(before) && IsDir(before, q.st.workspace)
    requires !IsPrefix(q.st.workspace, q.st.snapshots)
    requires StillSaved(codec, nodes, taken, m, k) && Rooted(nodes) && Placed(m, workspace)
    requires MakeDirs(nodes, workspace).ok
    requires Unpacked(workspace) != workspace ==> NoClash(nodes, Unpacked(workspace), before, q.st.workspace)
    ensures var made := MakeDirs(nodes, workspace).nodes;
      var o := Restore(codec, nodes, m.archive, target, Container, workspace, now);
      && o.result == Ok(RestoredMetadata(k, target, now))
      && RestoredAs(o.nodes, made, workspace, before, q.st.workspace, m.manifest)
      && Rooted(o.nodes) && StillSaved(codec, o.nodes, taken, m, RestoredMetadata(k, target, now))
  {
    var src, ws, made := Source(before, q.st, q.id), q.st.workspace, MakeDirs(nodes, workspace).nodes;
    SourceIsWorkspace(before, q.st, q.id);
    CleanRelsOf(before, src, ws, members, rels);
    TakenReadsBack(codec, hash, before, taken, q, m, members, rels, nodes, k);
    RestoreUnpacks(codec, nodes, m, k, target, workspace, now);
    if Unpacked(workspace) != workspace {
      ClashBeside(nodes, workspace, before, ws);
      ClashFrame(made, Unpacked(workspace), src, before, ws);
    }
    UnarchiveGives(codec, made, k, target, workspace, now, src, ws, members, rels);
    var o := Restore(codec, nodes, m.archive, target, Container, workspace, now);
    RestoredFrame(o.nodes, made, workspace, src, before, ws, m.manifest);
    RestoreRooted(codec, nodes, m.archive, target, Container, workspace, now);
    ArchiveIsNotManifest(q.st, q.id);
  }

  lemma ClashFrame(nodes: Nodes, at: Path, src: Nodes, before: Nodes, ws: Path)
    requires SameTree(src, ws, before, ws)
    ensures NoClash(nodes, at, src, ws) <==> NoClash(nodes, at, before, ws)
  {
  }

  lemma RestoreClashes<S>(
    codec: Codec, hash: Hash<S>, before: Nodes, taken: Nodes, q: Request, m: Metadata, members: seq<Member>,
    rels: seq<Path>, nodes: Nodes, k: Metadata, target: Id, workspace: Path, now: Time)
    requires Lossless(codec) && Taken(codec, hash, before, taken, q, m, members, rels)
    requires Rooted(before) && CleanTree(before) && IsDir(before, q.st.workspace)
    requires !IsPrefix(q.st.workspace, q.st.snapshots)
    requires StillSaved(codec, nodes, taken, m, k) && Rooted(nodes) && Placed(m, workspace)
    requires MakeDirs(nodes, workspace).ok
    requires Unpacked(workspace) != workspace && !NoClash(nodes, Unpacked(workspace), before, q.st.workspace)
    ensures Restore(codec, nodes, m.archive, target, Container, workspace, now).result.Err?
  {
    var src, ws, made := Source(before, q.st, q.id), q.st.workspace, MakeDirs(nodes, workspace).nodes;
    SourceIsWorkspace(before, q.st, q.id);
    CleanRelsOf(before, src, ws, members, rels);
    TakenReadsBack(codec, hash, before, taken, q, m, members, rels, nodes, k);
    RestoreUnpacks(codec, nodes, m, k, target, workspace, now);
    ClashBeside(nodes, workspace, before, ws);
    ClashFrame(made, Unpacked(workspace), src, before, ws);
    var rel :| Unpacked(workspace) + rel in made && ws + rel in src
               && made[Unpacked(workspace) + rel].Dir? != src[ws + rel].Dir?;
    UnarchiveClashes(codec, made, k, target, workspace, now, src, ws, members, rels, rel);
  }

  /** Every entry of a stale directory next to the target is one of the snapshot's, and of the same kind. */
  ghost predicate NothingStale(nodes: Nodes, at: Path, src: Nodes, ws: Path) {
    forall rel :: at + rel in nodes ==> ws + rel in src && (nodes[at + rel].Dir? <==> src[ws + rel].Dir?)
  }

  /**
   * So a restore succeeds and gives back what was saved exactly when no file is in the way of the workspace and,
   * if that has another name than "workspace", no entry that the snapshot does not have, or has as the other kind,
   * lies in a stale directory of that name next to it.
   */
  lemma RestoreIsInverseIff<S>(
    codec: Codec, hash: Hash<S>, before: Nodes, taken: Nodes, q: Request, m: Metadata, members: seq<Member>,
    rels: seq<Path>, nodes: Nodes, k: Metadata, target: Id, workspace: Path, now: Time)
    requires Lossless(codec) && Taken(codec, hash, before, taken, q, m, members, rels)
    requires Rooted(before) && CleanTree(before) && IsDir(before, q.st.workspace)
    requires !IsPrefix(q.st.workspace, q.st.snapshots)
    requires StillSaved(codec, nodes, taken, m, k) && Rooted(nodes) && Placed(m, workspace)
    ensures var o := Restore(codec, nodes, m.archive, target, Container, workspace, now);
      o.result.Ok? && SameTree(o.nodes, workspace, before, q.st.workspace)
      <==>
      && MakeDirs(nodes, workspace).ok
      && (Unpacked(workspace) == workspace || NothingStale(nodes, Unpacked(workspace), before, q.st.workspace))
  {
    var made, ws, at := MakeDirs(nodes, workspace), q.st.workspace, Unpacked(workspace);
    if !made.ok {
      TakenReadsBack(codec, hash, before, taken, q, m, members, rels, nodes, k);
      RestoreUnpacks(codec, nodes, m, k, target, workspace, now);
    } else if at != workspace && !NoClash(nodes, at, before, ws) {
      RestoreClashes(codec, hash, before, taken, q, m, members, rels, nodes, k, target, workspace, now);
    } else {
      RestoreGives(codec, hash, before, taken, q, m, members, rels, nodes, k, target, workspace, now);
      var o := Restore(codec, nodes, m.archive, target, Container, workspace, now);
      InverseIff(o.nodes, made.nodes, workspace, before, ws, m.manifest);
      if at != workspace {
        forall rel ensures at + rel in made.nodes <==> at + rel in nodes {
          SiblingIsBeside(workspace, rel);
          MadeBeside(nodes, workspace, at + rel);
        }
      }
    }
  }

  lemma InverseIff(after: Nodes, nodes: Nodes, workspace: Path, src: Nodes, ws: Path, manifest: Path)
    requires workspace != [] && RestoredAs(after, nodes, workspace, src, ws, manifest)
    ensures SameTree(after, workspace, src, ws) <==>
      Unpacked(workspace) == workspace || forall rel :: Unpacked(workspace) + rel in nodes ==> ws + rel in src
  {
    if SameTree(after, workspace, src, ws) && Unpacked(workspace) != workspace {
      forall rel | Unpacked(workspace) + rel in nodes ensures ws + rel in src {
        assert workspace + rel in after;
      }
    }
  }

  // ---------- labs with allocated storage ----------

  lemma AllocatedApart(root: Path, a: Id, b: Id, name: string)
    ensures var x, y := Allocation(root, a), Allocation(root, b);
      && !IsPrefix(x.workspace, x.snapshots) && !IsPrefix(y.workspace, x.snapshots + [name])
      && Parent(y.workspace) == y.root && Unpacked(y.workspace) == y.workspace
  {
    var n := |root| + 2;
    var x, y := Allocation(root, a), Allocation(root, b);
    assert x.snapshots[n] == "snapshots" && y.workspace[n] == "workspace" && x.workspace[n] == "workspace";
    assert (x.snapshots + [name])[n] == "snapshots";
    PrefixAt(y.workspace, x.snapshots + [name], n);
    assert |"snapshots"| == |"workspace"| && "snapshots"[0] != "workspace"[0];
  }

  lemma AllocatedPlain(root: Path, lab: Id)
    requires Paths.Plain(root)
    ensures Paths.Plain(Allocation(root, lab).root)
  {
    LabelDigits(lab);
    var x := Allocation(root, lab).root;
    forall c | c in x ensures Kept(c) && c != ".." {
      if c == Label(lab) { assert '0' <= c[0] <= '9'; }
    }
  }

  /**
   * Between allocated labs a restore gives back exactly the workspace that was saved and touches nothing but the
   * target's workspace and the manifest, however often it is repeated, unless a file is where a directory of the
   * target should be; and then it fails.
   */
  lemma AllocatedRoundTrip<S>(
    codec: Codec, hash: Hash<S>, root: Path, before: Nodes, taken: Nodes, q: Request, m: Metadata,
    members: seq<Member>, rels: seq<Path>, nodes: Nodes, k: Metadata, target: Id, now: Time)
    requires Lossless(codec) && Taken(codec, hash, before, taken, q, m, members, rels)
    requires q.st == Allocation(root, q.lab) && Paths.Plain(root)
    requires Rooted(before) && CleanTree(before) && IsDir(before, q.st.workspace)
    requires StillSaved(codec, nodes, taken, m, k) && Rooted(nodes)
    ensures var into := Allocation(root, target).workspace;
      var made, o := MakeDirs(nodes, into), Restore(codec, nodes, m.archive, target, Container, into, now);
      && (made.ok <==> o.result.Ok?)
      && (o.result.Ok? ==>
            && SameTree(o.nodes, into, before, q.st.workspace)
            && Rooted(o.nodes) && StillSaved(codec, o.nodes, taken, m, RestoredMetadata(k, target, now))
            && forall p :: !IsPrefix(into, p) && p != m.manifest ==>
                 (p in o.nodes <==> p in made.nodes) && (p in o.nodes ==> o.nodes[p] == made.nodes[p]))
  {
    var into := Allocation(root, target).workspace;
    AllocatedApart(root, q.lab, target, Label(q.id) + ".tar.gz");
    AllocatedApart(root, q.lab, target, Label(q.id) + ".json");
    AllocatedPlain(root, target);
    RestoreIsInverseIff(codec, hash, before, taken, q, m, members, rels, nodes, k, target, into, now);
    if MakeDirs(nodes, into).ok {
      RestoreGives(codec, hash, before, taken, q, m, members, rels, nodes, k, target, into, now);
    } else {
      TakenReadsBack(codec, hash, before, taken, q, m, members, rels, nodes, k);
      RestoreUnpacks(codec, nodes, m, k, target, into, now);
    }
  }

  // ---------- restoring anything ----------

  lemma PutConfined(nodes: Nodes, root: Path, m: Member, p: Path)
    requires Rooted(nodes) && IsDir(nodes, root) && !IsPrefix(root, p)
    ensures var x := PutMember(nodes, root, m).nodes; (p in x <==> p in nodes) && (p in nodes ==> x[p] == nodes[p])
  {
    var t := Target(root, m);
    if IsPrefix(root, t) && t != [] {
      MakeDirsOnlyAbove(nodes, Parent(t), p);
      if IsPrefix(p, Parent(t)) {
        InsideUnlessSame(p, t);
        PrefixesNest(p, root, t);
        AboveExists(nodes, root, p);
      }
    }
  }

  /** Whatever an archive holds, unpacking it leaves alone what is outside the directory it is unpacked into. */
  lemma {:induction false} ExtractConfined(nodes: Nodes, root: Path, members: seq<Member>, n: nat, p: Path)
    requires Rooted(nodes) && IsDir(nodes, root) && !IsPrefix(root, p) && n <= |members|
    ensures var x := ExtractTo(nodes, root, members, n).nodes;
      (p in x <==> p in nodes) && (p in nodes ==> x[p] == nodes[p])
  {
    if n > 0 {
      ExtractConfined(nodes, root, members, n - 1, p);
      ExtractRooted(nodes, root, members, n - 1);
      ExtractKeepsKinds(nodes, root, members, n - 1, root);
      PutConfined(ExtractTo(nodes, root, members, n - 1).nodes, root, members[n - 1], p);
    }
  }

  lemma PromotedConfined(nodes: Nodes, workspace: Path, p: Path)
    requires Rooted(nodes) && workspace != [] && IsDir(nodes, workspace) && !IsPrefix(Parent(workspace), p)
    ensures var x := Promoted(nodes, workspace).nodes; (p in x <==> p in nodes) && (p in nodes ==> x[p] == nodes[p])
  {
    var from, cleared := Unpacked(workspace), Cleared(nodes, workspace);
    BelowParent(workspace, p);
    ClearedKeeps(nodes, workspace, p);
    if from != workspace && from in nodes {
      ClearedRooted(nodes, workspace);
      SiblingsApart(workspace);
      EmptyInside(cleared, workspace);
      AllMovedAt(cleared, from, workspace, p);
    }
  }

  lemma BelowParent(workspace: Path, p: Path)
    requires workspace != [] && !IsPrefix(Parent(workspace), p)
    ensures !IsPrefix(workspace, p) && !IsPrefix(Unpacked(workspace), p)
  {
    assert workspace[..|Parent(workspace)|] == Parent(workspace);
    assert Unpacked(workspace)[..|Parent(workspace)|] == Parent(workspace);
    PrefixTransitive(Parent(workspace), workspace, p);
    PrefixTransitive(Parent(workspace), Unpacked(workspace), p);
  }

  lemma UnarchiveConfined(codec: Codec, nodes: Nodes, m: Metadata, lab: Id, workspace: Path, now: Time, p: Path)
    requires Rooted(nodes) && workspace != [] && IsDir(nodes, workspace) && Paths.Plain(Parent(workspace))
    requires !IsPrefix(Parent(workspace), p) && p != m.manifest
    ensures var x := Unarchive(codec, nodes, m, lab, workspace, now).nodes;
      (p in x <==> p in nodes) && (p in nodes ==> x[p] == nodes[p])
  {
    if m.archive in nodes && nodes[m.archive].File? && codec.unpack(nodes[m.archive].data).Some? {
      RefilledConfined(nodes, workspace, codec.unpack(nodes[m.archive].data).value, p);
    }
  }

  lemma RefilledConfined(nodes: Nodes, workspace: Path, members: seq<Member>, p: Path)
    requires Rooted(nodes) && workspace != [] && IsDir(nodes, workspace) && Paths.Plain(Parent(workspace))
    requires !IsPrefix(Parent(workspace), p)
    ensures var x := Refilled(nodes, workspace, members).nodes;
      (p in x <==> p in nodes) && (p in nodes ==> x[p] == nodes[p])
  {
    var root := Parent(workspace);
    NormKeepsPlain(root);
    ExtractConfined(nodes, root, members, |members|, p);
    ExtractRooted(nodes, root, members, |members|);
    ExtractKeepsKinds(nodes, root, members, |members|, workspace);
    var unpacked := ExtractTo(nodes, root, members, |members|);
    if unpacked.ok { PromotedConfined(unpacked.nodes, workspace, p); }
  }

  /**
   * For any archive and any manifest, a restore changes nothing outside the directory its target workspace is in
   * but the file the manifest names as its own; it only makes directories missing above the workspace.
   */
  lemma RestoreConfined(
    codec: Codec, nodes: Nodes, archive: Path, lab: Id, runtime: RuntimeClass, workspace: Path, now: Time, p: Path)
    requires Rooted(nodes) && workspace != [] && Paths.Plain(Parent(workspace)) && !IsPrefix(Parent(workspace), p)
    requires var m := LoadMetadata(codec, nodes, archive); m.Ok? ==> p != m.value.manifest
    ensures var x := Restore(codec, nodes, archive, lab, runtime, workspace, now).nodes;
      && (p in nodes ==> p in x && x[p] == nodes[p])
      && (p in x && p !in nodes ==> IsPrefix(p, workspace) && x[p].Dir?)
  {
    var made, m := MakeDirs(nodes, workspace), LoadMetadata(codec, nodes, archive);
    RestoreCases(codec, nodes, archive, lab, runtime, workspace, now);
    MakeDirsRooted(nodes, workspace);
    MakeDirsOnlyAbove(nodes, workspace, p);
    if m.Ok? && made.ok {
      ClearedRooted(made.nodes, workspace);
      BelowParent(workspace, p);
      ClearedKeeps(made.nodes, workspace, p);
      UnarchiveConfined(codec, Cleared(made.nodes, workspace), m.value, lab, workspace, now, p);
    }
  }

  // ---------- what a snapshot records ----------

  /**
   * Right after it is taken the manifest of a snapshot says whose workspace it is, taken when and of what runtime, and
   * holds digest and size of the archive on the disk, which holds every file of the workspace under its own name.
   */
  lemma ManifestTells<S>(
    codec: Codec, hash: Hash<S>, before: Nodes, taken: Nodes, q: Request, m: Metadata, members: seq<Member>,
    rels: seq<Path>)
    requires Lossless(codec) && Taken(codec, hash, before, taken, q, m, members, rels)
    requires Rooted(before) && IsDir(before, q.st.workspace) && !IsPrefix(q.st.workspace, q.st.snapshots)
    ensures var name := Label(q.id);
      var archive, manifest := q.st.snapshots + [name + ".tar.gz"], q.st.snapshots + [name + ".json"];
      && archive in taken && taken[archive].File?
      && manifest in taken && taken[manifest].File? && codec.load(taken[manifest].data) == Some(m)
      && m.snapshot == q.id && m.lab == q.lab && m.run == q.run && m.profile == q.row.profile
      && m.runtime == Container && m.state == Created && m.createdAt == q.now
      && m.restoredAt == None && m.restoredLab == None
      && m.archive == archive && m.manifest == manifest && m.workspace == q.st.workspace
      && m.sha256 == Digest(hash, taken[archive].data) && m.size == |taken[archive].data|
      && codec.unpack(taken[archive].data) == Some(members)
      && forall rel :: q.st.workspace + rel in before ==>
           Member(MemberName(rel), before[q.st.workspace + rel]) in members
  {
    ArchiveIsNotManifest(q.st, q.id);
    SourceIsWorkspace(before, q.st, q.id);
    forall rel | q.st.workspace + rel in before
      ensures Member(MemberName(rel), before[q.st.workspace + rel]) in members
    {
      assert q.st.workspace + rel in Source(before, q.st, q.id);
      assert rel in rels;
      var i :| 0 <= i < |rels| && rels[i] == rel;
      assert members[i] == Member(MemberName(rel), before[q.st.workspace + rel]);
    }
  }

  // ---------- what a restore answers ----------

  /** The archive can be opened, and is no directory. */
  predicate Readable(codec: Codec, nodes: Nodes, archive: Path) {
    archive in nodes && nodes[archive].File? && codec.unpack(nodes[archive].data) != None
  }

  /** Every member of an archive that can be opened stays in the directory it is unpacked into. */
  ghost predicate Harmless(codec: Codec, nodes: Nodes, archive: Path, workspace: Path)
    requires workspace != []
  {
    Readable(codec, nodes, archive) ==>
      forall x :: x in codec.unpack(nodes[archive].data).value ==> SafeMember(Norm(Parent(workspace)), x.name)
  }

  /** The metadata of a restore into this lab, recorded in the manifest. */
  predicate Recorded(codec: Codec, nodes: Nodes, m: Metadata, r: Metadata, lab: Id, now: Time) {
    && r == m.(state := Restored, restoredAt := Some(now), restoredLab := Some(lab))
    && r.manifest in nodes && nodes[r.manifest] == File(codec.dump(r))
  }

  /**
   * What the answer to a restore means. Only containers are restored, from a snapshot of a container and into one; the
   * disk is left alone by every check up to the archive's being there; an archive is refused exactly if a member would
   * leave the directory, once the workspace was cleared; success is recorded in the manifest.
   */
  lemma RestoreAnswered(
    codec: Codec, nodes: Nodes, archive: Path, lab: Id, runtime: RuntimeClass, workspace: Path, now: Time)
    ensures var o := Restore(codec, nodes, archive, lab, runtime, workspace, now);
      var m, made := LoadMetadata(codec, nodes, archive), MakeDirs(nodes, workspace);
      var beside := if archive == [] then [] else ManifestPathFor(archive);
      var containers := m.Ok? && m.value.runtime == Container && runtime == Container;
      var ready := containers && m.value.archive in nodes && made.ok && workspace != [];
      match o.result
      case Err(ManifestMissing) => beside !in nodes && o.nodes == nodes
      case Err(ManifestInvalid) =>
        beside in nodes && nodes[beside].File? && codec.load(nodes[beside].data) == None && o.nodes == nodes
      case Err(UnsupportedRuntime) => m.Ok? && !containers && o.nodes == nodes
      case Err(ArchiveMissing) => containers && m.value.archive !in nodes && o.nodes == nodes
      case Err(UnsafeArchive) =>
        && ready && !Harmless(codec, Cleared(made.nodes, workspace), m.value.archive, workspace)
        && o.nodes == Cleared(made.nodes, workspace)
      case Err(FileSystemFailure) =>
        || ((archive == [] || IsDir(nodes, beside)) && o.nodes == nodes)
        || (containers && m.value.archive in nodes && !ready && o.nodes == made.nodes)
        || (ready && Harmless(codec, Cleared(made.nodes, workspace), m.value.archive, workspace))
      case Ok(r) =>
        && ready && Harmless(codec, Cleared(made.nodes, workspace), m.value.archive, workspace)
        && Recorded(codec, o.nodes, m.value, r, lab, now)
  {
    var m, made := LoadMetadata(codec, nodes, archive), MakeDirs(nodes, workspace);
    if m.Ok? && m.value.archive in nodes && made.ok && workspace != [] {
      UnarchiveAnswered(codec, Cleared(made.nodes, workspace), m.value, lab, workspace, now);
    }
  }

  lemma UnarchiveAnswered(codec: Codec, nodes: Nodes, m: Metadata, lab: Id, workspace: Path, now: Time)
    requires workspace != []
    ensures var o := Unarchive(codec, nodes, m, lab, workspace, now);
      match o.result
      case Ok(r) => Harmless(codec, nodes, m.archive, workspace) && Recorded(codec, o.nodes, m, r, lab, now)
      case Err(why) =>
        && (why == UnsafeArchive || why == FileSystemFailure)
        && (why == UnsafeArchive <==> !Harmless(codec, nodes, m.archive, workspace))
        && (why == UnsafeArchive ==> o.nodes == nodes)
  {
    if Readable(codec, nodes, m.archive) {
      AllSafeIsHarmless(codec.unpack(nodes[m.archive].data).value, Norm(Parent(workspace)));
    }
  }

  lemma AllSafeIsHarmless(members: seq<Member>, root: Path)
    ensures AllSafe(root, members) <==> forall x :: x in members ==> SafeMember(root, x.name)
  {
    if AllSafe(root, members) {
      forall x | x in members ensures SafeMember(root, x.name) {
        var i :| 0 <= i < |members| && members[i] == x;
      }
    } else {
      var i :| 0 <= i < |members| && !SafeMember(root, members[i].name);
      assert members[i] in members;
    }
  }
}
