/** Snapshots of a lab's workspace: packed into an archive with a manifest beside it, and restored into any lab. */
module Snapshots {
  import opened Basics
  import opened Schema
  import opened Paths
  import opened Files
  import opened FileTree

  datatype SnapshotState = Created | Restored

  datatype Metadata = Metadata(
    snapshot: Id,
    lab: Id,
    run: Option<Id>,
    profile: string,
    runtime: RuntimeClass,
    state: SnapshotState,
    archive: Path,
    manifest: Path,
    sha256: string,
    size: nat,
    workspace: Path,
    createdAt: Time,
    restoredAt: Option<Time>,
    restoredLab: Option<Id>)

  datatype SnapshotError =
    | UnsupportedRuntime | ManifestMissing | ManifestInvalid | ArchiveMissing | UnsafeArchive | FileSystemFailure

  /** The archive and manifest formats: any that read back what they wrote. */
  datatype Codec = Codec(
    pack: seq<Member> -> Content,
    unpack: Content -> Option<seq<Member>>,
    dump: Metadata -> Content,
    load: Content -> Option<Metadata>)

  ghost predicate Lossless(c: Codec) {
    (forall m :: c.unpack(c.pack(m)) == Some(m)) && (forall m :: c.load(c.dump(m)) == Some(m))
  }

  // ---------- file names ----------

  function SplitDots(s: string): (r: seq<string>)
    ensures |r| >= 1
  {
    if s == "" then [""]
    else
      var rest := SplitDots(s[1..]);
      if s[0] == '.' then [""] + rest else [[s[0]] + rest[0]] + rest[1..]
  }

  function DropDots(s: string): string { if s != "" && s[0] == '.' then DropDots(s[1..]) else s }

  /** `PurePath.suffixes` of a name, each without its dot. */
  function Suffixes(name: string): seq<string> {
    if name == "" || name[|name| - 1] == '.' then [] else SplitDots(DropDots(name))[1..]
  }

  function LastDot(s: string): (i: int)
    ensures -1 <= i < |s|
  {
    if s == "" then -1 else if s[|s| - 1] == '.' then |s| - 1 else LastDot(s[..|s| - 1])
  }

  /** A name without its last suffix, if it has one. */
  function Stem(name: string): string {
    var i := LastDot(name);
    if 0 < i < |name| - 1 then name[..i] else name
  }

  function WithSuffix(name: string, suffix: string): string { Stem(name) + suffix }

  function ManifestName(archive: string): string {
    var s := Suffixes(archive);
    if |s| >= 2 && s[|s| - 2..] == ["tar", "gz"] then WithSuffix(WithSuffix(archive, ""), ".json")
    else WithSuffix(archive, ".json")
  }

  /** Where the manifest of an archive is looked for. */
  function ManifestPathFor(archive: Path): Path
    requires archive != []
  {
    Parent(archive) + [ManifestName(archive[|archive| - 1])]
  }

  predicate Digits(s: string) { forall i :: 0 <= i < |s| ==> '0' <= s[i] <= '9' }

  lemma {:induction false} LabelDigits(n: Id)
    ensures Digits(Label(n)) && |Label(n)| >= 1
  {
    if n >= 10 { LabelDigits(n / 10); }
  }

  lemma {:induction false} SplitDotsAt(word: string, rest: string)
    requires '.' !in word
    ensures SplitDots(word + ['.'] + rest) == [word] + SplitDots(rest)
  {
    var s := word + ['.'] + rest;
    if word == "" {
      assert s[1..] == rest;
    } else {
      assert s[1..] == word[1..] + ['.'] + rest && s[0] == word[0];
      SplitDotsAt(word[1..], rest);
      assert [word[0]] + word[1..] == word;
    }
  }

  lemma {:induction false} SplitDotsWord(word: string)
    requires '.' !in word
    ensures SplitDots(word) == [word]
  {
    if word != "" {
      SplitDotsWord(word[1..]);
      assert [word[0]] + word[1..] == word;
    }
  }

  lemma {:induction false} LastDotAt(stem: string, ext: string)
    requires '.' !in ext
    ensures LastDot(stem + ['.'] + ext) == |stem|
  {
    var s := stem + ['.'] + ext;
    if ext == "" {
      assert s[|s| - 1] == '.';
    } else {
      var n := |ext| - 1;
      assert s[..|s| - 1] == stem + ['.'] + ext[..n];
      assert s[|s| - 1] == ext[n] && ext[n] in ext;
      LastDotAt(stem, ext[..n]);
    }
  }

  lemma StemOf(stem: string, ext: string)
    requires stem != "" && ext != "" && '.' !in ext
    ensures Stem(stem + ['.'] + ext) == stem
  {
    LastDotAt(stem, ext);
    assert (stem + ['.'] + ext)[..|stem|] == stem;
  }

  lemma ArchiveSuffixes(stem: string)
    requires stem != "" && '.' !in stem
    ensures Suffixes(stem + ['.'] + ("tar" + ['.'] + "gz")) == ["tar", "gz"]
  {
    var name := stem + ['.'] + ("tar" + ['.'] + "gz");
    SplitDotsAt(stem, "tar" + ['.'] + "gz");
    SplitDotsAt("tar", "gz");
    SplitDotsWord("gz");
    assert name[0] in stem && DropDots(name) == name && name[|name| - 1] == 'z';
  }

  lemma ArchiveManifest(stem: string)
    requires stem != "" && '.' !in stem
    ensures ManifestName(stem + ['.'] + ("tar" + ['.'] + "gz")) == stem + ".json"
  {
    var name := stem + ['.'] + ("tar" + ['.'] + "gz");
    ArchiveSuffixes(stem);
    assert name == (stem + ['.'] + "tar") + ['.'] + "gz";
    StemOf(stem + ['.'] + "tar", "gz");
    StemOf(stem, "tar");
    assert WithSuffix(name, "") == stem + ['.'] + "tar";
  }

  lemma ArchiveExtension(stem: string)
    ensures stem + ".tar.gz" == stem + ['.'] + ("tar" + ['.'] + "gz")
  {
    var ext := ['.'] + ("tar" + ['.'] + "gz");
    assert ".tar.gz" == ext;
    assert stem + ext == stem + ['.'] + ("tar" + ['.'] + "gz");
  }

  lemma LabelHasNoDot(n: Id)
    ensures Label(n) != "" && '.' !in Label(n)
  {
    LabelDigits(n);
  }

  /** The manifest of `<id>.tar.gz` is `<id>.json` beside it. */
  lemma ManifestBesideArchive(dir: Path, id: Id)
    ensures ManifestPathFor(dir + [Label(id) + ".tar.gz"]) == dir + [Label(id) + ".json"]
  {
    LabelHasNoDot(id);
    ArchiveExtension(Label(id));
    ArchiveManifest(Label(id));
    assert Parent(dir + [Label(id) + ".tar.gz"]) == dir;
  }

  // ---------- packing ----------

  /** A member name for a location inside the workspace. */
  function Joined(p: Path): string
    requires p != []
  {
    if |p| == 1 then p[0] else p[0] + ['/'] + Joined(p[1..])
  }

  function MemberName(rel: Path): string { Joined(["workspace"] + rel) }

  /** A name a directory entry can have. */
  predicate CleanName(c: string) { Kept(c) && c != ".." && '/' !in c }

  ghost predicate CleanTree(nodes: Nodes) { forall p, i :: p in nodes && 0 <= i < |p| ==> CleanName(p[i]) }

  lemma {:induction false} JoinedSegments(p: Path)
    requires p != [] && forall i :: 0 <= i < |p| ==> CleanName(p[i])
    ensures Segments(Joined(p)) == p && AnchorOf(Joined(p)) == Relative
  {
    if |p| == 1 {
      SegmentsWord(p[0]);
      assert p[0][0] in p[0];
    } else {
      JoinedSegments(p[1..]);
      SegmentsCons(p[0], Joined(p[1..]));
      assert p[0][0] in p[0];
    }
  }

  /**
   * The members are the workspace and everything inside it, once each, directories before what they hold; `rels`
   * are their locations inside the workspace.
   */
  ghost predicate Packs(members: seq<Member>, rels: seq<Path>, nodes: Nodes, workspace: Path) {
    && |members| == |rels|
    && (forall i :: 0 <= i < |rels| ==>
          workspace + rels[i] in nodes && members[i] == Member(MemberName(rels[i]), nodes[workspace + rels[i]]))
    && Ordered(rels)
    && (forall rel :: workspace + rel in nodes ==> rel in rels)
  }

  // ---------- restoring, as a function of the disk ----------

  function LoadMetadata(codec: Codec, nodes: Nodes, archive: Path): Result<Metadata, SnapshotError> {
    if archive == [] then Err(FileSystemFailure)
    else
      var manifest := ManifestPathFor(archive);
      if manifest !in nodes then Err(ManifestMissing)
      else if nodes[manifest].Dir? then Err(FileSystemFailure)
      else
        match codec.load(nodes[manifest].data)
        case None => Err(ManifestInvalid)
        case Some(m) => Ok(m)
  }

  predicate AllSafe(root: Path, members: seq<Member>) {
    forall i :: 0 <= i < |members| ==> SafeMember(root, members[i].name)
  }

  /** Where an archive unpacks its workspace, next to the directory it is restored into. */
  function Unpacked(workspace: Path): Path
    requires workspace != []
  {
    Parent(workspace) + ["workspace"]
  }

  /** What is unpacked beside the workspace becomes its content. */
  function Promoted(nodes: Nodes, workspace: Path): Change
    requires workspace != []
  {
    var from := Unpacked(workspace);
    if from == workspace || from !in nodes then Change(nodes, true)
    else
      var cleared := Cleared(nodes, workspace);
      if cleared[from].Dir? then Change(Moved(cleared, from, workspace, Names(cleared, from)) - {from}, true)
      else Change(cleared, false)
  }

  /** Unpacking the members and promoting them, into a workspace that was made and cleared. */
  function Refilled(nodes: Nodes, workspace: Path, members: seq<Member>): Change
    requires workspace != []
  {
    var unpacked := ExtractTo(nodes, Norm(Parent(workspace)), members, |members|);
    if unpacked.ok then Promoted(unpacked.nodes, workspace) else unpacked
  }

  function WriteFile(nodes: Nodes, p: Path, data: Content): Change {
    if p == [] || IsDir(nodes, p) || !IsDir(nodes, Parent(p)) then Change(nodes, false)
    else Change(nodes[p := File(data)], true)
  }

  datatype RestoreOutcome = RestoreOutcome(nodes: Nodes, result: Result<Metadata, SnapshotError>)

  function RestoredMetadata(m: Metadata, lab: Id, now: Time): Metadata {
    m.(state := Restored, restoredAt := Some(now), restoredLab := Some(lab))
  }

  /** From the point where the workspace was made and cleared. */
  function Unarchive(codec: Codec, nodes: Nodes, m: Metadata, lab: Id, workspace: Path, now: Time): RestoreOutcome
    requires workspace != []
  {
    if m.archive !in nodes || nodes[m.archive].Dir? then RestoreOutcome(nodes, Err(FileSystemFailure))
    else
      match codec.unpack(nodes[m.archive].data)
      case None => RestoreOutcome(nodes, Err(FileSystemFailure))
      case Some(members) =>
        if !AllSafe(Norm(Parent(workspace)), members) then RestoreOutcome(nodes, Err(UnsafeArchive))
        else
          var refilled := Refilled(nodes, workspace, members);
          if !refilled.ok then RestoreOutcome(refilled.nodes, Err(FileSystemFailure))
          else
            var r := RestoredMetadata(m, lab, now);
            var written := WriteFile(refilled.nodes, m.manifest, codec.dump(r));
            RestoreOutcome(written.nodes, if written.ok then Ok(r) else Err(FileSystemFailure))
  }

  /** The whole restore: on a failure part of it may have happened, down to a workspace left empty. */
  function Restore(
    codec: Codec, nodes: Nodes, archive: Path, lab: Id, runtime: RuntimeClass, workspace: Path, now: Time)
    : RestoreOutcome
  {
    match LoadMetadata(codec, nodes, archive)
    case Err(e) => RestoreOutcome(nodes, Err(e))
    case Ok(m) =>
      if !m.runtime.Container? || !runtime.Container? then RestoreOutcome(nodes, Err(UnsupportedRuntime))
      else if m.archive !in nodes then RestoreOutcome(nodes, Err(ArchiveMissing))
      else
        var made := MakeDirs(nodes, workspace);
        if !made.ok || workspace == [] then RestoreOutcome(made.nodes, Err(FileSystemFailure))
        else Unarchive(codec, Cleared(made.nodes, workspace), m, lab, workspace, now)
  }

  // ---------- every change keeps the disk a tree ----------

  lemma {:induction false} MakeDirsRooted(nodes: Nodes, p: Path)
    requires Rooted(nodes)
    ensures Rooted(MakeDirs(nodes, p).nodes)
    ensures MakeDirs(nodes, p).ok ==> IsDir(MakeDirs(nodes, p).nodes, p)
    ensures forall q :: q in nodes ==> q in MakeDirs(nodes, p).nodes && MakeDirs(nodes, p).nodes[q] == nodes[q]
    decreases |p|
  {
    if p !in nodes && p != [] { MakeDirsRooted(nodes, Parent(p)); }
  }

  lemma ClearedRooted(nodes: Nodes, dir: Path)
    requires Rooted(nodes)
    ensures Rooted(Cleared(nodes, dir)) && Children(Cleared(nodes, dir), dir) == {}
  {
    forall p | p in Cleared(nodes, dir) && p != [] ensures !Inside(dir, Parent(p)) {
      InsideBelow(dir, p);
    }
  }

  lemma InsideBelow(dir: Path, p: Path)
    requires p != []
    ensures IsPrefix(dir, Parent(p)) ==> Inside(dir, p)
  {
    assert forall n :: 0 <= n < |p| ==> Parent(p)[..n] == p[..n];
  }

  lemma PutRooted(nodes: Nodes, root: Path, m: Member)
    requires Rooted(nodes)
    ensures Rooted(PutMember(nodes, root, m).nodes)
  {
    var t := Target(root, m);
    if IsPrefix(root, t) && t != [] { MakeDirsRooted(nodes, Parent(t)); }
  }

  lemma {:induction false} ExtractRooted(nodes: Nodes, root: Path, members: seq<Member>, n: nat)
    requires Rooted(nodes) && n <= |members|
    ensures Rooted(ExtractTo(nodes, root, members, n).nodes)
  {
    if n > 0 {
      ExtractRooted(nodes, root, members, n - 1);
      PutRooted(ExtractTo(nodes, root, members, n - 1).nodes, root, members[n - 1]);
    }
  }

  lemma SiblingsApart(workspace: Path)
    requires workspace != [] && Unpacked(workspace) != workspace
    ensures Apart(Unpacked(workspace), workspace)
  {
    var a := Unpacked(workspace);
    assert |a| == |workspace| && a[..|a|] == a && workspace[..|workspace|] == workspace;
  }

  /** Moving a whole tree into an empty directory leaves a tree, without the place it came from. */
  lemma MovedRooted(nodes: Nodes, from: Path, to: Path)
    requires Rooted(nodes) && Apart(from, to) && IsDir(nodes, to) && Children(nodes, to) == {}
    ensures Rooted(Moved(nodes, from, to, Names(nodes, from)) - {from})
  {
    var x := Moved(nodes, from, to, Names(nodes, from)) - {from};
    EmptyInside(nodes, to);
    forall q | q in x && q != [] ensures IsDir(x, Parent(q)) {
      AllMovedAt(nodes, from, to, q);
      AllMovedAt(nodes, from, to, Parent(q));
      InsideBelow(from, q);
      InsideBelow(to, q);
      if Inside(to, q) && Parent(q) != to { MovedParent(from, to, q); }
      NotBoth(from, to, Parent(q));
    }
  }

  /** Parents of what is moved move along. */
  lemma MovedParent(from: Path, to: Path, q: Path)
    requires Inside(to, q) && q != [] && Parent(q) != to
    ensures Inside(to, Parent(q))
    ensures from + q[|to|..] != [] && Parent(from + q[|to|..]) == from + Parent(q)[|to|..]
  {
    InsideUnlessSame(to, q);
  }

  lemma PromotedRooted(nodes: Nodes, workspace: Path)
    requires Rooted(nodes) && workspace != [] && IsDir(nodes, workspace)
    ensures Rooted(Promoted(nodes, workspace).nodes)
  {
    var from := Unpacked(workspace);
    if from != workspace && from in nodes {
      ClearedRooted(nodes, workspace);
      SiblingsApart(workspace);
      if nodes[from].Dir? { MovedRooted(Cleared(nodes, workspace), from, workspace); }
    }
  }

  /** Unpacking keeps what is a directory a directory, and a file a file. */
  lemma PutKeepsKinds(nodes: Nodes, root: Path, m: Member, p: Path)
    requires p in nodes
    ensures p in PutMember(nodes, root, m).nodes && (PutMember(nodes, root, m).nodes[p].Dir? <==> nodes[p].Dir?)
  {
    var t := Target(root, m);
    if IsPrefix(root, t) && t != [] { MakeDirsKeeps(nodes, Parent(t), p); }
  }

  lemma {:induction false} MakeDirsKeeps(nodes: Nodes, dir: Path, p: Path)
    requires p in nodes
    ensures p in MakeDirs(nodes, dir).nodes && MakeDirs(nodes, dir).nodes[p] == nodes[p]
    decreases |dir|
  {
    if dir !in nodes && dir != [] { MakeDirsKeeps(nodes, Parent(dir), p); }
  }

  lemma {:induction false} ExtractKeepsKinds(nodes: Nodes, root: Path, members: seq<Member>, n: nat, p: Path)
    requires p in nodes && n <= |members|
    ensures var x := ExtractTo(nodes, root, members, n).nodes; p in x && (x[p].Dir? <==> nodes[p].Dir?)
  {
    if n > 0 {
      ExtractKeepsKinds(nodes, root, members, n - 1, p);
      PutKeepsKinds(ExtractTo(nodes, root, members, n - 1).nodes, root, members[n - 1], p);
    }
  }

  lemma RefilledRooted(nodes: Nodes, workspace: Path, members: seq<Member>)
    requires Rooted(nodes) && workspace != [] && IsDir(nodes, workspace)
    ensures Rooted(Refilled(nodes, workspace, members).nodes)
  {
    var root := Norm(Parent(workspace));
    ExtractRooted(nodes, root, members, |members|);
    ExtractKeepsKinds(nodes, root, members, |members|, workspace);
    var unpacked := ExtractTo(nodes, root, members, |members|);
    if unpacked.ok { PromotedRooted(unpacked.nodes, workspace); }
  }

  lemma WriteRooted(nodes: Nodes, p: Path, data: Content)
    requires Rooted(nodes)
    ensures Rooted(WriteFile(nodes, p, data).nodes)
  {
    if WriteFile(nodes, p, data).ok { FileRooted(nodes, p, data); }
  }

  lemma UnarchiveRooted(codec: Codec, nodes: Nodes, m: Metadata, lab: Id, workspace: Path, now: Time)
    requires Rooted(nodes) && workspace != [] && IsDir(nodes, workspace)
    ensures Rooted(Unarchive(codec, nodes, m, lab, workspace, now).nodes)
  {
    if m.archive in nodes && nodes[m.archive].File? && codec.unpack(nodes[m.archive].data).Some? {
      var members := codec.unpack(nodes[m.archive].data).value;
      RefilledRooted(nodes, workspace, members);
      WriteRooted(Refilled(nodes, workspace, members).nodes, m.manifest, codec.dump(RestoredMetadata(m, lab, now)));
    }
  }

  /** A restore leaves the disk alone, makes directories, or goes on to unpack. */
  lemma RestoreCases(
    codec: Codec, nodes: Nodes, archive: Path, lab: Id, runtime: RuntimeClass, workspace: Path, now: Time)
    ensures var o, made := Restore(codec, nodes, archive, lab, runtime, workspace, now), MakeDirs(nodes, workspace);
      || o.nodes == nodes
      || o.nodes == made.nodes
      || (made.ok && workspace != [] && LoadMetadata(codec, nodes, archive).Ok?
          && o == Unarchive(codec, Cleared(made.nodes, workspace), LoadMetadata(codec, nodes, archive).value, lab,
                            workspace, now))
  {
  }

  /** Whatever a restore does, on success or failure, the disk stays a tree. */
  lemma RestoreRooted(
    codec: Codec, nodes: Nodes, archive: Path, lab: Id, runtime: RuntimeClass, workspace: Path, now: Time)
    requires Rooted(nodes)
    ensures Rooted(Restore(codec, nodes, archive, lab, runtime, workspace, now).nodes)
  {
    var made, m := MakeDirs(nodes, workspace), LoadMetadata(codec, nodes, archive);
    RestoreCases(codec, nodes, archive, lab, runtime, workspace, now);
    MakeDirsRooted(nodes, workspace);
    if made.ok && workspace != [] && m.Ok? {
      ClearedRooted(made.nodes, workspace);
      UnarchiveRooted(codec, Cleared(made.nodes, workspace), m.value, lab, workspace, now);
    }
  }

  lemma FileRooted(nodes: Nodes, p: Path, data: Content)
    requires Rooted(nodes) && p != [] && IsDir(nodes, Parent(p)) && !IsDir(nodes, p)
    ensures Rooted(nodes[p := File(data)])
  {
  }

  // ---------- taking a snapshot ----------

  /** What is asked for: a snapshot under this id of this lab's workspace. */
  datatype Request = Request(id: Id, lab: Id, row: Lab, st: Storage, run: Option<Id>, now: Time)

  function ArchivePath(st: Storage, id: Id): Path { st.snapshots + [Label(id) + ".tar.gz"] }

  function ManifestPath(st: Storage, id: Id): Path { st.snapshots + [Label(id) + ".json"] }

  /** Nothing on the disk is in the way of a snapshot, and there is a workspace to pack. */
  predicate CanTake(before: Nodes, st: Storage, id: Id) {
    var made := MakeDirs(before, st.snapshots);
    && made.ok && !IsDir(made.nodes, ArchivePath(st, id)) && !IsDir(made.nodes, ManifestPath(st, id))
    && st.workspace in made.nodes - {ArchivePath(st, id)}
  }

  /** What a snapshot that failed leaves: directories, perhaps an empty archive, perhaps one without its manifest. */
  ghost predicate FailedTake(
    codec: Codec, before: Nodes, after: Nodes, st: Storage, id: Id, members: seq<Member>, rels: seq<Path>)
  {
    var made, archive := MakeDirs(before, st.snapshots), ArchivePath(st, id);
    if !made.ok || IsDir(made.nodes, archive) then after == made.nodes
    else if st.workspace !in made.nodes - {archive} then after == made.nodes[archive := File(codec.pack([]))]
    else Packs(members, rels, made.nodes - {archive}, st.workspace)
         && after == made.nodes[archive := File(codec.pack(members))]
  }

  /** `after` is `before` with the snapshot of the workspace written; the archive itself is never packed. */
  ghost predicate Taken<S>(
    codec: Codec, hash: Hash<S>, before: Nodes, after: Nodes, q: Request, m: Metadata, members: seq<Member>,
    rels: seq<Path>)
  {
    var made, data := MakeDirs(before, q.st.snapshots), codec.pack(members);
    var archive, manifest := ArchivePath(q.st, q.id), ManifestPath(q.st, q.id);
    && q.row.runtime.Container? && CanTake(before, q.st, q.id)
    && Packs(members, rels, made.nodes - {archive}, q.st.workspace)
    && m == Metadata(q.id, q.lab, q.run, q.row.profile, q.row.runtime, Created, archive, manifest,
                     Digest(hash, data), |data|, q.st.workspace, q.now, None, None)
    && after == made.nodes[archive := File(data)][manifest := File(codec.dump(m))]
  }

  // ---------- the manager ----------

  class SnapshotManager<!S> {
    const codec: Codec
    const hash: Hash<S>

    constructor (codec: Codec, hash: Hash<S>)
      ensures this.codec == codec && this.hash == hash
    {
      this.codec := codec;
      this.hash := hash;
    }

    /** Lists the workspace and everything inside it for the archive. */
    method PackTree(nodes: Nodes, workspace: Path) returns (members: seq<Member>, rels: seq<Path>)
      ensures Packs(members, rels, nodes, workspace)
    {
      var all := set p | p in nodes && IsPrefix(workspace, p) :: p[|workspace|..];
      WorkspacePaths(nodes, workspace, all);
      rels := ShortestFirst(all);
      assert forall i :: 0 <= i < |rels| ==> rels[i] in all;
      members := seq(|rels|, i requires 0 <= i < |rels| && workspace + rels[i] in nodes =>
                                 Member(MemberName(rels[i]), nodes[workspace + rels[i]]));
    }

    /**
     * Packs the workspace into an archive in the lab's snapshots directory and writes the manifest beside it;
     * nothing else on the disk changes but directories made on the way.
     */
    method CreateSnapshot(tree: Tree, q: Request)
      returns (r: Result<Metadata, SnapshotError>, ghost members: seq<Member>, ghost rels: seq<Path>)
      requires Rooted(tree.nodes)
      modifies tree
      ensures Rooted(tree.nodes)
      ensures !q.row.runtime.Container? ==> r == Err(UnsupportedRuntime) && tree.nodes == old(tree.nodes)
      ensures forall p :: p in old(tree.nodes) && p != ArchivePath(q.st, q.id) && p != ManifestPath(q.st, q.id) ==>
        p in tree.nodes && tree.nodes[p] == old(tree.nodes)[p]
      ensures r.Ok? <==> q.row.runtime.Container? && CanTake(old(tree.nodes), q.st, q.id)
      ensures r.Ok? ==>
        Taken(codec, hash, old(tree.nodes), tree.nodes, q, r.value, members, rels)
      ensures r.Err? && q.row.runtime.Container? ==>
        r.error == FileSystemFailure && FailedTake(codec, old(tree.nodes), tree.nodes, q.st, q.id, members, rels)
    {
      members, rels := [], [];
      if !q.row.runtime.Container? {
        r := Err(UnsupportedRuntime);
        return;
      }
      var archive, manifest := ArchivePath(q.st, q.id), ManifestPath(q.st, q.id);
      MakeDirsRooted(tree.nodes, q.st.snapshots);
      var made := tree.Mkdir(q.st.snapshots);
      assert Parent(archive) == q.st.snapshots && Parent(manifest) == q.st.snapshots;
      if !made || IsDir(tree.nodes, archive) {
        r := Err(FileSystemFailure);
        return;
      }
      ghost var base := tree.nodes;
      var source := tree.nodes - {archive};
      if q.st.workspace !in source {
        FileRooted(tree.nodes, archive, codec.pack([]));
        tree.nodes := tree.nodes[archive := File(codec.pack([]))];
        r := Err(FileSystemFailure);
        return;
      }
      var packed, order := PackTree(source, q.st.workspace);
      members, rels := packed, order;
      var data := codec.pack(packed);
      FileRooted(tree.nodes, archive, data);
      tree.nodes := tree.nodes[archive := File(data)];
      var digest := HashFile(hash, data);
      var metadata := Metadata(q.id, q.lab, q.run, q.row.profile, q.row.runtime, Created, archive, manifest, digest,
                               |data|, q.st.workspace, q.now, None, None);
      if IsDir(tree.nodes, manifest) {
        r := Err(FileSystemFailure);
        return;
      }
      FileRooted(tree.nodes, manifest, codec.dump(metadata));
      tree.nodes := tree.nodes[manifest := File(codec.dump(metadata))];
      r := Ok(metadata);
    }

    /** Restores a snapshot into a lab's workspace. */
    method RestoreSnapshot(
      tree: Tree, archive: Path, lab: Id, runtime: RuntimeClass, workspace: Path, now: Time)
      returns (r: Result<Metadata, SnapshotError>)
      requires Rooted(tree.nodes)
      modifies tree
      ensures RestoreOutcome(tree.nodes, r) == Restore(codec, old(tree.nodes), archive, lab, runtime, workspace, now)
      ensures Rooted(tree.nodes)
    {
      RestoreRooted(codec, tree.nodes, archive, lab, runtime, workspace, now);
      var loaded := LoadMetadata(codec, tree.nodes, archive);
      if loaded.Err? {
        return Err(loaded.error);
      }
      var m := loaded.value;
      if !m.runtime.Container? || !runtime.Container? {
        return Err(UnsupportedRuntime);
      }
      if m.archive !in tree.nodes {
        return Err(ArchiveMissing);
      }
      MakeDirsRooted(tree.nodes, workspace);
      var made := tree.Mkdir(workspace);
      if !made || workspace == [] {
        return Err(FileSystemFailure);
      }
      ClearedRooted(tree.nodes, workspace);
      tree.ClearDirectory(workspace);
      r := UnpackInto(tree, m, lab, workspace, now);
    }

    method UnpackInto(tree: Tree, m: Metadata, lab: Id, workspace: Path, now: Time)
      returns (r: Result<Metadata, SnapshotError>)
      requires Rooted(tree.nodes) && workspace != []
      modifies tree
      ensures RestoreOutcome(tree.nodes, r) == Unarchive(codec, old(tree.nodes), m, lab, workspace, now)
    {
      if m.archive !in tree.nodes || tree.nodes[m.archive].Dir? {
        return Err(FileSystemFailure);
      }
      var members := codec.unpack(tree.nodes[m.archive].data);
      if members.None? {
        return Err(FileSystemFailure);
      }
      if !AllSafe(Norm(Parent(workspace)), members.value) {
        return Err(UnsafeArchive);
      }
      var refilled := Refill(tree, workspace, members.value);
      if !refilled {
        return Err(FileSystemFailure);
      }
      var restored := RestoredMetadata(m, lab, now);
      var written := WriteFile(tree.nodes, m.manifest, codec.dump(restored));
      tree.nodes := written.nodes;
      r := if written.ok then Ok(restored) else Err(FileSystemFailure);
    }

    /** Unpacks the archive beside the workspace and, if that is another directory, moves its entries in. */
    method Refill(tree: Tree, workspace: Path, members: seq<Member>) returns (ok: bool)
      requires Rooted(tree.nodes) && workspace != []
      modifies tree
      ensures Change(tree.nodes, ok) == Refilled(old(tree.nodes), workspace, members)
    {
      ExtractRooted(tree.nodes, Norm(Parent(workspace)), members, |members|);
      ok := tree.ExtractAll(Norm(Parent(workspace)), members);
      if !ok {
        return;
      }
      var unpacked := Unpacked(workspace);
      if unpacked != workspace && unpacked in tree.nodes {
        ClearedRooted(tree.nodes, workspace);
        SiblingsApart(workspace);
        tree.ClearDirectory(workspace);
        if tree.nodes[unpacked].File? {
          return false;
        }
        tree.MoveEntries(unpacked, workspace);
        tree.nodes := tree.nodes - {unpacked};
      }
    }

    method ShortestFirst(all: set<Path>) returns (rels: seq<Path>)
      ensures Ordered(rels) && forall rel :: rel in rels <==> rel in all
    {
      var left := all;
      rels := [];
      while left != {}
        invariant left <= all && Ordered(rels) && NoLonger(rels, left)
        invariant forall rel :: rel in rels <==> rel in all && rel !in left
        decreases |left|
      {
        ShortestExists(left);
        var rel :| rel in left && forall other :: other in left ==> |rel| <= |other|;
        OrderedOneMore(rels, left, rel);
        left := left - {rel};
        rels := rels + [rel];
      }
    }
  }

  /** Without repetition, and no path before a shorter one. */
  predicate Ordered(rels: seq<Path>) {
    forall i, j :: 0 <= i < j < |rels| ==> rels[i] != rels[j] && |rels[i]| <= |rels[j]|
  }

  /** All listed paths are no longer than the ones left, and not among them. */
  predicate NoLonger(rels: seq<Path>, left: set<Path>) {
    forall i, rel :: 0 <= i < |rels| && rel in left ==> |rels[i]| <= |rel| && rels[i] != rel
  }

  lemma OrderedOneMore(rels: seq<Path>, left: set<Path>, rel: Path)
    requires Ordered(rels) && NoLonger(rels, left) && rel in left
    requires forall other :: other in left ==> |rel| <= |other|
    ensures Ordered(rels + [rel]) && NoLonger(rels + [rel], left - {rel})
  {
  }

  lemma WorkspacePaths(nodes: Nodes, workspace: Path, all: set<Path>)
    requires all == set p | p in nodes && IsPrefix(workspace, p) :: p[|workspace|..]
    ensures forall rel :: rel in all <==> workspace + rel in nodes
  {
    forall rel ensures rel in all <==> workspace + rel in nodes {
      var p := workspace + rel;
      assert p[..|workspace|] == workspace && p[|workspace|..] == rel;
      if rel in all {
        var q :| q in nodes && IsPrefix(workspace, q) && q[|workspace|..] == rel;
        assert q == p;
      }
    }
  }

  lemma {:induction false} ShortestExists(paths: set<Path>)
    requires paths != {}
    ensures exists p :: p in paths && forall q :: q in paths ==> |p| <= |q|
  {
    var x :| x in paths;
    var rest := paths - {x};
    if rest == {} {
      assert paths == {x};
    } else {
      ShortestExists(rest);
      var y :| y in rest && forall q :: q in rest ==> |y| <= |q|;
      var best := if |y| <= |x| then y else x;
      assert best in paths && forall q :: q in paths ==> |best| <= |q|;
    }
  }
}
