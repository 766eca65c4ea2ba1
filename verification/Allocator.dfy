/** Managed storage: making a lab's directories, and removing them without leaving the managed root. */
module Allocator {
  import opened Basics
  import opened Schema
  import opened Paths
  import opened Governance
  import opened FileTree
  import opened Snapshots
  import opened SnapshotLaws

  function AreasOf(st: Storage): seq<Path> { [st.workspace, st.exports, st.quarantine, st.snapshots] }

  /** Make the first `n` directories in turn, stopping at the first that cannot be. */
  function MakeAll(nodes: Nodes, dirs: seq<Path>, n: nat): Change
    requires n <= |dirs|
  {
    if n == 0 then Change(nodes, true)
    else
      var before := MakeAll(nodes, dirs, n - 1);
      if before.ok then MakeDirs(before.nodes, dirs[n - 1]) else before
  }

  /** The disk after a lab's storage is destroyed; refused for a path outside the managed root or a file. */
  function Deallocated(nodes: Nodes, managed: Path, root: Path): Change {
    if !Under(managed, root) then Change(nodes, false)
    else if root !in nodes then Change(nodes, true)
    else if nodes[root].File? then Change(nodes, false)
    else Change(Removed(nodes, root), true)
  }

  class ManagedStorageAllocator {
    const root: Path

    constructor (root: Path)
      ensures this.root == Norm(root) && Paths.Plain(this.root)
    {
      this.root := Norm(root);
      NormPlain(root);
    }

    method Allocate(tree: Tree, lab: Id) returns (st: Storage, ok: bool)
      modifies tree
      ensures st == Allocation(root, lab)
      ensures Change(tree.nodes, ok) == MakeAll(old(tree.nodes), AreasOf(st), 4)
    {
      st := Allocation(root, lab);
      var dirs := AreasOf(st);
      for i := 0 to 4
        invariant Change(tree.nodes, true) == MakeAll(old(tree.nodes), dirs, i)
      {
        ok := tree.Mkdir(dirs[i]);
        if !ok {
          StoppedMaking(old(tree.nodes), dirs, i + 1, 4);
          return;
        }
      }
      ok := true;
    }

    method Destroy(tree: Tree, st: Storage) returns (ok: bool)
      modifies tree
      ensures Change(tree.nodes, ok) == Deallocated(old(tree.nodes), root, st.root)
    {
      if !Under(root, st.root) {
        return false;
      }
      if st.root in tree.nodes {
        if tree.nodes[st.root].File? {
          return false;
        }
        tree.nodes := Removed(tree.nodes, st.root);
      }
      return true;
    }
  }

  lemma {:induction false} StoppedMaking(nodes: Nodes, dirs: seq<Path>, i: nat, n: nat)
    requires i <= n <= |dirs| && !MakeAll(nodes, dirs, i).ok
    ensures MakeAll(nodes, dirs, n) == MakeAll(nodes, dirs, i)
  {
    if i < n { StoppedMaking(nodes, dirs, i, n - 1); }
  }

  lemma {:induction false} MakeAllRooted(nodes: Nodes, dirs: seq<Path>, n: nat)
    requires n <= |dirs| && Rooted(nodes)
    ensures Rooted(MakeAll(nodes, dirs, n).nodes)
  {
    if n > 0 {
      MakeAllRooted(nodes, dirs, n - 1);
      MakeDirsRooted(MakeAll(nodes, dirs, n - 1).nodes, dirs[n - 1]);
    }
  }

  /** One of the first `n` directories is `q` or below it. */
  predicate AboveOne(dirs: seq<Path>, n: nat, q: Path)
    requires n <= |dirs|
  {
    exists i :: 0 <= i < n && IsPrefix(q, dirs[i])
  }

  /** Making directories keeps what exists and adds only directories above the ones asked for. */
  lemma {:induction false} MakeAllAdds(nodes: Nodes, dirs: seq<Path>, n: nat, q: Path)
    requires n <= |dirs|
    ensures var made := MakeAll(nodes, dirs, n).nodes;
      && (q in nodes ==> q in made && made[q] == nodes[q])
      && (q in made && q !in nodes ==> made[q].Dir? && AboveOne(dirs, n, q))
  {
    if n > 0 {
      var before := MakeAll(nodes, dirs, n - 1).nodes;
      MakeAllAdds(nodes, dirs, n - 1, q);
      MakeDirsOnlyAbove(before, dirs[n - 1], q);
      if q in MakeAll(nodes, dirs, n).nodes && q !in nodes {
        if q in before {
          var i :| 0 <= i < n - 1 && IsPrefix(q, dirs[i]);
          assert IsPrefix(q, dirs[i]);
        } else {
          assert IsPrefix(q, dirs[n - 1]);
        }
      }
    }
  }

  lemma {:induction false} MakeAllMakes(nodes: Nodes, dirs: seq<Path>, n: nat, i: nat)
    requires i < n <= |dirs| && MakeAll(nodes, dirs, n).ok
    ensures IsDir(MakeAll(nodes, dirs, n).nodes, dirs[i])
  {
    var before := MakeAll(nodes, dirs, n - 1).nodes;
    if i < n - 1 {
      MakeAllMakes(nodes, dirs, n - 1, i);
      MakeDirsOnlyAbove(before, dirs[n - 1], dirs[i]);
    } else {
      MakeDirsMakes(before, dirs[i]);
    }
  }

  lemma MakeDirsMakes(nodes: Nodes, p: Path)
    requires MakeDirs(nodes, p).ok
    ensures IsDir(MakeDirs(nodes, p).nodes, p)
  {
  }

  /**
   * Allocating a lab gives it its four directories, under the managed root; it changes nothing that existed, and
   * allocating again changes nothing at all.
   */
  lemma AllocateGives(nodes: Nodes, managed: Path, lab: Id)
    requires Rooted(nodes) && Paths.Plain(managed)
    ensures var st := Allocation(managed, lab);
      var made := MakeAll(nodes, AreasOf(st), 4);
      && (forall q :: q in nodes ==> q in made.nodes && made.nodes[q] == nodes[q])
      && (made.ok ==>
            && (forall dir :: dir in AreasOf(st) ==> IsDir(made.nodes, dir) && Under(managed, dir))
            && Under(managed, st.root)
            && MakeAll(made.nodes, AreasOf(st), 4) == made)
  {
    var st := Allocation(managed, lab);
    var dirs, made := AreasOf(st), MakeAll(nodes, AreasOf(st), 4);
    forall q ensures q in nodes ==> q in made.nodes && made.nodes[q] == nodes[q] { MakeAllAdds(nodes, dirs, 4, q); }
    if made.ok {
      forall i | 0 <= i < 4 ensures IsDir(made.nodes, dirs[i]) && Under(managed, dirs[i]) {
        MakeAllMakes(nodes, dirs, 4, i);
        AreaIsManaged(managed, lab, i);
      }
      RootIsManaged(managed, lab);
      MakeAgain(made.nodes, dirs, 4);
    }
  }

  lemma {:induction false} MakeAgain(nodes: Nodes, dirs: seq<Path>, n: nat)
    requires n <= |dirs| && forall i :: 0 <= i < n ==> IsDir(nodes, dirs[i])
    ensures MakeAll(nodes, dirs, n) == Change(nodes, true)
  {
    if n > 0 { MakeAgain(nodes, dirs, n - 1); }
  }

  lemma RootIsManaged(managed: Path, lab: Id)
    requires Paths.Plain(managed)
    ensures Under(managed, Allocation(managed, lab).root)
  {
    var root := Allocation(managed, lab).root;
    AllocatedPlain(managed, lab);
    NormKeepsPlain(root);
    assert root[..|managed|] == managed;
  }

  lemma AreaIsManaged(managed: Path, lab: Id, i: nat)
    requires Paths.Plain(managed) && i < 4
    ensures Under(managed, AreasOf(Allocation(managed, lab))[i])
  {
    var st := Allocation(managed, lab);
    var dir := AreasOf(st)[i];
    AllocatedPlain(managed, lab);
    assert Kept("workspace") && Kept("exports") && Kept("quarantine") && Kept("snapshots");
    assert dir[..|st.root|] == st.root && Parent(dir) == st.root;
    assert Paths.Plain(dir);
    NormKeepsPlain(dir);
    assert dir[..|managed|] == managed;
  }

  lemma {:induction false} AboveIsDir(nodes: Nodes, p: Path, q: Path)
    requires Rooted(nodes) && p in nodes && Inside(q, p)
    ensures IsDir(nodes, q)
    decreases |p|
  {
    InsideUnlessSame(q, p);
    if q != Parent(p) { AboveIsDir(nodes, Parent(p), q); }
  }

  /** Directories cannot be made exactly because a file is in the way. */
  lemma {:induction false} BlockedByFile(nodes: Nodes, p: Path) returns (q: Path)
    requires !MakeDirs(nodes, p).ok
    ensures IsPrefix(q, p) && q in nodes && nodes[q].File?
    decreases |p|
  {
    if p in nodes {
      q := p;
      assert p[..|p|] == p;
    } else {
      q := BlockedByFile(nodes, Parent(p));
      assert Parent(p)[..|q|] == p[..|q|];
    }
  }

  /** Making directories makes all those above the one asked for, and no others. */
  lemma MakeDirsExactly(nodes: Nodes, p: Path, q: Path)
    requires Rooted(nodes) && MakeDirs(nodes, p).ok
    ensures var made := MakeDirs(nodes, p).nodes;
      (q in made <==> q in nodes || IsPrefix(q, p)) && (q in made && q !in nodes ==> made[q].Dir?)
      && (q in nodes ==> made[q] == nodes[q])
  {
    MakeDirsRooted(nodes, p);
    MakeDirsOnlyAbove(nodes, p, q);
    if IsPrefix(q, p) { AboveExists(MakeDirs(nodes, p).nodes, p, q); }
  }

  /**
   * Destroying a lab right after allocating it leaves the disk as it was, with the directory of all labs made if
   * this was the first.
   */
  lemma DestroyUndoesAllocate(nodes: Nodes, managed: Path, lab: Id)
    requires Rooted(nodes) && Paths.Plain(managed) && Allocation(managed, lab).root !in nodes
    ensures var st := Allocation(managed, lab);
      var made := MakeAll(nodes, AreasOf(st), 4);
      made.ok ==>
        && Deallocated(made.nodes, managed, st.root) == Change(MakeDirs(nodes, managed + ["labs"]).nodes, true)
        && (IsDir(nodes, managed + ["labs"]) ==> Deallocated(made.nodes, managed, st.root) == Change(nodes, true))
  {
    var st, labs := Allocation(managed, lab), managed + ["labs"];
    var dirs, made := AreasOf(st), MakeAll(nodes, AreasOf(st), 4).nodes;
    if MakeAll(nodes, dirs, 4).ok {
      RootIsManaged(managed, lab);
      MakeAllRooted(nodes, dirs, 4);
      MakeAllMakes(nodes, dirs, 4, 0);
      LabsCanBeMade(nodes, managed, lab);
      assert Parent(dirs[0]) == st.root;
      var left := MakeDirs(nodes, labs).nodes;
      forall p ensures (p in Removed(made, st.root) <==> p in left) && (p in left ==> made[p] == left[p]) {
        OnlyOwnDirectories(nodes, managed, lab, p);
      }
    }
  }

  /** The directory of a lab's storage is inside the directory of all labs. */
  lemma LabsAbove(managed: Path, lab: Id, q: Path)
    ensures var st := Allocation(managed, lab);
      IsPrefix(q, managed + ["labs"]) ==> Inside(q, st.root) && Inside(q, st.workspace)
  {
    var st, labs := Allocation(managed, lab), managed + ["labs"];
    assert st.root[..|labs|] == labs && st.workspace[..|labs|] == labs;
    if IsPrefix(q, labs) {
      PrefixTransitive(q, labs, st.root);
      PrefixTransitive(q, labs, st.workspace);
    }
  }

  lemma LabsCanBeMade(nodes: Nodes, managed: Path, lab: Id)
    requires Rooted(nodes) && MakeAll(nodes, AreasOf(Allocation(managed, lab)), 4).ok
    ensures MakeDirs(nodes, managed + ["labs"]).ok
  {
    var st := Allocation(managed, lab);
    var dirs := AreasOf(st);
    if !MakeDirs(nodes, managed + ["labs"]).ok {
      var q := BlockedByFile(nodes, managed + ["labs"]);
      LabsAbove(managed, lab, q);
      MakeAllRooted(nodes, dirs, 4);
      MakeAllMakes(nodes, dirs, 4, 0);
      AboveIsDir(MakeAll(nodes, dirs, 4).nodes, st.workspace, q);
      MakeAllAdds(nodes, dirs, 4, q);
      assert false;
    }
  }

  lemma OnlyOwnDirectories(nodes: Nodes, managed: Path, lab: Id, p: Path)
    requires Rooted(nodes) && Allocation(managed, lab).root !in nodes
    requires MakeAll(nodes, AreasOf(Allocation(managed, lab)), 4).ok && MakeDirs(nodes, managed + ["labs"]).ok
    ensures var st := Allocation(managed, lab);
      var made, left := MakeAll(nodes, AreasOf(st), 4).nodes, MakeDirs(nodes, managed + ["labs"]).nodes;
      (p in made && !IsPrefix(st.root, p) <==> p in left) && (p in left ==> made[p] == left[p])
  {
    var st, labs := Allocation(managed, lab), managed + ["labs"];
    var dirs := AreasOf(st);
    MakeAllAdds(nodes, dirs, 4, p);
    MakeDirsExactly(nodes, labs, p);
    LabsAbove(managed, lab, p);
    var made := MakeAll(nodes, dirs, 4).nodes;
    if p in nodes && IsPrefix(st.root, p) { AboveExists(nodes, p, st.root); }
    if IsPrefix(p, labs) {
      MakeAllRooted(nodes, dirs, 4);
      MakeAllMakes(nodes, dirs, 4, 0);
      AboveIsDir(made, st.workspace, p);
    } else if p in made && p !in nodes && !IsPrefix(st.root, p) {
      var i :| 0 <= i < 4 && IsPrefix(p, dirs[i]);
      AboveArea(managed, lab, i, p);
    }
  }

  lemma AboveArea(managed: Path, lab: Id, i: nat, p: Path)
    requires i < 4 && IsPrefix(p, AreasOf(Allocation(managed, lab))[i])
    ensures IsPrefix(Allocation(managed, lab).root, p) || IsPrefix(p, managed + ["labs"])
  {
    var st, labs := Allocation(managed, lab), managed + ["labs"];
    var dir := AreasOf(st)[i];
    assert st.root == labs + [Label(lab)] && Parent(st.root) == labs && Parent(dir) == st.root;
    InsideUnlessSame(p, dir);
    InsideUnlessSame(p, st.root);
    assert dir[..|st.root|] == st.root && st.root[..|st.root|] == st.root;
  }

  /** Destroying one lab leaves every other lab's storage alone. */
  lemma DestroyLeavesOthers(nodes: Nodes, managed: Path, lab: Id, other: Id, p: Path)
    requires lab != other && IsPrefix(Allocation(managed, other).root, p)
    ensures var after := Deallocated(nodes, managed, Allocation(managed, lab).root).nodes;
      (p in after <==> p in nodes) && (p in nodes ==> after[p] == nodes[p])
  {
    var a, b, n := Allocation(managed, lab).root, Allocation(managed, other).root, |managed| + 1;
    PrefixAt(a, p, n);
    PrefixAt(b, p, n);
    if Label(lab) == Label(other) { LabelInjective(lab, other); }
  }
}
