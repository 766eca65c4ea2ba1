/** Directories and files as a tree, and the operations on it that snapshots and storage use. */
module FileTree {
  import opened Basics
  import opened Paths
  import opened Files

  datatype Node = Dir | File(data: Content)

  /** Everything that exists, by absolute location. */
  type Nodes = map<Path, Node>

  function Parent(p: Path): Path
    requires p != []
  {
    p[..|p| - 1]
  }

  /** `p` is inside the directory `dir`, at any depth. */
  predicate Inside(dir: Path, p: Path) { IsPrefix(dir, p) && p != dir }

  /** Everything that exists is in a directory that exists. */
  ghost predicate Rooted(nodes: Nodes) {
    forall p :: p in nodes && p != [] ==> Parent(p) in nodes && nodes[Parent(p)].Dir?
  }

  predicate IsDir(nodes: Nodes, p: Path) { p in nodes && nodes[p].Dir? }

  /** What a series of changes leaves behind, and whether it ran to the end. */
  datatype Change = Change(nodes: Nodes, ok: bool)

  // ---------- directories ----------

  /** `mkdir(parents=True, exist_ok=True)` */
  function MakeDirs(nodes: Nodes, p: Path): Change
    decreases |p|
  {
    if p in nodes then Change(nodes, nodes[p].Dir?)
    else if p == [] then Change(nodes[p := Dir], true)
    else
      var up := MakeDirs(nodes, Parent(p));
      if up.ok then Change(up.nodes[p := Dir], true) else up
  }

  /** The directory kept, everything inside it gone. */
  function Cleared(nodes: Nodes, dir: Path): Nodes {
    map p | p in nodes && !Inside(dir, p) :: nodes[p]
  }

  /** The node and everything inside it gone. */
  function Removed(nodes: Nodes, top: Path): Nodes {
    map p | p in nodes && !IsPrefix(top, p) :: nodes[p]
  }

  function Children(nodes: Nodes, dir: Path): set<Path> {
    set p | p in nodes && Inside(dir, p) && |p| == |dir| + 1
  }

  // ---------- unpacking an archive ----------

  /** An archive member: its name as stored, and what it is. */
  datatype Member = Member(name: string, node: Node)

  function Target(root: Path, m: Member): Path { Norm(root + Segments(m.name)) }

  /** Unpack one member below `root`, making missing directories on the way. */
  function PutMember(nodes: Nodes, root: Path, m: Member): Change {
    var t := Target(root, m);
    if !IsPrefix(root, t) || t == [] then Change(nodes, false)
    else
      var up := MakeDirs(nodes, Parent(t));
      if !up.ok || (t in up.nodes && up.nodes[t].Dir? != m.node.Dir?) then Change(up.nodes, false)
      else Change(up.nodes[t := m.node], true)
  }

  /** Unpack the first `n` members in order, stopping at the first that cannot be. */
  function ExtractTo(nodes: Nodes, root: Path, members: seq<Member>, n: nat): Change
    requires n <= |members|
  {
    if n == 0 then Change(nodes, true)
    else
      var before := ExtractTo(nodes, root, members, n - 1);
      if before.ok then PutMember(before.nodes, root, members[n - 1]) else before
  }

  // ---------- moving a directory's content ----------

  /** `dir`'s entries with these names, and everything inside them. */
  predicate Moving(dir: Path, names: set<string>, p: Path) { Inside(dir, p) && p[|dir|] in names }

  /** The entries of `from` with these names moved into `to`. */
  function Moved(nodes: Nodes, from: Path, to: Path, names: set<string>): Nodes {
    map q | q in (set p | p in nodes && !Moving(from, names, p))
               + (set p | p in nodes && Moving(from, names, p) :: to + p[|from|..]) ::
      if Moving(to, names, q) && from + q[|to|..] in nodes then nodes[from + q[|to|..]]
      else if q in nodes then nodes[q] else Dir
  }

  function Names(nodes: Nodes, dir: Path): set<string> {
    set p | p in Children(nodes, dir) :: p[|dir|]
  }

  // ---------- the disk ----------

  class Tree {
    var nodes: Nodes

    constructor (nodes: Nodes)
      ensures this.nodes == nodes
    {
      this.nodes := nodes;
    }

    method Mkdir(p: Path) returns (ok: bool)
      modifies this
      ensures Change(nodes, ok) == MakeDirs(old(nodes), p)
    {
      var made := MakeDirs(nodes, p);
      nodes := made.nodes;
      ok := made.ok;
    }

    /** Deletes the entries of a directory one by one, whole trees at a time. */
    method ClearDirectory(dir: Path)
      requires Rooted(nodes)
      modifies this
      ensures nodes == Cleared(old(nodes), dir)
    {
      ghost var before := nodes;
      var entries := Children(nodes, dir);
      var children := entries;
      WithoutNone(before);
      assert entries - children == {};
      while children != {}
        invariant children <= entries
        invariant nodes == Without(before, entries - children)
        decreases |children|
      {
        var child :| child in children;
        WithoutOneMore(before, entries - children, child);
        assert entries - (children - {child}) == (entries - children) + {child};
        children := children - {child};
        nodes := Removed(nodes, child);
      }
      assert entries - children == entries;
      WithoutChildren(before, dir);
    }

    /** Unpacks members one by one until one cannot be. */
    method ExtractAll(root: Path, members: seq<Member>) returns (ok: bool)
      modifies this
      ensures Change(nodes, ok) == ExtractTo(old(nodes), root, members, |members|)
    {
      for i := 0 to |members|
        invariant Change(nodes, true) == ExtractTo(old(nodes), root, members, i)
      {
        var put := PutMember(nodes, root, members[i]);
        nodes := put.nodes;
        if !put.ok {
          StoppedStays(old(nodes), root, members, i + 1, |members|);
          return false;
        }
      }
      ok := true;
    }

    /** Moves the entries of one directory into another, empty one, one by one. */
    method MoveEntries(from: Path, to: Path)
      requires Rooted(nodes) && Apart(from, to) && Children(nodes, to) == {}
      modifies this
      ensures nodes == Moved(old(nodes), from, to, Names(old(nodes), from))
    {
      ghost var before := nodes;
      var names := Names(nodes, from);
      var left := names;
      MovedNone(before, from, to);
      EmptyInside(before, to);
      assert names - left == {};
      while left != {}
        invariant left <= names
        invariant nodes == Moved(before, from, to, names - left)
        decreases |left|
      {
        var name :| name in left;
        MovedOneMore(before, from, to, names - left, name);
        assert names - (left - {name}) == (names - left) + {name};
        left := left - {name};
        nodes := Moved(nodes, from, to, {name});
      }
      assert names - left == names;
    }
  }

  /** Neither directory is the other, or inside the other. */
  predicate Apart(a: Path, b: Path) { !IsPrefix(a, b) && !IsPrefix(b, a) }

  lemma {:induction false} StoppedStays(nodes: Nodes, root: Path, members: seq<Member>, i: nat, n: nat)
    requires i <= n <= |members| && !ExtractTo(nodes, root, members, i).ok
    ensures ExtractTo(nodes, root, members, n) == ExtractTo(nodes, root, members, i)
  {
    if i < n { StoppedStays(nodes, root, members, i, n - 1); }
  }

  lemma EmptyInside(nodes: Nodes, dir: Path)
    requires Rooted(nodes) && Children(nodes, dir) == {}
    ensures forall p :: p in nodes ==> !Inside(dir, p)
  {
    forall p | p in nodes ensures !Inside(dir, p) {
      if Inside(dir, p) { EntryOfInside(nodes, dir, p); }
    }
  }

  /** Where a path of the moved tree comes from: an entry that was moved, or a path that stays. */
  lemma MovedAt(nodes: Nodes, from: Path, to: Path, names: set<string>, q: Path)
    ensures q in Moved(nodes, from, to, names) <==>
      (Moving(to, names, q) && from + q[|to|..] in nodes) || (q in nodes && !Moving(from, names, q))
    ensures q in Moved(nodes, from, to, names) ==>
      Moved(nodes, from, to, names)[q]
      == if Moving(to, names, q) && from + q[|to|..] in nodes then nodes[from + q[|to|..]] else nodes[q]
  {
    if Moving(to, names, q) {
      var p := from + q[|to|..];
      assert p[..|from|] == from && p[|from|..] == q[|to|..] && to + p[|from|..] == q;
    }
    if p :| p in nodes && Moving(from, names, p) && to + p[|from|..] == q {
      assert q[|to|..] == p[|from|..] && from + q[|to|..] == p && q[..|to|] == to;
    }
  }

  lemma MovedNone(nodes: Nodes, from: Path, to: Path)
    ensures Moved(nodes, from, to, {}) == nodes
  {
    forall q ensures (q in Moved(nodes, from, to, {}) <==> q in nodes)
                     && (q in nodes ==> Moved(nodes, from, to, {})[q] == nodes[q]) {
      MovedAt(nodes, from, to, {}, q);
    }
  }

  lemma MovedOneMore(nodes: Nodes, from: Path, to: Path, names: set<string>, name: string)
    requires Apart(from, to) && (forall p :: p in nodes ==> !Inside(to, p)) && name !in names
    ensures Moved(Moved(nodes, from, to, names), from, to, {name}) == Moved(nodes, from, to, names + {name})
  {
    var some, more := Moved(nodes, from, to, names), Moved(nodes, from, to, names + {name});
    forall q ensures (q in Moved(some, from, to, {name}) <==> q in more)
                     && (q in more ==> Moved(some, from, to, {name})[q] == more[q]) {
      MovedStep(nodes, from, to, names, name, q);
    }
  }

  lemma MovedStep(nodes: Nodes, from: Path, to: Path, names: set<string>, name: string, q: Path)
    requires Apart(from, to) && (forall p :: p in nodes ==> !Inside(to, p)) && name !in names
    ensures var some, more := Moved(nodes, from, to, names), Moved(nodes, from, to, names + {name});
      (q in Moved(some, from, to, {name}) <==> q in more)
      && (q in more ==> Moved(some, from, to, {name})[q] == more[q])
  {
    var some := Moved(nodes, from, to, names);
    MovedAt(some, from, to, {name}, q);
    MovedAt(nodes, from, to, names + {name}, q);
    MovedAt(nodes, from, to, names, q);
    if Moving(to, {name}, q) {
      var p := from + q[|to|..];
      assert p[..|from|] == from && p[|from|] == name;
      if IsPrefix(to, p) { PrefixesNest(from, to, p); }
      MovedAt(nodes, from, to, names, p);
    }
  }

  /** Of two directories above the same path, one is above the other. */
  lemma PrefixesNest(a: Path, b: Path, p: Path)
    requires IsPrefix(a, p) && IsPrefix(b, p)
    ensures IsPrefix(a, b) || IsPrefix(b, a)
  {
    if |a| <= |b| { assert b[..|a|] == p[..|a|]; } else { assert a[..|b|] == p[..|b|]; }
  }

  lemma AllNamesMove(nodes: Nodes, from: Path, p: Path)
    requires Rooted(nodes) && p in nodes
    ensures Moving(from, Names(nodes, from), p) <==> Inside(from, p)
  {
    if Inside(from, p) {
      EntryOfInside(nodes, from, p);
      var entry := p[..|from| + 1];
      assert entry in Children(nodes, from) && entry[|from|] == p[|from|];
    }
  }

  lemma NotBoth(a: Path, b: Path, p: Path)
    requires Apart(a, b)
    ensures !IsPrefix(a, p) || !IsPrefix(b, p)
  {
    if IsPrefix(a, p) && IsPrefix(b, p) { PrefixesNest(a, b, p); }
  }

  /** Where everything is once all entries of a directory were moved into an empty one and it was removed. */
  lemma AllMovedAt(nodes: Nodes, from: Path, to: Path, q: Path)
    requires Rooted(nodes) && Apart(from, to) && forall p :: p in nodes ==> !Inside(to, p)
    ensures var x := Moved(nodes, from, to, Names(nodes, from)) - {from};
      if IsPrefix(from, q) then q !in x
      else if Inside(to, q) then
        (q in x <==> from + q[|to|..] in nodes) && (q in x ==> x[q] == nodes[from + q[|to|..]])
      else (q in x <==> q in nodes) && (q in x ==> x[q] == nodes[q])
  {
    MovedAt(nodes, from, to, Names(nodes, from), q);
    NotBoth(from, to, q);
    if q in nodes { AllNamesMove(nodes, from, q); }
    if Inside(to, q) {
      var p := from + q[|to|..];
      assert p[..|from|] == from && p[|from|] == q[|to|] && Inside(from, p);
      if p in nodes { AllNamesMove(nodes, from, p); }
    }
  }

  lemma InsideUnlessSame(dir: Path, p: Path)
    requires p != []
    ensures IsPrefix(dir, p) <==> IsPrefix(dir, Parent(p)) || dir == p
  {
    assert p[..|p|] == p;
    assert forall n :: 0 <= n < |p| ==> Parent(p)[..n] == p[..n];
  }

  /** What is above something that exists, exists. */
  lemma {:induction false} AboveExists(nodes: Nodes, p: Path, q: Path)
    requires Rooted(nodes) && p in nodes && IsPrefix(q, p)
    ensures q in nodes
    decreases |p|
  {
    if q != p {
      InsideUnlessSame(q, p);
      AboveExists(nodes, Parent(p), q);
    }
  }

  /** The trees below `gone` taken out. */
  ghost function Without(nodes: Nodes, gone: set<Path>): Nodes {
    map p | p in nodes && !(exists g :: g in gone && IsPrefix(g, p)) :: nodes[p]
  }

  lemma WithoutNone(nodes: Nodes)
    ensures Without(nodes, {}) == nodes
  {
  }

  lemma WithoutOneMore(nodes: Nodes, gone: set<Path>, child: Path)
    ensures Removed(Without(nodes, gone), child) == Without(nodes, gone + {child})
  {
  }

  lemma WithoutChildren(nodes: Nodes, dir: Path)
    requires Rooted(nodes)
    ensures Without(nodes, Children(nodes, dir)) == Cleared(nodes, dir)
  {
    forall p | p in nodes
      ensures (exists g :: g in Children(nodes, dir) && IsPrefix(g, p)) <==> Inside(dir, p)
    {
      if Inside(dir, p) { EntryOfInside(nodes, dir, p); }
      if g :| g in Children(nodes, dir) && IsPrefix(g, p) {
        assert p[..|g|][..|dir|] == p[..|dir|];
      }
    }
  }

  /** What is inside a directory is below one of its entries. */
  lemma {:induction false} EntryOfInside(nodes: Nodes, dir: Path, p: Path)
    requires Rooted(nodes) && p in nodes && Inside(dir, p)
    ensures p[..|dir| + 1] in Children(nodes, dir) && IsPrefix(p[..|dir| + 1], p)
    decreases |p|
  {
    if |p| == |dir| + 1 {
      assert p[..|dir| + 1] == p;
    } else {
      var up := Parent(p);
      assert up[..|dir|] == p[..|dir|];
      EntryOfInside(nodes, dir, up);
      assert up[..|dir| + 1] == p[..|dir| + 1];
    }
  }
}
