/** Lexical path resolution and confinement under a managed root. */
module Paths {
  import opened Basics

  // ---------- parsing, as PurePosixPath does ----------

  /** The pieces of `s` between slashes; empty pieces included. */
  function Split(s: string): (r: seq<string>)
    ensures |r| >= 1
  {
    if s == "" then [""]
    else
      var rest := Split(s[1..]);
      if s[0] == '/' then [""] + rest else [[s[0]] + rest[0]] + rest[1..]
  }

  /** A component that is kept: not empty and not a lone dot. */
  predicate Kept(c: string) { c != "" && c != "." }

  function KeptOnly(parts: seq<string>): (r: Path)
    ensures forall c :: c in r ==> c in parts && Kept(c)
  {
    if parts == [] then []
    else (if Kept(parts[0]) then [parts[0]] else []) + KeptOnly(parts[1..])
  }

  function Segments(s: string): Path { KeptOnly(Split(s)) }

  /** What stands before the components: nothing, "/", or the distinct root "//". */
  datatype Anchor = Relative | Root | DoubleRoot

  function AnchorOf(s: string): Anchor {
    if |s| == 0 || s[0] != '/' then Relative
    else if |s| >= 2 && s[1] == '/' && (|s| == 2 || s[2] != '/') then DoubleRoot
    else Root
  }

  lemma {:induction false} SplitJoin(a: string, b: string)
    ensures Split(a + ['/'] + b) == Split(a) + Split(b)
  {
    var s := a + ['/'] + b;
    if a == "" {
      assert s[1..] == b;
    } else {
      assert s[0] == a[0] && s[1..] == a[1..] + ['/'] + b;
      SplitJoin(a[1..], b);
      HeadOnto(a[0], Split(a[1..]), Split(b));
    }
  }

  /** Putting a character, or an empty piece, before joined pieces. */
  lemma HeadOnto(c: char, x: seq<string>, y: seq<string>)
    requires |x| >= 1
    ensures [[c] + (x + y)[0]] + (x + y)[1..] == [[c] + x[0]] + x[1..] + y
    ensures [""] + (x + y) == [""] + x + y
  {
  }

  lemma {:induction false} SplitWord(a: string)
    requires '/' !in a
    ensures Split(a) == [a]
  {
    if a != "" {
      SplitWord(a[1..]);
      assert [a[0]] + a[1..] == a;
    }
  }

  lemma {:induction false} KeptConcat(a: seq<string>, b: seq<string>)
    ensures KeptOnly(a + b) == KeptOnly(a) + KeptOnly(b)
  {
    if a == [] {
      assert a + b == b;
    } else {
      KeptConcat(a[1..], b);
      assert (a + b)[1..] == a[1..] + b && (a + b)[0] == a[0];
    }
  }

  lemma SegmentsJoin(a: string, b: string)
    ensures Segments(a + ['/'] + b) == Segments(a) + Segments(b)
  {
    SplitJoin(a, b);
    KeptConcat(Split(a), Split(b));
  }

  lemma SegmentsWord(a: string)
    requires '/' !in a
    ensures Segments(a) == if Kept(a) then [a] else []
  {
    SplitWord(a);
    assert [a][1..] == [] && KeptOnly([a][1..]) == [];
  }

  lemma SegmentsCons(a: string, tail: string)
    requires Kept(a) && '/' !in a
    ensures Segments(a + ['/'] + tail) == [a] + Segments(tail)
  {
    SegmentsJoin(a, tail);
    SegmentsWord(a);
  }

  lemma SegmentsSlash(s: string)
    ensures Segments(['/'] + s) == Segments(s)
  {
    SegmentsJoin([], s);
    SegmentsWord([]);
    assert [] + ['/'] + s == ['/'] + s;
  }

  /** A rooted path whose first two components are ordinary words. */
  lemma SegmentsRooted(a: string, b: string, tail: string)
    requires Kept(a) && '/' !in a && Kept(b) && '/' !in b
    ensures var s := ['/'] + (a + ['/'] + (b + ['/'] + tail));
            AnchorOf(s) == Root && Segments(s) == [a, b] + Segments(tail)
  {
    var rest := a + ['/'] + (b + ['/'] + tail);
    SegmentsCons(b, tail);
    SegmentsCons(a, b + ['/'] + tail);
    SegmentsSlash(rest);
    assert Segments(rest) == [a] + ([b] + Segments(tail));
    assert a[0] != '/' && (['/'] + rest)[1] == a[0];
  }

  // ---------- normalisation, as Path.resolve does without symbolic links ----------

  function Norm(p: Path): Path {
    if p == [] then []
    else
      var base, c := Norm(p[..|p| - 1]), p[|p| - 1];
      if c == ".." then (if base == [] then [] else base[..|base| - 1])
      else if Kept(c) then base + [c]
      else base
  }

  predicate Plain(p: Path) {
    forall c :: c in p ==> Kept(c) && c != ".."
  }

  lemma {:induction false} NormPlain(p: Path)
    ensures Plain(Norm(p))
  {
    if p != [] { NormPlain(p[..|p| - 1]); }
  }

  lemma {:induction false} NormKeepsPlain(p: Path)
    requires Plain(p)
    ensures Norm(p) == p
  {
    if p != [] {
      var n := |p| - 1;
      NormKeepsPlain(p[..n]);
      assert p[n] in p && p == p[..n] + [p[n]];
    }
  }

  lemma NormIdempotent(p: Path)
    ensures Norm(Norm(p)) == Norm(p)
  {
    NormPlain(p);
    NormKeepsPlain(Norm(p));
  }

  /** Resolving in two stages is resolving once. */
  lemma {:induction false} NormConcat(a: Path, b: Path)
    ensures Norm(a + b) == Norm(Norm(a) + b)
  {
    if b == [] {
      assert a + b == a && Norm(a) + b == Norm(a);
      NormIdempotent(a);
    } else {
      var n := |b| - 1;
      NormConcat(a, b[..n]);
      assert (a + b)[..|a + b| - 1] == a + b[..n];
      assert (Norm(a) + b)[..|Norm(a) + b| - 1] == Norm(a) + b[..n];
    }
  }

  /** Follow `p` from some directory without ever leaving it; None if it climbs out. */
  function Walk(p: Path): Option<Path> {
    if p == [] then Some([])
    else
      var base, c := Walk(p[..|p| - 1]), p[|p| - 1];
      if base.None? then None
      else if c == ".." then (if base.value == [] then None else Some(base.value[..|base.value| - 1]))
      else if Kept(c) then Some(base.value + [c])
      else base
  }

  /** A walk that never climbs out lands at the same place below any root. */
  lemma {:induction false} WalkStaysInside(root: Path, p: Path)
    requires Plain(root) && Walk(p).Some?
    ensures Norm(root + p) == root + Walk(p).value
  {
    if p == [] {
      assert root + p == root;
      NormKeepsPlain(root);
    } else {
      var n := |p| - 1;
      assert (root + p)[..|root + p| - 1] == root + p[..n];
      WalkStaysInside(root, p[..n]);
    }
  }

  lemma {:induction false} PlainWalk(p: Path)
    requires Plain(p)
    ensures Walk(p) == Some(p)
  {
    if p != [] {
      var n := |p| - 1;
      PlainWalk(p[..n]);
      assert p[n] in p && p == p[..n] + [p[n]];
    }
  }

  // ---------- where a path ends up, climbing included ----------

  /** A path as a whole: so many steps up from where it starts, and then these names down. */
  datatype Climb = Climb(ups: nat, down: Path)

  function Net(p: Path): Climb {
    if p == [] then Climb(0, [])
    else
      var base, c := Net(p[..|p| - 1]), p[|p| - 1];
      if c == ".." then
        if base.down == [] then Climb(base.ups + 1, []) else Climb(base.ups, base.down[..|base.down| - 1])
      else if Kept(c) then Climb(base.ups, base.down + [c])
      else base
  }

  /** So many steps up from a directory; the top is its own parent. */
  function Up(root: Path, ups: nat): Path { root[..if ups <= |root| then |root| - ups else 0] }

  /** A climb from `root` comes back into it: what it goes down by begins with the names it went up past. */
  predicate Returns(root: Path, n: Climb) { IsPrefix(root[|Up(root, n.ups)|..], n.down) }

  /** A path never climbs out exactly when it has no steps up left, and then its walk is what it goes down by. */
  lemma {:induction false} WalkIsNet(p: Path)
    ensures Walk(p).Some? <==> Net(p).ups == 0
    ensures Walk(p).Some? ==> Walk(p).value == Net(p).down
  {
    if p != [] { WalkIsNet(p[..|p| - 1]); }
  }

  /** Resolving below a plain root goes up and then down; above the top there is only the top. */
  lemma {:induction false} NormIsNet(root: Path, p: Path)
    requires Plain(root)
    ensures Norm(root + p) == Up(root, Net(p).ups) + Net(p).down
  {
    if p == [] {
      assert root + p == root;
      NormKeepsPlain(root);
    } else {
      var n := |p| - 1;
      assert (root + p)[..|root + p| - 1] == root + p[..n];
      NormIsNet(root, p[..n]);
      NormStep(Up(root, Net(p[..n]).ups), Net(p[..n]).down, root, Net(p[..n]).ups);
    }
  }

  /** One more step up, from below the turning point or from the turning point itself. */
  lemma NormStep(base: Path, down: Path, root: Path, ups: nat)
    requires base == Up(root, ups)
    ensures down != [] ==> (base + down)[..|base + down| - 1] == base + down[..|down| - 1]
    ensures down == [] ==> Up(root, ups + 1) == if base == [] then [] else base[..|base| - 1]
  {
  }

  /** The check accepts a path exactly when it never leaves the root for good. */
  lemma UnderIff(root: Path, p: Path)
    requires Plain(root)
    ensures Under(root, root + p) <==> Returns(root, Net(p))
  {
    NormIsNet(root, p);
    PrefixSplits(root, |Up(root, Net(p).ups)|, Net(p).down);
  }

  lemma PrefixSplits(root: Path, k: nat, down: Path)
    requires k <= |root|
    ensures IsPrefix(root, root[..k] + down) <==> IsPrefix(root[k..], down)
  {
    if |root| <= k + |down| {
      var rest := down[..|root| - k];
      assert (root[..k] + down)[..|root|] == root[..k] + rest;
      CancelLeft(root[..k], rest, root[k..]);
      assert root[..k] + root[k..] == root;
    }
  }

  lemma CancelLeft(a: Path, b: Path, c: Path)
    ensures a + b == a + c <==> b == c
  {
    assert (a + b)[|a|..] == b && (a + c)[|a|..] == c;
  }

  // ---------- the confinement check ----------

  /** Where `root / name` points: an absolute name replaces the root; "//..." is on no known root. */
  function Join(root: Path, name: string): Option<Path> {
    match AnchorOf(name)
    case Relative => Some(root + Segments(name))
    case Root => Some(Segments(name))
    case DoubleRoot => None
  }

  /** `path.resolve().relative_to(root)` succeeds. */
  predicate Under(root: Path, p: Path) {
    IsPrefix(root, Norm(p))
  }

  /** A member name that may be unpacked below `root`. */
  predicate SafeMember(root: Path, name: string) {
    var p := Join(root, name);
    p.Some? && Under(root, p.value)
  }

  /** Whatever passes the check is a dot-free path that begins with the root. */
  lemma Confined(root: Path, p: Path)
    requires Under(root, p)
    ensures Plain(Norm(p)) && IsPrefix(root, Norm(p))
    ensures Norm(p) == root + Norm(p)[|root|..]
  {
    NormPlain(p);
  }

  /** A relative member name is safe exactly when it never leaves the root for good. */
  lemma SafeMemberIff(root: Path, name: string)
    requires Plain(root) && AnchorOf(name) == Relative
    ensures SafeMember(root, name) <==> Returns(root, Net(Segments(name)))
  {
    UnderIff(root, Segments(name));
  }

  /** An archive member is safe whenever its relative name never climbs above the root. */
  lemma SafeMemberWalk(root: Path, name: string)
    requires Plain(root) && AnchorOf(name) == Relative && Walk(Segments(name)).Some?
    ensures SafeMember(root, name)
    ensures Norm(Join(root, name).value) == root + Walk(Segments(name)).value
  {
    WalkStaysInside(root, Segments(name));
    assert (root + Walk(Segments(name)).value)[..|root|] == root;
  }

  // ---------- guest export paths ----------

  const GUEST_EXPORT_ROOT: Path := ["lab", "exports"]

  datatype SourceError = NotGuestPath | Escapes

  /** Translate a guest export path to a host path below `exports`, or refuse it. */
  function ResolveSource(exports: Path, source: string): Result<Path, SourceError> {
    var guest := Segments(source);
    if AnchorOf(source) != Root || !IsPrefix(GUEST_EXPORT_ROOT, guest) then Err(NotGuestPath)
    else
      var root := Norm(exports);
      var host := Norm(root + guest[2..]);
      if IsPrefix(root, host) then Ok(host) else Err(Escapes)
  }

  /** For every source string: an accepted path is below the resolved exports root, with no dots left. */
  lemma AcceptedIsConfined(exports: Path, source: string)
    requires ResolveSource(exports, source).Ok?
    ensures var p := ResolveSource(exports, source).value;
            Plain(p) && IsPrefix(Norm(exports), p) && p == Norm(exports + Segments(source)[2..])
  {
    var rel := Segments(source)[2..];
    NormPlain(Norm(exports) + rel);
    NormConcat(exports, rel);
  }

  lemma GuestPrefix(tail: string)
    ensures AnchorOf("/lab/exports/" + tail) == Root
    ensures Segments("/lab/exports/" + tail) == GUEST_EXPORT_ROOT + Segments(tail)
  {
    assert "/lab/exports/" + tail == ['/'] + ("lab" + ['/'] + ("exports" + ['/'] + tail));
    SegmentsRooted("lab", "exports", tail);
  }

  /** A path under the guest exports directory that never climbs out of it is accepted, where expected. */
  lemma InsideIsAccepted(exports: Path, tail: string)
    requires Walk(Segments(tail)).Some?
    ensures ResolveSource(exports, "/lab/exports/" + tail)
         == Ok(Norm(exports) + Walk(Segments(tail)).value)
  {
    GuestPrefix(tail);
    var guest := Segments("/lab/exports/" + tail);
    assert guest[..2] == GUEST_EXPORT_ROOT && guest[2..] == Segments(tail);
    NormPlain(exports);
    WalkStaysInside(Norm(exports), Segments(tail));
    var root, rest := Norm(exports), Walk(Segments(tail)).value;
    assert (root + rest)[..|root|] == root;
  }

  /** In particular a path with no ".." is never an escape and keeps its components. */
  lemma DotFreeIsAccepted(exports: Path, tail: string)
    requires ".." !in Segments(tail)
    ensures ResolveSource(exports, "/lab/exports/" + tail) == Ok(Norm(exports) + Segments(tail))
  {
    PlainWalk(Segments(tail));
    InsideIsAccepted(exports, tail);
  }

  /** The policy's second managed prefix never gets past the gate. */
  lemma ApprovedArtifactsAreRefused(exports: Path, tail: string)
    ensures ResolveSource(exports, "/artifacts/approved/" + tail) == Err(NotGuestPath)
  {
    assert "/artifacts/approved/" + tail == ['/'] + ("artifacts" + ['/'] + ("approved" + ['/'] + tail));
    SegmentsRooted("artifacts", "approved", tail);
    var guest := ["artifacts", "approved"] + Segments(tail);
    assert guest[..2][0] == "artifacts" && |"artifacts"| != |"lab"|;
    assert !IsPrefix(GUEST_EXPORT_ROOT, guest);
  }

  /** Exactly the guest paths that never leave the exports root for good are accepted; the others are escapes. */
  lemma AcceptedIff(exports: Path, tail: string)
    ensures var root, n := Norm(exports), Net(Segments(tail));
      ResolveSource(exports, "/lab/exports/" + tail)
      == if Returns(root, n) then Ok(Up(root, n.ups) + n.down) else Err(Escapes)
  {
    GuestPrefix(tail);
    var guest := Segments("/lab/exports/" + tail);
    assert guest[..2] == GUEST_EXPORT_ROOT && guest[2..] == Segments(tail);
    NormPlain(exports);
    NormIsNet(Norm(exports), Segments(tail));
    UnderIff(Norm(exports), Segments(tail));
  }

  // ---------- climbing out and back in ----------

  function Ups(k: nat): Path { seq(k, _ => "..") }

  lemma {:induction false} NetUps(k: nat)
    ensures Net(Ups(k)) == Climb(k, [])
  {
    if k > 0 {
      assert Ups(k)[..k - 1] == Ups(k - 1);
      NetUps(k - 1);
    }
  }

  lemma {:induction false} NetDown(p: Path, down: Path)
    requires Plain(down)
    ensures Net(p + down) == Climb(Net(p).ups, Net(p).down + down)
  {
    if down == [] {
      assert p + down == p;
    } else {
      var n := |down| - 1;
      assert (p + down)[..|p + down| - 1] == p + down[..n] && down[n] in down;
      NetDown(p, down[..n]);
      assert down == down[..n] + [down[n]];
    }
  }

  lemma ReentryNet(root: Path, k: nat, rest: Path)
    requires Plain(root) && Plain(rest) && k <= |root|
    ensures Net(Ups(k) + (root[|root| - k..] + rest)) == Climb(k, root[|root| - k..] + rest)
  {
    NetUps(k);
    NetDown(Ups(k), root[|root| - k..] + rest);
  }

  /** Climbing any way out of a root and back in by the names it left passes, though following it leaves the root. */
  lemma ReentryIsAccepted(root: Path, k: nat, rest: Path)
    requires Plain(root) && Plain(rest) && 0 < k <= |root|
    ensures var steps := Ups(k) + (root[|root| - k..] + rest);
      Walk(steps).None? && Under(root, root + steps) && Norm(root + steps) == root + rest
  {
    ReentryNet(root, k, rest);
    BackWhereItWas(root, Ups(k) + (root[|root| - k..] + rest), k, rest);
  }

  lemma CutAndJoined(root: Path, n: nat, rest: Path)
    requires n <= |root|
    ensures root[..n] + (root[n..] + rest) == root + rest && (root + rest)[..|root|] == root
  {
    assert root[..n] + root[n..] == root;
  }

  lemma BackWhereItWas(root: Path, p: Path, k: nat, rest: Path)
    requires Plain(root) && 0 < k <= |root| && Net(p) == Climb(k, root[|root| - k..] + rest)
    ensures Walk(p).None? && Under(root, root + p) && Norm(root + p) == root + rest
  {
    WalkIsNet(p);
    NormIsNet(root, p);
    CutAndJoined(root, |root| - k, rest);
  }
}
