/** Option and Result, flat-mapping over sequences, and the ordering of query results. */
module Basics {

  datatype Option<+T> = None | Some(value: T)

  datatype Result<+T, +E> = Ok(value: T) | Err(error: E)

  /** Row identifiers. Any totally ordered, freshly generated identifier would do. */
  type Id = nat

  /** Seconds on one clock. */
  type Time = int

  /** A file-system location under "/", or a relative location, by its components. */
  type Path = seq<string>

  // ---------- gathering ----------

  /** What `f` holds for an element; nothing if it holds no entry. */
  function EntryOf<T, U>(f: map<T, seq<U>>, x: T): seq<U> { if x in f then f[x] else [] }

  /** `start` followed by the entries of the first `n` elements. */
  function Gather<T, U>(start: seq<U>, xs: seq<T>, f: map<T, seq<U>>, n: nat): seq<U>
    requires n <= |xs|
  {
    if n == 0 then start else Gather(start, xs, f, n - 1) + EntryOf(f, xs[n - 1])
  }

  function GatherAll<T, U>(start: seq<U>, xs: seq<T>, f: map<T, seq<U>>): seq<U> { Gather(start, xs, f, |xs|) }

  lemma {:induction false} GatherStart<T, U>(start: seq<U>, xs: seq<T>, f: map<T, seq<U>>, n: nat)
    requires n <= |xs|
    ensures Gather(start, xs, f, n) == start + Gather([], xs, f, n)
  {
    if n > 0 {
      GatherStart(start, xs, f, n - 1);
      assert start + Gather([], xs, f, n - 1) + EntryOf(f, xs[n - 1])
          == start + (Gather([], xs, f, n - 1) + EntryOf(f, xs[n - 1]));
    }
  }

  lemma {:induction false} GatherMember<T, U>(xs: seq<T>, f: map<T, seq<U>>, n: nat, u: U)
    requires n <= |xs|
    ensures u in Gather([], xs, f, n) <==> exists i :: 0 <= i < n && u in EntryOf(f, xs[i])
  {
    if n > 0 { GatherMember(xs, f, n - 1, u); }
  }

  predicate Distinct(xs: seq<Id>) {
    forall i, j :: 0 <= i < j < |xs| ==> xs[i] != xs[j]
  }

  // ---------- ORDER BY ----------

  /** The two leading sort columns of a query; the row's id is always the last one. */
  datatype Rank = Rank(major: int, minor: int)

  function RankOf(rank: map<Id, Rank>, x: Id): Rank { if x in rank then rank[x] else Rank(0, 0) }

  predicate Earlier(rank: map<Id, Rank>, a: Id, b: Id) {
    var p, q := RankOf(rank, a), RankOf(rank, b);
    p.major < q.major || (p.major == q.major && (p.minor < q.minor || (p.minor == q.minor && a < b)))
  }

  /** `x` comes first among `ids`. */
  predicate IsEarliest(ids: set<Id>, rank: map<Id, Rank>, x: Id) {
    x in ids && forall y | y in ids :: y == x || Earlier(rank, x, y)
  }

  lemma {:induction false} EarliestExists(ids: set<Id>, rank: map<Id, Rank>) returns (best: Id)
    requires ids != {}
    ensures IsEarliest(ids, rank, best)
  {
    var z :| z in ids;
    var rest := ids - {z};
    if rest == {} {
      assert ids == {z};
      best := z;
    } else {
      var x := EarliestExists(rest, rank);
      best := if Earlier(rank, x, z) then x else z;
      forall y | y in ids ensures y == best || Earlier(rank, best, y) {
        if y != z {
          assert y in rest;
          assert y == x || Earlier(rank, x, y);
        }
      }
    }
  }

  function Earliest(ids: set<Id>, rank: map<Id, Rank>): Id
    requires ids != {}
  {
    assert exists x :: IsEarliest(ids, rank, x) by { var best := EarliestExists(ids, rank); }
    var x :| x in ids && IsEarliest(ids, rank, x);
    x
  }

  /** The rows `ids` in the order the database returns them. */
  function OrderBy(ids: set<Id>, rank: map<Id, Rank>): seq<Id> {
    if ids == {} then []
    else
      var x := Earliest(ids, rank);
      assert x in ids by { assert exists y :: IsEarliest(ids, rank, y) by { var best := EarliestExists(ids, rank); } }
      [x] + OrderBy(ids - {x}, rank)
  }

  /** In order, hence without repetition. */
  predicate InOrder(rows: seq<Id>, rank: map<Id, Rank>) {
    forall i, j :: 0 <= i < j < |rows| ==> Earlier(rank, rows[i], rows[j])
  }

  lemma {:induction false} OrderByMembers(ids: set<Id>, rank: map<Id, Rank>)
    ensures forall x :: x in OrderBy(ids, rank) <==> x in ids
  {
    if ids != {} {
      var best := EarliestExists(ids, rank);
      OrderByMembers(ids - {Earliest(ids, rank)}, rank);
    }
  }

  lemma {:induction false} OrderByInOrder(ids: set<Id>, rank: map<Id, Rank>)
    ensures InOrder(OrderBy(ids, rank), rank)
  {
    if ids != {} {
      var best := EarliestExists(ids, rank);
      var x := Earliest(ids, rank);
      var rest := ids - {x};
      OrderByInOrder(rest, rank);
      OrderByMembers(rest, rank);
      forall y | y in OrderBy(rest, rank) ensures Earlier(rank, x, y) {
        assert y in ids;
      }
    }
  }

  lemma InOrderDistinct(rows: seq<Id>, rank: map<Id, Rank>)
    requires InOrder(rows, rank)
    ensures Distinct(rows)
  {
    forall i, j | 0 <= i < j < |rows| ensures rows[i] != rows[j] {
      assert Earlier(rank, rows[i], rows[j]);
    }
  }

  // ---------- list.sort() ----------

  predicate Ascending(xs: seq<Id>) {
    forall i :: 0 < i < |xs| ==> xs[i - 1] <= xs[i]
  }

  function Insert(x: Id, xs: seq<Id>): seq<Id> {
    if xs == [] || x <= xs[0] then [x] + xs else [xs[0]] + Insert(x, xs[1..])
  }

  function Sorted(xs: seq<Id>): seq<Id> {
    if xs == [] then [] else Insert(xs[0], Sorted(xs[1..]))
  }

  lemma {:induction false} InsertSorts(x: Id, xs: seq<Id>)
    requires Ascending(xs)
    ensures Ascending(Insert(x, xs))
    ensures Insert(x, xs)[0] == x || (xs != [] && Insert(x, xs)[0] == xs[0])
  {
    if xs != [] && x > xs[0] {
      TailAscends(xs);
      InsertSorts(x, xs[1..]);
      HeadAscends(xs[0], Insert(x, xs[1..]));
    } else {
      HeadAscends(x, xs);
    }
  }

  lemma {:induction false} InsertAdds(x: Id, xs: seq<Id>)
    ensures multiset(Insert(x, xs)) == multiset(xs) + multiset{x}
  {
    if xs != [] && x > xs[0] {
      assert xs == [xs[0]] + xs[1..];
      InsertAdds(x, xs[1..]);
    }
  }

  lemma TailAscends(xs: seq<Id>)
    requires Ascending(xs) && xs != []
    ensures Ascending(xs[1..]) && (|xs| > 1 ==> xs[0] <= xs[1..][0])
  {
  }

  lemma HeadAscends(x: Id, xs: seq<Id>)
    requires Ascending(xs) && (xs != [] ==> x <= xs[0])
    ensures Ascending([x] + xs)
  {
  }

  /** Sorting gives an ascending permutation. */
  lemma {:induction false} SortedSorts(xs: seq<Id>)
    ensures Ascending(Sorted(xs)) && multiset(Sorted(xs)) == multiset(xs)
  {
    if xs != [] {
      assert xs == [xs[0]] + xs[1..];
      SortedSorts(xs[1..]);
      InsertSorts(xs[0], Sorted(xs[1..]));
      InsertAdds(xs[0], Sorted(xs[1..]));
    }
  }

  // ---------- identifiers as path components ----------

  function Label(n: Id): string {
    if n < 10 then [('0' as int + n) as char]
    else Label(n / 10) + [('0' as int + n % 10) as char]
  }

  lemma {:induction false} LabelInjective(a: Id, b: Id)
    requires Label(a) == Label(b)
    ensures a == b
  {
    var x, y := Label(a), Label(b);
    assert x[|x| - 1] == ('0' as int + a % 10) as char;
    assert y[|y| - 1] == ('0' as int + b % 10) as char;
    assert a % 10 == b % 10;
    LabelLength(a);
    LabelLength(b);
    if a >= 10 && b >= 10 {
      assert x[..|x| - 1] == Label(a / 10) && y[..|y| - 1] == Label(b / 10);
      LabelInjective(a / 10, b / 10);
    }
  }

  lemma LabelLength(n: Id)
    ensures |Label(n)| == 1 <==> n < 10
    ensures |Label(n)| >= 1
  {
  }

  predicate IsPrefix<T(==)>(p: seq<T>, q: seq<T>) {
    |p| <= |q| && q[..|p|] == p
  }

  lemma PrefixAt<T>(p: seq<T>, q: seq<T>, n: nat)
    requires n < |p|
    ensures IsPrefix(p, q) ==> n < |q| && q[n] == p[n]
  {
    assert |p| <= |q| ==> q[..|p|][n] == q[n];
  }
}
