/** What passes do over time: they compose, they repeat without effect, and destroy retries run out. */
module ReconcilerLaws {
  import opened Basics
  import opened Schema
  import opened Reconciler

  // ---------- what one pass does to the rows ----------

  lemma PassRows(s: Tables, now: Time, w: World, max: int)
    ensures var t, ids := Reconcile(s, now, w, max), StaleIds(s.approvals, now);
      && t.approvals == ExpireApprovals(s.approvals, ids, now)
      && t.exports == ExpireExports(s, ids)
      && t.leases == EndLeases(s.leases, now)
      && t.runs == EndRuns(s.runs, now)
      && t.storage == s.storage
      && t.jobs == s.jobs
  {
    LatePhasesKeep(Sweep(s, now), w, max);
    SweepRows(s, now);
  }

  lemma LatePhasesKeep(swept: Tables, w: World, max: int)
    ensures var t := Inspect(Scan(Retry(swept, w, max), w), w);
      t == swept.(labs := t.labs, events := t.events)
  {
  }

  lemma SweepRows(s: Tables, now: Time)
    ensures var t, ids := Sweep(s, now), StaleIds(s.approvals, now);
      t == Tables(ExpireLabs(s, ids), s.storage, ExpireApprovals(s.approvals, ids, now), ExpireExports(s, ids),
                  EndRuns(s.runs, now), EndLeases(s.leases, now), s.jobs, t.events)
  {
  }

  /** What a pass makes of one lab's row before it retries or scans. */
  function SweptLab(s: Tables, now: Time, l: Id): Lab
    requires l in s.labs
  {
    if Targeted(s.approvals, StaleIds(s.approvals, now), LabResource, l) then ExpiredLab(s.labs[l]) else s.labs[l]
  }

  function RetriedLab(s: Tables, now: Time, w: World, max: int, l: Id): Lab
    requires l in s.labs
  {
    if w.destroyer.None? then SweptLab(s, now, l)
    else RetryLab(SweptLab(s, now, l), l in s.storage, Failure(w.destroyer.value, l), max)
  }

  lemma RetriedLabs(s: Tables, now: Time, w: World, max: int)
    ensures var r := Retry(Sweep(s, now), w, max);
      r.storage == s.storage && r.labs == map l | l in s.labs :: RetriedLab(s, now, w, max, l)
  {
    SweepRows(s, now);
    RetriedSwept(s, Sweep(s, now), now, w, max);
  }

  lemma RetriedSwept(s: Tables, swept: Tables, now: Time, w: World, max: int)
    requires swept.labs == ExpireLabs(s, StaleIds(s.approvals, now)) && swept.storage == s.storage
    ensures Retry(swept, w, max).storage == s.storage
    ensures Retry(swept, w, max).labs == map l | l in s.labs :: RetriedLab(s, now, w, max, l)
  {
    forall l | l in s.labs ensures swept.labs[l] == SweptLab(s, now, l) {}
    if w.destroyer.Some? {
      assert Retry(swept, w, max).labs == RetryLabs(swept, w.destroyer.value, max);
    }
  }

  /** What a pass makes of every lab. */
  lemma PassLabs(s: Tables, now: Time, w: World, max: int)
    ensures Reconcile(s, now, w, max).labs
         == map l | l in s.labs :: ScanLab(RetriedLab(s, now, w, max, l), FaultIn(s.storage, w.existing, l))
  {
    RetriedLabs(s, now, w, max);
    ScannedLabs(s, Retry(Sweep(s, now), w, max), now, w, max);
  }

  lemma ScannedLabs(s: Tables, retried: Tables, now: Time, w: World, max: int)
    requires retried.storage == s.storage && retried.labs == map l | l in s.labs :: RetriedLab(s, now, w, max, l)
    ensures ScanLabs(retried, w)
         == map l | l in s.labs :: ScanLab(RetriedLab(s, now, w, max, l), FaultIn(s.storage, w.existing, l))
  {
  }

  // ---------- passes compose over time ----------

  /** The same row, except perhaps for when it was decided, ended or revoked. */
  predicate SameApproval(a: Approval, b: Approval) {
    b == a.(decidedAt := b.decidedAt) && (a.decidedAt.Some? <==> b.decidedAt.Some?)
  }

  predicate SameLease(a: Lease, b: Lease) {
    b == a.(revokedAt := b.revokedAt) && (a.revokedAt.Some? <==> b.revokedAt.Some?)
  }

  predicate SameRun(a: Run, b: Run) {
    b == a.(finishedAt := b.finishedAt) && (a.finishedAt.Some? <==> b.finishedAt.Some?)
  }

  ghost predicate SameApprovals(a: map<Id, Approval>, b: map<Id, Approval>) {
    a.Keys == b.Keys && forall x :: x in a ==> SameApproval(a[x], b[x])
  }

  ghost predicate SameLeases(a: map<Id, Lease>, b: map<Id, Lease>) {
    a.Keys == b.Keys && forall x :: x in a ==> SameLease(a[x], b[x])
  }

  ghost predicate SameRuns(a: map<Id, Run>, b: map<Id, Run>) {
    a.Keys == b.Keys && forall x :: x in a ==> SameRun(a[x], b[x])
  }

  /** Equal rows in every table, up to the moments that decisions, revocations and ends are stamped with. */
  ghost predicate SameStates(s: Tables, t: Tables) {
    && SameApprovals(s.approvals, t.approvals)
    && SameLeases(s.leases, t.leases)
    && SameRuns(s.runs, t.runs)
    && s.labs == t.labs && s.exports == t.exports && s.storage == t.storage && s.jobs == t.jobs
  }

  lemma SameStatesTransitive(a: Tables, b: Tables, c: Tables)
    requires SameStates(a, b) && SameStates(b, c)
    ensures SameStates(a, c)
  {
    forall x | x in a.approvals ensures SameApproval(a.approvals[x], c.approvals[x]) {
      assert SameApproval(a.approvals[x], b.approvals[x]) && SameApproval(b.approvals[x], c.approvals[x]);
    }
    forall x | x in a.leases ensures SameLease(a.leases[x], c.leases[x]) {
      assert SameLease(a.leases[x], b.leases[x]) && SameLease(b.leases[x], c.leases[x]);
    }
    forall x | x in a.runs ensures SameRun(a.runs[x], c.runs[x]) {
      assert SameRun(a.runs[x], b.runs[x]) && SameRun(b.runs[x], c.runs[x]);
    }
  }

  /** What expires by `t2` is what expires by `t1` and what is left to expire after that. */
  lemma StaleSplits(approvals: map<Id, Approval>, t1: Time, t2: Time)
    requires t1 <= t2
    ensures var first := ExpireApprovals(approvals, StaleIds(approvals, t1), t1);
      StaleIds(approvals, t1) <= StaleIds(approvals, t2)
      && StaleIds(first, t2) == StaleIds(approvals, t2) - StaleIds(approvals, t1)
  {
  }

  lemma TargetedSplits(approvals: map<Id, Approval>, t1: Time, t2: Time, kind: ResourceType, r: Id)
    requires t1 <= t2
    ensures var first := ExpireApprovals(approvals, StaleIds(approvals, t1), t1);
      Targeted(approvals, StaleIds(approvals, t2), kind, r)
      <==> Targeted(approvals, StaleIds(approvals, t1), kind, r) || Targeted(first, StaleIds(first, t2), kind, r)
  {
    StaleSplits(approvals, t1, t2);
    var first := ExpireApprovals(approvals, StaleIds(approvals, t1), t1);
    forall a | a in approvals ensures Targets(approvals, a, kind, r) <==> Targets(first, a, kind, r) {}
    if a :| a in StaleIds(approvals, t2) && Targets(approvals, a, kind, r) {
      if a !in StaleIds(approvals, t1) { assert a in StaleIds(first, t2) && Targets(first, a, kind, r); }
    }
    if a :| a in StaleIds(approvals, t1) && Targets(approvals, a, kind, r) { assert a in StaleIds(approvals, t2); }
    if a :| a in StaleIds(first, t2) && Targets(first, a, kind, r) {
      assert a in StaleIds(approvals, t2) && Targets(approvals, a, kind, r);
    }
  }

  lemma ApprovalsCompose(approvals: map<Id, Approval>, t1: Time, t2: Time)
    requires t1 <= t2
    ensures var first := ExpireApprovals(approvals, StaleIds(approvals, t1), t1);
      SameApprovals(ExpireApprovals(first, StaleIds(first, t2), t2),
                    ExpireApprovals(approvals, StaleIds(approvals, t2), t2))
  {
    StaleSplits(approvals, t1, t2);
  }

  lemma LeasesCompose(leases: map<Id, Lease>, t1: Time, t2: Time)
    requires t1 <= t2
    ensures SameLeases(EndLeases(EndLeases(leases, t1), t2), EndLeases(leases, t2))
  {
  }

  lemma RunsCompose(runs: map<Id, Run>, t1: Time, t2: Time)
    requires t1 <= t2
    ensures SameRuns(EndRuns(EndRuns(runs, t1), t2), EndRuns(runs, t2))
  {
  }

  /** The labs after a pass with no destroyer. */
  function QuietLabs(s: Tables, now: Time, existing: set<Path>): map<Id, Lab> {
    map l | l in s.labs :: ScanLab(SweptLab(s, now, l), FaultIn(s.storage, existing, l))
  }

  /** `t` holds the rows that a pass with no destroyer makes of `s`. */
  ghost predicate QuietlyPassed(s: Tables, t: Tables, now: Time, existing: set<Path>) {
    && t.approvals == ExpireApprovals(s.approvals, StaleIds(s.approvals, now), now)
    && t.exports == ExpireExports(s, StaleIds(s.approvals, now))
    && t.leases == EndLeases(s.leases, now)
    && t.runs == EndRuns(s.runs, now)
    && t.storage == s.storage
    && t.jobs == s.jobs
    && t.labs == QuietLabs(s, now, existing)
  }

  lemma QuietPassPasses(s: Tables, now: Time, w: World, max: int)
    requires w.destroyer.None?
    ensures QuietlyPassed(s, Reconcile(s, now, w, max), now, w.existing)
  {
    PassRows(s, now, w, max);
    PassLabs(s, now, w, max);
  }

  lemma LabComposes(s: Tables, first: Tables, t1: Time, t2: Time, existing: set<Path>, l: Id)
    requires t1 <= t2 && QuietlyPassed(s, first, t1, existing) && l in s.labs && l in first.labs
    ensures ScanLab(SweptLab(first, t2, l), FaultIn(first.storage, existing, l))
         == ScanLab(SweptLab(s, t2, l), FaultIn(s.storage, existing, l))
  {
    TargetedSplits(s.approvals, t1, t2, LabResource, l);
  }

  lemma LabsCompose(s: Tables, first: Tables, t1: Time, t2: Time, existing: set<Path>)
    requires t1 <= t2 && QuietlyPassed(s, first, t1, existing)
    ensures QuietLabs(first, t2, existing) == QuietLabs(s, t2, existing)
  {
    forall l | l in s.labs ensures QuietLabs(first, t2, existing)[l] == QuietLabs(s, t2, existing)[l] {
      LabComposes(s, first, t1, t2, existing, l);
    }
  }

  lemma ExportsCompose(s: Tables, first: Tables, t1: Time, t2: Time, existing: set<Path>)
    requires t1 <= t2 && QuietlyPassed(s, first, t1, existing)
    ensures ExpireExports(first, StaleIds(first.approvals, t2)) == ExpireExports(s, StaleIds(s.approvals, t2))
  {
    forall e | e in s.exports {
      TargetedSplits(s.approvals, t1, t2, ExportResource, e);
    }
  }

  lemma RowsCompose(
    s: Tables, first: Tables, both: Tables, once: Tables, t1: Time, t2: Time, existing: set<Path>)
    requires t1 <= t2 && QuietlyPassed(s, first, t1, existing)
    requires QuietlyPassed(first, both, t2, existing) && QuietlyPassed(s, once, t2, existing)
    ensures SameStates(both, once)
  {
    ApprovalsCompose(s.approvals, t1, t2);
    LeasesCompose(s.leases, t1, t2);
    RunsCompose(s.runs, t1, t2);
    LabsCompose(s, first, t1, t2, existing);
    ExportsCompose(s, first, t1, t2, existing);
  }

  /**
   * With no destroyer and an unchanged file system, a pass at `t1` and then one at `t2 >= t1` leave the states
   * that one pass at `t2` leaves.
   */
  lemma TwoPassesAreOne(s: Tables, t1: Time, w1: World, t2: Time, w2: World, max: int)
    requires t1 <= t2 && w1.destroyer.None? && w2.destroyer.None? && w1.existing == w2.existing
    ensures SameStates(Reconcile(Reconcile(s, t1, w1, max), t2, w2, max), Reconcile(s, t2, w2, max))
  {
    var first := Reconcile(s, t1, w1, max);
    QuietPassPasses(s, t1, w1, max);
    QuietPassPasses(first, t2, w2, max);
    QuietPassPasses(s, t2, w2, max);
    RowsCompose(s, first, Reconcile(first, t2, w2, max), Reconcile(s, t2, w2, max), t1, t2, w1.existing);
  }

  /** One pass: when it runs and what it meets. */
  datatype Pass = Pass(now: Time, world: World)

  function RunPasses(s: Tables, ps: seq<Pass>, max: int): Tables
    decreases |ps|
  {
    if ps == [] then s else RunPasses(Reconcile(s, ps[0].now, ps[0].world, max), ps[1..], max)
  }

  /** Passes in time order that meet the same file system and have no destroyer. */
  ghost predicate Quiet(ps: seq<Pass>) {
    && (forall i, j :: 0 <= i < j < |ps| ==> ps[i].now <= ps[j].now && ps[i].world.existing == ps[j].world.existing)
    && (forall i :: 0 <= i < |ps| ==> ps[i].world.destroyer.None?)
  }

  lemma QuietTail(ps: seq<Pass>)
    requires |ps| > 1 && Quiet(ps)
    ensures Quiet(ps[1..]) && ps[1..] != [] && ps[1..][|ps[1..]| - 1] == ps[|ps| - 1]
    ensures ps[0].now <= ps[|ps| - 1].now && ps[0].world.existing == ps[|ps| - 1].world.existing
    ensures ps[0].world.destroyer.None? && ps[|ps| - 1].world.destroyer.None?
  {
  }

  /** However many passes ran before, only the last one's moment matters. */
  lemma {:induction false} PassesAreOne(s: Tables, ps: seq<Pass>, last: Pass, max: int)
    requires ps != [] && Quiet(ps) && last == ps[|ps| - 1]
    ensures SameStates(RunPasses(s, ps, max), Reconcile(s, last.now, last.world, max))
    decreases |ps|
  {
    var first := Reconcile(s, ps[0].now, ps[0].world, max);
    if |ps| == 1 {
      assert RunPasses(s, ps, max) == first;
    } else {
      QuietTail(ps);
      PassesAreOne(first, ps[1..], last, max);
      TwoPassesAreOne(s, ps[0].now, ps[0].world, last.now, last.world, max);
      SameStatesTransitive(RunPasses(first, ps[1..], max), Reconcile(first, last.now, last.world, max),
                           Reconcile(s, last.now, last.world, max));
    }
  }

  // ---------- a second pass at the same moment ----------

  lemma {:induction false} GatherNothing<T, U>(xs: seq<T>, f: map<T, seq<U>>, n: nat)
    requires n <= |xs| && forall i :: 0 <= i < n ==> EntryOf(f, xs[i]) == []
    ensures Gather([], xs, f, n) == []
  {
    if n > 0 { GatherNothing(xs, f, n - 1); }
  }

  lemma NoStaleLeft(s: Tables, first: Tables, now: Time)
    requires first.approvals == ExpireApprovals(s.approvals, StaleIds(s.approvals, now), now)
    ensures StaleIds(first.approvals, now) == {} && FoundStale([], first, now) == []
  {
    GatherNothing(PendingQuery(first.approvals), ExpiryList(first.approvals, now), |PendingQuery(first.approvals)|);
  }

  lemma NoLeaseLeft(s: Tables, first: Tables, now: Time)
    requires first.leases == EndLeases(s.leases, now)
    ensures EndLeases(first.leases, now) == first.leases && FoundLeases([], first, now) == []
  {
    var rows, list := OpenLeaseQuery(first.leases), LeaseList(first.leases, now);
    assert forall x :: EntryOf(list, x) == [];
    GatherNothing(rows, list, |rows|);
  }

  lemma NoRunLeft(s: Tables, first: Tables, now: Time)
    requires first.runs == EndRuns(s.runs, now)
    ensures EndRuns(first.runs, now) == first.runs && FoundRuns([], first, now) == []
  {
    var rows, list := ActiveRunQuery(first.runs), RunList(first.runs, now);
    assert forall x :: EntryOf(list, x) == [];
    GatherNothing(rows, list, |rows|);
  }

  lemma NothingLeftToSweep(s: Tables, first: Tables, now: Time)
    requires first.approvals == ExpireApprovals(s.approvals, StaleIds(s.approvals, now), now)
    requires first.leases == EndLeases(s.leases, now) && first.runs == EndRuns(s.runs, now)
    ensures StaleIds(first.approvals, now) == {}
    ensures ExpireApprovals(first.approvals, {}, now) == first.approvals
    ensures ExpireLabs(first, {}) == first.labs && ExpireExports(first, {}) == first.exports
    ensures EndLeases(first.leases, now) == first.leases && EndRuns(first.runs, now) == first.runs
    ensures FoundStale([], first, now) == [] && FoundLeases([], first, now) == [] && FoundRuns([], first, now) == []
  {
    NoStaleLeft(s, first, now);
    NoLeaseLeft(s, first, now);
    NoRunLeft(s, first, now);
    NothingExpires(first, now);
  }

  /** Scanning what was scanned already finds the same and changes nothing. */
  lemma ScanTwice(s: Tables, t: Tables, w: World)
    requires t.labs == ScanLabs(s, w) && t.storage == s.storage
    ensures ScanLabs(t, w) == t.labs
    ensures FoundFaulty([], t, w) == FoundFaulty([], s, w)
  {
    assert LabRank(t.labs) == LabRank(s.labs) && t.labs.Keys == s.labs.Keys;
    assert ScanList(t, w) == ScanList(s, w);
  }

  lemma RepeatedRows(s: Tables, first: Tables, again: Tables, now: Time, w: World)
    requires first.labs == ScanLabs(Sweep(s, now), w)
    requires QuietlyPassed(s, first, now, w.existing) && QuietlyPassed(first, again, now, w.existing)
    ensures again == first.(events := again.events)
  {
    NothingLeftToSweep(s, first, now);
    SweepRows(s, now);
    ScanTwice(Sweep(s, now), first, w);
    ScanOnly(first, now, w);
  }

  /** When nothing is stale, a quiet pass only scans. */
  lemma ScanOnly(s: Tables, now: Time, w: World)
    requires StaleIds(s.approvals, now) == {}
    ensures QuietLabs(s, now, w.existing) == ScanLabs(s, w)
  {
    forall l | l in s.labs ensures SweptLab(s, now, l) == s.labs[l] {}
  }

  /** A second pass at the same moment changes no row. */
  lemma SecondPassChangesNothing(s: Tables, now: Time, w: World, w2: World, max: int)
    requires w.destroyer.None? && w2.destroyer.None? && w2.existing == w.existing
    ensures var first := Reconcile(s, now, w, max);
      var again := Reconcile(first, now, w2, max);
      again == first.(events := again.events)
  {
    var first := Reconcile(s, now, w, max);
    QuietPassPasses(s, now, w, max);
    QuietPassPasses(first, now, w2, max);
    RepeatedRows(s, first, Reconcile(first, now, w2, max), now, w);
  }

  /** It only reports again what a scan and the inventory still show. */
  lemma SecondPassOnlyReportsAgain(s: Tables, now: Time, w: World, max: int)
    requires w.destroyer.None?
    ensures Found(Reconcile(s, now, w, max), now, w, max)
         == Found(s, now, w, max).(expiredApprovals := [], revokedLeases := [], timedOutRuns := [])
  {
    var first := Reconcile(s, now, w, max);
    PassRows(s, now, w, max);
    RepeatedFindings(s, first, now, w, max);
  }

  lemma RepeatedFindings(s: Tables, first: Tables, now: Time, w: World, max: int)
    requires w.destroyer.None?
    requires first.approvals == ExpireApprovals(s.approvals, StaleIds(s.approvals, now), now)
    requires first.leases == EndLeases(s.leases, now) && first.runs == EndRuns(s.runs, now)
    requires first.storage == s.storage && first.labs == ScanLabs(Sweep(s, now), w)
    ensures Found(first, now, w, max)
         == Found(s, now, w, max).(expiredApprovals := [], revokedLeases := [], timedOutRuns := [])
  {
    NothingLeftToSweep(s, first, now);
    SweepRows(s, now);
    SweepRows(first, now);
    ScanTwice(Sweep(s, now), Sweep(first, now), w);
  }
}
