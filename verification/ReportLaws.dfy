/** What a pass reports is what it logs and what it did: exact lists, one event an entry. */
module ReportLaws {
  import opened Basics
  import opened Schema
  import opened Reconciler
  import opened ReconcilerLaws

  // ---------- the log of one pass ----------

  function StaleLog(s: Tables, now: Time): seq<Event> {
    GatherAll([], PendingQuery(s.approvals), ExpiryLog(s.approvals, now))
  }

  function LeasesLog(s: Tables, now: Time): seq<Event> {
    GatherAll([], OpenLeaseQuery(s.leases), LeaseLog(s.leases, now))
  }

  function RunsLog(s: Tables, now: Time): seq<Event> {
    GatherAll([], ActiveRunQuery(s.runs), RunLog(s.runs, now))
  }

  function RetriesLog(s: Tables, w: World, max: int): seq<Event> {
    if w.destroyer.None? then [] else GatherAll([], DestroyingQuery(s.labs), RetryLog(s, w.destroyer.value, max))
  }

  function FaultsLog(s: Tables, w: World): seq<Event> { GatherAll([], AllLabs(s.labs), ScanLog(s, w)) }

  function FoundLog(labs: map<Id, Lab>, w: World): seq<Event> {
    GatherAll([], Inspected(w), InventoryLog(labs, Inspected(w)))
  }

  /** The events a pass adds, phase by phase. */
  function PassLog(s: Tables, now: Time, w: World, max: int): seq<Event> {
    var swept := Sweep(s, now);
    var retried := Retry(swept, w, max);
    StaleLog(s, now) + LeasesLog(s, now) + RunsLog(s, now)
    + RetriesLog(swept, w, max) + FaultsLog(retried, w) + FoundLog(ScanLabs(retried, w), w)
  }

  lemma SweepAppends(s: Tables, now: Time)
    ensures Sweep(s, now).events == s.events + StaleLog(s, now) + LeasesLog(s, now) + RunsLog(s, now)
  {
    var e := Expire(s, now);
    GatherStart(s.events, PendingQuery(s.approvals), ExpiryLog(s.approvals, now), |PendingQuery(s.approvals)|);
    GatherStart(e.events, OpenLeaseQuery(s.leases), LeaseLog(s.leases, now), |OpenLeaseQuery(s.leases)|);
    GatherStart(RevokeDue(e, now).events, ActiveRunQuery(s.runs), RunLog(s.runs, now), |ActiveRunQuery(s.runs)|);
  }

  lemma RetryAppends(s: Tables, w: World, max: int)
    ensures Retry(s, w, max).events == s.events + RetriesLog(s, w, max)
  {
    if w.destroyer.Some? {
      GatherStart(s.events, DestroyingQuery(s.labs), RetryLog(s, w.destroyer.value, max), |DestroyingQuery(s.labs)|);
    }
  }

  lemma ScanAppends(s: Tables, w: World)
    ensures Scan(s, w).events == s.events + FaultsLog(s, w)
  {
    GatherStart(s.events, AllLabs(s.labs), ScanLog(s, w), |AllLabs(s.labs)|);
  }

  lemma InspectAppends(s: Tables, w: World)
    ensures Inspect(s, w).events == s.events + FoundLog(s.labs, w)
  {
    GatherStart(s.events, Inspected(w), InventoryLog(s.labs, Inspected(w)), |Inspected(w)|);
  }

  /** The log is append-only, and this is what a pass appends. */
  lemma PassAppends(s: Tables, now: Time, w: World, max: int)
    ensures Reconcile(s, now, w, max).events == s.events + PassLog(s, now, w, max)
  {
    var swept := Sweep(s, now);
    var retried := Retry(swept, w, max);
    var scanned := Scan(retried, w);
    SweepAppends(s, now);
    RetryAppends(swept, w, max);
    ScanAppends(retried, w);
    InspectAppends(scanned, w);
    PartsAppend(s.events, StaleLog(s, now), LeasesLog(s, now), RunsLog(s, now),
                RetriesLog(swept, w, max), FaultsLog(retried, w), FoundLog(scanned.labs, w));
  }

  lemma PartsAppend<T>(z: seq<T>, a: seq<T>, b: seq<T>, c: seq<T>, d: seq<T>, e: seq<T>, f: seq<T>)
    ensures z + a + b + c + d + e + f == z + (a + b + c + d + e + f)
  {
  }

  // ---------- each phase logs events of its own kinds ----------

  predicate OnlyKinds(log: seq<Event>, kinds: set<EventKind>) {
    forall i :: 0 <= i < |log| ==> log[i].kind in kinds
  }

  lemma {:induction false} OtherKinds(log: seq<Event>, kinds: set<EventKind>, asked: set<EventKind>, id: Id, n: nat)
    requires n <= |log| && OnlyKinds(log, kinds) && kinds !! asked
    ensures HistTo(log, asked, id, n) == []
  {
    if n > 0 { OtherKinds(log, kinds, asked, id, n - 1); }
  }

  lemma {:induction false} GatherKinds<T>(xs: seq<T>, f: map<T, seq<Event>>, n: nat, kinds: set<EventKind>)
    requires n <= |xs| && forall x :: x in f ==> OnlyKinds(f[x], kinds)
    ensures OnlyKinds(Gather([], xs, f, n), kinds)
  {
    if n > 0 { GatherKinds(xs, f, n - 1, kinds); }
  }

  const RETRY_KINDS := {LabDestroyed, LabDestroyRetryFailed, LabDestroyFailed}

  const INVENTORY_KINDS := {OrphanDetected, ZombieDetected}

  lemma SweepKinds(s: Tables, now: Time)
    ensures OnlyKinds(StaleLog(s, now), {ApprovalExpired})
    ensures OnlyKinds(LeasesLog(s, now), {LeaseExpired})
    ensures OnlyKinds(RunsLog(s, now), {RunTimedOut})
  {
    GatherKinds(PendingQuery(s.approvals), ExpiryLog(s.approvals, now), |PendingQuery(s.approvals)|, {ApprovalExpired});
    GatherKinds(OpenLeaseQuery(s.leases), LeaseLog(s.leases, now), |OpenLeaseQuery(s.leases)|, {LeaseExpired});
    GatherKinds(ActiveRunQuery(s.runs), RunLog(s.runs, now), |ActiveRunQuery(s.runs)|, {RunTimedOut});
  }

  lemma RetryLogKinds(s: Tables, w: World, max: int)
    ensures OnlyKinds(RetriesLog(s, w, max), RETRY_KINDS)
  {
    if w.destroyer.Some? {
      GatherKinds(DestroyingQuery(s.labs), RetryLog(s, w.destroyer.value, max), |DestroyingQuery(s.labs)|, RETRY_KINDS);
    }
  }

  lemma FaultKinds(s: Tables, w: World)
    ensures OnlyKinds(FaultsLog(s, w), {LabReconciliationFailed})
  {
    GatherKinds(AllLabs(s.labs), ScanLog(s, w), |AllLabs(s.labs)|, {LabReconciliationFailed});
  }

  lemma FoundKinds(labs: map<Id, Lab>, w: World)
    ensures OnlyKinds(FoundLog(labs, w), INVENTORY_KINDS)
  {
    GatherKinds(Inspected(w), InventoryLog(labs, Inspected(w)), |Inspected(w)|, INVENTORY_KINDS);
  }

  /** A phase that only logs `kinds` adds nothing to a history of another kind. */
  lemma OtherKind(log: seq<Event>, kinds: set<EventKind>, k: EventKind, id: Id)
    requires OnlyKinds(log, kinds)
    ensures k !in kinds ==> Hist(log, {k}, id) == []
  {
    if k !in kinds { OtherKinds(log, kinds, {k}, id, |log|); }
  }

  lemma HistOfSix(
    a: seq<Event>, b: seq<Event>, c: seq<Event>, d: seq<Event>, e: seq<Event>, f: seq<Event>,
    asked: set<EventKind>, id: Id)
    ensures Hist(a + b + c + d + e + f, asked, id)
         == Hist(a, asked, id) + Hist(b, asked, id) + Hist(c, asked, id)
          + Hist(d, asked, id) + Hist(e, asked, id) + Hist(f, asked, id)
  {
    HistConcat(a, b, asked, id);
    HistConcat(a + b, c, asked, id);
    HistConcat(a + b + c, d, asked, id);
    HistConcat(a + b + c + d, e, asked, id);
    HistConcat(a + b + c + d + e, f, asked, id);
  }

  // ---------- one event an entry ----------

  lemma HistOfOne(e: Event, kinds: set<EventKind>, id: Id)
    ensures Hist([e], kinds, id) == HistOne(e, kinds, id)
  {
    assert HistTo([e], kinds, id, 1) == HistTo([e], kinds, id, 0) + HistOne([e][0], kinds, id);
  }

  lemma TimesOfOne(x: Id, id: Id)
    ensures Times([x], id) == if x == id then 1 else 0
    ensures Times([], id) == 0
  {
    assert TimesTo([x], id, 1) == TimesTo([x], id, 0) + (if [x][0] == id then 1 else 0);
  }

  /** One event about `x` and one mention of `x`, or neither: the same number about any id. */
  lemma OneForOne(hit: bool, e: Event, id: Id)
    ensures |Hist(if hit then [e] else [], {e.kind}, id)| == Times(if hit then [e.resource] else [], id)
  {
    HistOfOne(e, {e.kind}, id);
    TimesOfOne(e.resource, id);
  }

  lemma StaleCounts(s: Tables, now: Time, id: Id)
    ensures |Hist(StaleLog(s, now), {ApprovalExpired}, id)| == Times(FoundStale([], s, now), id)
  {
    var rows, log, list := PendingQuery(s.approvals), ExpiryLog(s.approvals, now), ExpiryList(s.approvals, now);
    PendingQueryRows(s.approvals);
    forall i | 0 <= i < |rows|
      ensures |Hist(EntryOf(log, rows[i]), {ApprovalExpired}, id)| == Times(EntryOf(list, rows[i]), id)
    {
      var a := rows[i];
      OneForOne(Stale(s.approvals[a], now), Event(ApprovalExpired, a, s.approvals[a].lab, Plain), id);
    }
    HistCounts(rows, list, log, |rows|, {ApprovalExpired}, id);
  }

  lemma LeaseCounts(s: Tables, now: Time, id: Id)
    ensures |Hist(LeasesLog(s, now), {LeaseExpired}, id)| == Times(FoundLeases([], s, now), id)
  {
    var rows, log, list := OpenLeaseQuery(s.leases), LeaseLog(s.leases, now), LeaseList(s.leases, now);
    OpenLeaseQueryRows(s.leases);
    forall i | 0 <= i < |rows|
      ensures |Hist(EntryOf(log, rows[i]), {LeaseExpired}, id)| == Times(EntryOf(list, rows[i]), id)
    {
      var l := rows[i];
      OneForOne(LeaseDue(s.leases[l], now), Event(LeaseExpired, l, Some(s.leases[l].lab), Plain), id);
    }
    HistCounts(rows, list, log, |rows|, {LeaseExpired}, id);
  }

  lemma RunCounts(s: Tables, now: Time, id: Id)
    ensures |Hist(RunsLog(s, now), {RunTimedOut}, id)| == Times(FoundRuns([], s, now), id)
  {
    var rows, log, list := ActiveRunQuery(s.runs), RunLog(s.runs, now), RunList(s.runs, now);
    ActiveRunQueryRows(s.runs);
    forall i | 0 <= i < |rows|
      ensures |Hist(EntryOf(log, rows[i]), {RunTimedOut}, id)| == Times(EntryOf(list, rows[i]), id)
    {
      var r := rows[i];
      OneForOne(RunDue(s.runs[r], now), Event(RunTimedOut, r, Some(s.runs[r].lab), Plain), id);
    }
    HistCounts(rows, list, log, |rows|, {RunTimedOut}, id);
  }

  lemma FaultCounts(s: Tables, w: World, id: Id)
    ensures |Hist(FaultsLog(s, w), {LabReconciliationFailed}, id)| == Times(FoundFaulty([], s, w), id)
  {
    var rows, log, list := AllLabs(s.labs), ScanLog(s, w), ScanList(s, w);
    AllLabsRows(s.labs);
    forall i | 0 <= i < |rows|
      ensures |Hist(EntryOf(log, rows[i]), {LabReconciliationFailed}, id)| == Times(EntryOf(list, rows[i]), id)
    {
      var l := rows[i];
      var f := Finding(s.labs[l], Fault(s, w, l));
      OneForOne(f.Some?, Event(LabReconciliationFailed, l, Some(l), if f.Some? then f.value else Plain), id);
    }
    HistCounts(rows, list, log, |rows|, {LabReconciliationFailed}, id);
  }

  lemma OrphanCounts(labs: map<Id, Lab>, w: World, id: Id)
    ensures |Hist(FoundLog(labs, w), {OrphanDetected}, id)| == Times(FoundOrphans([], labs, w), id)
  {
    var rows := Inspected(w);
    var log, list := InventoryLog(labs, rows), OrphanList(labs, rows);
    forall i | 0 <= i < |rows|
      ensures |Hist(EntryOf(log, rows[i]), {OrphanDetected}, id)| == Times(EntryOf(list, rows[i]), id)
    {
      var l := rows[i].lab;
      assert rows[i] in rows;
      OneForOne(Orphan(labs, rows[i]), Event(OrphanDetected, l, None, Plain), id);
      HistOfOne(Event(ZombieDetected, l, Some(l), Plain), {OrphanDetected}, id);
    }
    HistCounts(rows, list, log, |rows|, {OrphanDetected}, id);
  }

  lemma ZombieCounts(labs: map<Id, Lab>, w: World, id: Id)
    ensures |Hist(FoundLog(labs, w), {ZombieDetected}, id)| == Times(FoundZombies([], labs, w), id)
  {
    var rows := Inspected(w);
    var log, list := InventoryLog(labs, rows), ZombieList(labs, rows);
    forall i | 0 <= i < |rows|
      ensures |Hist(EntryOf(log, rows[i]), {ZombieDetected}, id)| == Times(EntryOf(list, rows[i]), id)
    {
      var l := rows[i].lab;
      assert rows[i] in rows;
      OneForOne(Zombie(labs, rows[i]), Event(ZombieDetected, l, Some(l), Plain), id);
      HistOfOne(Event(OrphanDetected, l, None, Plain), {ZombieDetected}, id);
    }
    HistCounts(rows, list, log, |rows|, {ZombieDetected}, id);
  }

  /** How many events of this kind a retry logs. */
  function RetryMentions(after: Lab, recorded: bool, failure: Option<string>, k: EventKind): nat {
    if !recorded then (if k.LabDestroyFailed? then 1 else 0)
    else if failure.None? then (if k.LabDestroyed? then 1 else 0)
    else if after.state.Failed? && k.LabDestroyFailed? then 1
    else if k.LabDestroyRetryFailed? then 1
    else 0
  }

  lemma RetryKindCounts(after: Lab, recorded: bool, failure: Option<string>, l: Id, id: Id, k: EventKind)
    ensures |Hist(RetryEvents(after, recorded, failure, l), {k}, id)|
         == if l == id then RetryMentions(after, recorded, failure, k) else 0
  {
    var n := Attempt(after.destroyAttempts);
    var failed, done := Event(LabDestroyFailed, l, Some(l), n), Event(LabDestroyed, l, Some(l), n);
    var again := Event(LabDestroyRetryFailed, l, Some(l), n);
    HistOfOne(failed, {k}, id);
    HistOfOne(done, {k}, id);
    HistOfOne(again, {k}, id);
    HistConcat([again], [failed], {k}, id);
    assert [again] + [] == [again];
  }

  /** What a retry of `l` logs, kind by kind. */
  lemma RetryEntryCounts(after: Lab, recorded: bool, failure: Option<string>, l: Id, id: Id)
    ensures var log := RetryEvents(after, recorded, failure, l);
      && |Hist(log, {LabDestroyed}, id)| == (if recorded && failure.None? && l == id then 1 else 0)
      && |Hist(log, {LabDestroyFailed}, id)|
         == (if (!recorded || (failure.Some? && after.state.Failed?)) && l == id then 1 else 0)
      && |Hist(log, {LabDestroyRetryFailed}, id)| == (if recorded && failure.Some? && l == id then 1 else 0)
  {
    RetryKindCounts(after, recorded, failure, l, id, LabDestroyed);
    RetryKindCounts(after, recorded, failure, l, id, LabDestroyFailed);
    RetryKindCounts(after, recorded, failure, l, id, LabDestroyRetryFailed);
  }

  lemma RetryCounts(s: Tables, w: World, max: int, id: Id)
    ensures |Hist(RetriesLog(s, w, max), {LabDestroyed}, id)|
         == Times(RetryList([], s, w, max, LabState.Destroyed), id)
    ensures |Hist(RetriesLog(s, w, max), {LabDestroyFailed}, id)|
         == Times(RetryList([], s, w, max, LabState.Failed), id)
  {
    if w.destroyer.Some? {
      var failures, rows := w.destroyer.value, DestroyingQuery(s.labs);
      var log := RetryLog(s, failures, max);
      var gone, failed := RetriedTo(s, failures, max, LabState.Destroyed), RetriedTo(s, failures, max, LabState.Failed);
      DestroyingQueryRows(s.labs);
      forall i | 0 <= i < |rows|
        ensures |Hist(EntryOf(log, rows[i]), {LabDestroyed}, id)| == Times(EntryOf(gone, rows[i]), id)
        ensures |Hist(EntryOf(log, rows[i]), {LabDestroyFailed}, id)| == Times(EntryOf(failed, rows[i]), id)
      {
        RetryRowCounts(s, failures, max, rows[i], id);
      }
      HistCounts(rows, gone, log, |rows|, {LabDestroyed}, id);
      HistCounts(rows, failed, log, |rows|, {LabDestroyFailed}, id);
    }
  }

  lemma RetryRowCounts(s: Tables, failures: map<Id, string>, max: int, l: Id, id: Id)
    requires l in s.labs && s.labs[l].state.Destroying?
    ensures var log := EntryOf(RetryLog(s, failures, max), l);
      && |Hist(log, {LabDestroyed}, id)| == Times(EntryOf(RetriedTo(s, failures, max, LabState.Destroyed), l), id)
      && |Hist(log, {LabDestroyFailed}, id)| == Times(EntryOf(RetriedTo(s, failures, max, LabState.Failed), l), id)
  {
    RetryEntryCounts(Retried(s, failures, max, l), l in s.storage, Failure(failures, l), l, id);
    TimesOfOne(l, id);
  }

  /** A pass's history of one kind comes from the phase that logs it. */
  lemma KindInSix(
    a: seq<Event>, b: seq<Event>, c: seq<Event>, d: seq<Event>, e: seq<Event>, f: seq<Event>, k: EventKind, id: Id)
    requires OnlyKinds(a, {ApprovalExpired}) && OnlyKinds(b, {LeaseExpired}) && OnlyKinds(c, {RunTimedOut})
    requires OnlyKinds(d, RETRY_KINDS) && OnlyKinds(e, {LabReconciliationFailed}) && OnlyKinds(f, INVENTORY_KINDS)
    ensures Hist(a + b + c + d + e + f, {k}, id)
         == if k.ApprovalExpired? then Hist(a, {k}, id)
            else if k.LeaseExpired? then Hist(b, {k}, id)
            else if k.RunTimedOut? then Hist(c, {k}, id)
            else if k in RETRY_KINDS then Hist(d, {k}, id)
            else if k.LabReconciliationFailed? then Hist(e, {k}, id)
            else if k in INVENTORY_KINDS then Hist(f, {k}, id)
            else []
  {
    OtherKind(a, {ApprovalExpired}, k, id);
    OtherKind(b, {LeaseExpired}, k, id);
    OtherKind(c, {RunTimedOut}, k, id);
    OtherKind(d, RETRY_KINDS, k, id);
    OtherKind(e, {LabReconciliationFailed}, k, id);
    OtherKind(f, INVENTORY_KINDS, k, id);
    HistOfSix(a, b, c, d, e, f, {k}, id);
    OneOfSix(Hist(a, {k}, id), Hist(b, {k}, id), Hist(c, {k}, id), Hist(d, {k}, id), Hist(e, {k}, id),
             Hist(f, {k}, id));
  }

  lemma OneOfSix(a: seq<Event>, b: seq<Event>, c: seq<Event>, d: seq<Event>, e: seq<Event>, f: seq<Event>)
    ensures b + c + d + e + f == [] ==> a + b + c + d + e + f == a
    ensures a + c + d + e + f == [] ==> a + b + c + d + e + f == b
    ensures a + b + d + e + f == [] ==> a + b + c + d + e + f == c
    ensures a + b + c + e + f == [] ==> a + b + c + d + e + f == d
    ensures a + b + c + d + f == [] ==> a + b + c + d + e + f == e
    ensures a + b + c + d + e == [] ==> a + b + c + d + e + f == f
  {
  }

  lemma KindsInSix(
    a: seq<Event>, b: seq<Event>, c: seq<Event>, d: seq<Event>, e: seq<Event>, f: seq<Event>, id: Id)
    requires OnlyKinds(a, {ApprovalExpired}) && OnlyKinds(b, {LeaseExpired}) && OnlyKinds(c, {RunTimedOut})
    requires OnlyKinds(d, RETRY_KINDS) && OnlyKinds(e, {LabReconciliationFailed}) && OnlyKinds(f, INVENTORY_KINDS)
    ensures var log := a + b + c + d + e + f;
      && Hist(log, {ApprovalExpired}, id) == Hist(a, {ApprovalExpired}, id)
      && Hist(log, {LeaseExpired}, id) == Hist(b, {LeaseExpired}, id)
      && Hist(log, {RunTimedOut}, id) == Hist(c, {RunTimedOut}, id)
      && Hist(log, {LabDestroyed}, id) == Hist(d, {LabDestroyed}, id)
      && Hist(log, {LabDestroyFailed}, id) == Hist(d, {LabDestroyFailed}, id)
      && Hist(log, {LabDestroyRetryFailed}, id) == Hist(d, {LabDestroyRetryFailed}, id)
      && Hist(log, {LabReconciliationFailed}, id) == Hist(e, {LabReconciliationFailed}, id)
      && Hist(log, {OrphanDetected}, id) == Hist(f, {OrphanDetected}, id)
      && Hist(log, {ZombieDetected}, id) == Hist(f, {ZombieDetected}, id)
  {
    KindInSix(a, b, c, d, e, f, ApprovalExpired, id);
    KindInSix(a, b, c, d, e, f, LeaseExpired, id);
    KindInSix(a, b, c, d, e, f, RunTimedOut, id);
    KindInSix(a, b, c, d, e, f, LabDestroyed, id);
    KindInSix(a, b, c, d, e, f, LabDestroyFailed, id);
    KindInSix(a, b, c, d, e, f, LabDestroyRetryFailed, id);
    KindInSix(a, b, c, d, e, f, LabReconciliationFailed, id);
    KindInSix(a, b, c, d, e, f, OrphanDetected, id);
    KindInSix(a, b, c, d, e, f, ZombieDetected, id);
  }

  /** The phases of a pass, their lists and their log: `swept`, `retried` and `labs` are the rows in between. */
  lemma PhasesMatch(
    s: Tables, swept: Tables, retried: Tables, labs: map<Id, Lab>, now: Time, w: World, max: int, id: Id)
    ensures var log := StaleLog(s, now) + LeasesLog(s, now) + RunsLog(s, now)
                       + RetriesLog(swept, w, max) + FaultsLog(retried, w) + FoundLog(labs, w);
      && |Hist(log, {LabReconciliationFailed}, id)| == Times(FoundFaulty([], retried, w), id)
      && |Hist(log, {LabDestroyed}, id)| == Times(RetryList([], swept, w, max, LabState.Destroyed), id)
      && |Hist(log, {LabDestroyFailed}, id)| == Times(RetryList([], swept, w, max, LabState.Failed), id)
      && |Hist(log, {OrphanDetected}, id)| == Times(FoundOrphans([], labs, w), id)
      && |Hist(log, {ZombieDetected}, id)| == Times(FoundZombies([], labs, w), id)
      && |Hist(log, {ApprovalExpired}, id)| == Times(FoundStale([], s, now), id)
      && |Hist(log, {LeaseExpired}, id)| == Times(FoundLeases([], s, now), id)
      && |Hist(log, {RunTimedOut}, id)| == Times(FoundRuns([], s, now), id)
  {
    SweepKinds(s, now);
    RetryLogKinds(swept, w, max);
    FaultKinds(retried, w);
    FoundKinds(labs, w);
    KindsInSix(StaleLog(s, now), LeasesLog(s, now), RunsLog(s, now),
               RetriesLog(swept, w, max), FaultsLog(retried, w), FoundLog(labs, w), id);
    FaultCounts(retried, w, id);
    RetryCounts(swept, w, max, id);
    OrphanCounts(labs, w, id);
    ZombieCounts(labs, w, id);
    StaleCounts(s, now, id);
    LeaseCounts(s, now, id);
    RunCounts(s, now, id);
  }

  /** Each list as the phases fill it names an id as often as the pass logs the matching event about it. */
  lemma FoundMatchesLog(s: Tables, now: Time, w: World, max: int, id: Id)
    ensures var f, log := Found(s, now, w, max), PassLog(s, now, w, max);
      && |Hist(log, {LabReconciliationFailed}, id)| == Times(f.failedLabs, id)
      && |Hist(log, {LabDestroyed}, id)| == Times(f.destroyedLabs, id)
      && |Hist(log, {LabDestroyFailed}, id)| == Times(f.failedDestroys, id)
      && |Hist(log, {OrphanDetected}, id)| == Times(f.orphans, id)
      && |Hist(log, {ZombieDetected}, id)| == Times(f.zombies, id)
      && |Hist(log, {ApprovalExpired}, id)| == Times(f.expiredApprovals, id)
      && |Hist(log, {LeaseExpired}, id)| == Times(f.revokedLeases, id)
      && |Hist(log, {RunTimedOut}, id)| == Times(f.timedOutRuns, id)
  {
    var swept := Sweep(s, now);
    var retried := Retry(swept, w, max);
    PhasesMatch(s, swept, retried, ScanLabs(retried, w), now, w, max, id);
  }

  lemma SortedTimes(xs: seq<Id>, id: Id)
    ensures Ascending(Sorted(xs)) && Times(Sorted(xs), id) == Times(xs, id)
  {
    SortedSorts(xs);
    TimesIsMultiplicity(xs, id, |xs|);
    TimesIsMultiplicity(Sorted(xs), id, |Sorted(xs)|);
    assert xs[..|xs|] == xs && Sorted(xs)[..|Sorted(xs)|] == Sorted(xs);
  }

  /** The report a pass returns: its lists in the order the phases filled them, each sorted. */
  function Reported(s: Tables, now: Time, w: World, max: int): Findings { SortFindings(Found(s, now, w, max)) }

  /** Report and log agree: a list names an id exactly as often as the pass logs the matching event about it. */
  lemma ReportMatchesLog(s: Tables, now: Time, w: World, max: int, id: Id)
    ensures var f, log := Reported(s, now, w, max), PassLog(s, now, w, max);
      && |Hist(log, {LabReconciliationFailed}, id)| == Times(f.failedLabs, id)
      && |Hist(log, {LabDestroyed}, id)| == Times(f.destroyedLabs, id)
      && |Hist(log, {LabDestroyFailed}, id)| == Times(f.failedDestroys, id)
      && |Hist(log, {OrphanDetected}, id)| == Times(f.orphans, id)
      && |Hist(log, {ZombieDetected}, id)| == Times(f.zombies, id)
      && |Hist(log, {ApprovalExpired}, id)| == Times(f.expiredApprovals, id)
      && |Hist(log, {LeaseExpired}, id)| == Times(f.revokedLeases, id)
      && |Hist(log, {RunTimedOut}, id)| == Times(f.timedOutRuns, id)
    ensures var f := Reported(s, now, w, max);
      && Ascending(f.failedLabs) && Ascending(f.destroyedLabs) && Ascending(f.failedDestroys)
      && Ascending(f.orphans) && Ascending(f.zombies)
      && Ascending(f.expiredApprovals) && Ascending(f.revokedLeases) && Ascending(f.timedOutRuns)
  {
    FoundMatchesLog(s, now, w, max, id);
    SortedFindingsTimes(Found(s, now, w, max), id);
  }

  lemma SortedFindingsTimes(f: Findings, id: Id)
    ensures var g := SortFindings(f);
      && Times(g.failedLabs, id) == Times(f.failedLabs, id) && Ascending(g.failedLabs)
      && Times(g.destroyedLabs, id) == Times(f.destroyedLabs, id) && Ascending(g.destroyedLabs)
      && Times(g.failedDestroys, id) == Times(f.failedDestroys, id) && Ascending(g.failedDestroys)
      && Times(g.orphans, id) == Times(f.orphans, id) && Ascending(g.orphans)
      && Times(g.zombies, id) == Times(f.zombies, id) && Ascending(g.zombies)
      && Times(g.expiredApprovals, id) == Times(f.expiredApprovals, id) && Ascending(g.expiredApprovals)
      && Times(g.revokedLeases, id) == Times(f.revokedLeases, id) && Ascending(g.revokedLeases)
      && Times(g.timedOutRuns, id) == Times(f.timedOutRuns, id) && Ascending(g.timedOutRuns)
  {
    SortedTimes(f.failedLabs, id);
    SortedTimes(f.destroyedLabs, id);
    SortedTimes(f.failedDestroys, id);
    SortedTimes(f.orphans, id);
    SortedTimes(f.zombies, id);
    SortedTimes(f.expiredApprovals, id);
    SortedTimes(f.revokedLeases, id);
    SortedTimes(f.timedOutRuns, id);
  }

  // ---------- exactly which ids ----------

  lemma LastOrBefore(ids: seq<Id>, n: nat, id: Id)
    requires 0 < n <= |ids|
    ensures id in ids[..n] <==> id == ids[n - 1] || id in ids[..n - 1]
  {
    assert ids[..n] == ids[..n - 1] + [ids[n - 1]];
  }

  /** A list gathered from distinct rows names a row exactly once if the row lists itself, and never otherwise. */
  lemma {:induction false} TimesOfRow(rows: seq<Id>, list: map<Id, seq<Id>>, n: nat, id: Id)
    requires n <= |rows| && Distinct(rows)
    requires forall x :: x in list ==> list[x] == [] || list[x] == [x]
    ensures Times(Gather([], rows, list, n), id)
         == if id in rows[..n] && EntryOf(list, id) == [id] then 1 else 0
  {
    if n > 0 {
      var x := rows[n - 1];
      TimesOfRow(rows, list, n - 1, id);
      TimesConcat(Gather([], rows, list, n - 1), EntryOf(list, x), id);
      TimesOfOne(x, id);
      LastOrBefore(rows, n, id);
    }
  }

  lemma GatheredOnce(rows: seq<Id>, list: map<Id, seq<Id>>, id: Id)
    requires Distinct(rows)
    requires forall x :: x in list ==> list[x] == [] || list[x] == [x]
    ensures Times(GatherAll([], rows, list), id) == if id in rows && EntryOf(list, id) == [id] then 1 else 0
  {
    TimesOfRow(rows, list, |rows|, id);
    assert rows[..|rows|] == rows;
  }

  lemma FaultyEntry(s: Tables, w: World, l: Id)
    ensures EntryOf(ScanList(s, w), l) == [l] <==>
      l in s.labs && !s.labs[l].state.Destroyed? && (l !in s.storage || s.storage[l].root !in w.existing)
  {
  }

  lemma FaultyExactly(s: Tables, w: World, l: Id)
    ensures Times(FoundFaulty([], s, w), l)
         == if l in s.labs && !s.labs[l].state.Destroyed?
               && (l !in s.storage || s.storage[l].root !in w.existing) then 1 else 0
  {
    AllLabsRows(s.labs);
    FaultyEntry(s, w, l);
    GatheredOnce(AllLabs(s.labs), ScanList(s, w), l);
  }

  /**
   * A lab is reported failed once exactly when the retries left it short of DESTROYED and its storage row or its
   * root is missing, and never otherwise.
   */
  lemma FailedExactly(s: Tables, now: Time, w: World, max: int, l: Id)
    ensures Times(Reported(s, now, w, max).failedLabs, l)
         == if l in s.labs && !RetriedLab(s, now, w, max, l).state.Destroyed?
               && (l !in s.storage || s.storage[l].root !in w.existing) then 1 else 0
  {
    var retried := Retry(Sweep(s, now), w, max);
    RetriedLabs(s, now, w, max);
    FaultyExactly(retried, w, l);
    SortedTimes(FoundFaulty([], retried, w), l);
  }

  /** The labs being destroyed that a pass moves to the given state. */
  lemma RetryListExactly(s: Tables, w: World, max: int, state: LabState, l: Id)
    ensures Times(RetryList([], s, w, max, state), l)
         == if w.destroyer.Some? && l in s.labs && s.labs[l].state.Destroying?
               && Retried(s, w.destroyer.value, max, l).state == state then 1 else 0
  {
    if w.destroyer.Some? {
      DestroyingQueryRows(s.labs);
      GatheredOnce(DestroyingQuery(s.labs), RetriedTo(s, w.destroyer.value, max, state), l);
    }
  }

  lemma DestroyListExactly(s: Tables, swept: Tables, now: Time, w: World, max: int, l: Id)
    requires swept.labs == ExpireLabs(s, StaleIds(s.approvals, now)) && swept.storage == s.storage
    ensures Times(RetryList([], swept, w, max, LabState.Destroyed), l)
         == if w.destroyer.Some? && l in s.labs && s.labs[l].state.Destroying?
               && l in s.storage && l !in w.destroyer.value then 1 else 0
  {
    RetryListExactly(swept, w, max, LabState.Destroyed, l);
    if l in s.labs { assert swept.labs[l] == SweptLab(s, now, l); }
  }

  /** A lab is reported destroyed once exactly when it was being destroyed and this pass's retry succeeded. */
  lemma DestroyedExactly(s: Tables, now: Time, w: World, max: int, l: Id)
    ensures Times(Reported(s, now, w, max).destroyedLabs, l)
         == if w.destroyer.Some? && l in s.labs && s.labs[l].state.Destroying?
               && l in s.storage && l !in w.destroyer.value then 1 else 0
  {
    SweepRows(s, now);
    DestroyListExactly(s, Sweep(s, now), now, w, max, l);
    SortedTimes(RetryList([], Sweep(s, now), w, max, LabState.Destroyed), l);
  }

  lemma FailedListExactly(s: Tables, swept: Tables, now: Time, w: World, max: int, l: Id)
    requires swept.labs == ExpireLabs(s, StaleIds(s.approvals, now)) && swept.storage == s.storage
    ensures Times(RetryList([], swept, w, max, LabState.Failed), l)
         == if w.destroyer.Some? && l in s.labs && s.labs[l].state.Destroying?
               && (l !in s.storage || (l in w.destroyer.value && s.labs[l].destroyAttempts + 1 >= max)) then 1 else 0
  {
    RetryListExactly(swept, w, max, LabState.Failed, l);
    if l in s.labs { assert swept.labs[l] == SweptLab(s, now, l); }
  }

  /**
   * A lab is reported as a failed destroy once exactly when it was being destroyed and either its storage row is
   * missing or this pass's retry failed and was the last one allowed.
   */
  lemma FailedDestroysExactly(s: Tables, now: Time, w: World, max: int, l: Id)
    ensures Times(Reported(s, now, w, max).failedDestroys, l)
         == if w.destroyer.Some? && l in s.labs && s.labs[l].state.Destroying?
               && (l !in s.storage || (l in w.destroyer.value && s.labs[l].destroyAttempts + 1 >= max)) then 1 else 0
  {
    SweepRows(s, now);
    FailedListExactly(s, Sweep(s, now), now, w, max, l);
    SortedTimes(RetryList([], Sweep(s, now), w, max, LabState.Failed), l);
  }

  lemma TimesMember(xs: seq<Id>, id: Id)
    ensures id in xs <==> Times(xs, id) > 0
  {
    TimesIsMultiplicity(xs, id, |xs|);
    assert xs[..|xs|] == xs;
    assert id in xs <==> id in multiset(xs);
  }

  /** No lab is reported both failed and destroyed by one pass. */
  lemma FailedAndDestroyedDisjoint(s: Tables, now: Time, w: World, max: int, l: Id)
    requires l in Reported(s, now, w, max).destroyedLabs
    ensures l !in Reported(s, now, w, max).failedLabs
  {
    var f := Reported(s, now, w, max);
    DestroyedExactly(s, now, w, max, l);
    FailedExactly(s, now, w, max, l);
    TimesMember(f.destroyedLabs, l);
    TimesMember(f.failedLabs, l);
  }

  lemma SortedMember(xs: seq<Id>, id: Id)
    ensures id in Sorted(xs) <==> id in xs
  {
    SortedSorts(xs);
    assert id in xs <==> id in multiset(xs);
    assert id in Sorted(xs) <==> id in multiset(Sorted(xs));
  }

  /** The inventory shows an active container for this lab. */
  predicate HasActive(w: World, l: Id) {
    exists i :: 0 <= i < |Inspected(w)| && Inspected(w)[i].lab == l && ActiveStatus(Inspected(w)[i].status)
  }

  /** A lab is reported as a zombie exactly when it has an active container in the state this pass leaves it in. */
  lemma ZombiesExactly(s: Tables, now: Time, w: World, max: int, l: Id)
    ensures var t := Reconcile(s, now, w, max);
      l in Reported(s, now, w, max).zombies
      <==> l in t.labs && !MayHaveContainer(t.labs[l].state) && HasActive(w, l)
  {
    var retried := Retry(Sweep(s, now), w, max);
    var labs, rows := ScanLabs(retried, w), Inspected(w);
    assert Reconcile(s, now, w, max).labs == labs;
    SortedMember(FoundZombies([], labs, w), l);
    GatherMember(rows, ZombieList(labs, rows), |rows|, l);
    ZombieEntries(labs, w, l);
  }

  lemma ZombieEntries(labs: map<Id, Lab>, w: World, l: Id)
    ensures var rows := Inspected(w);
      (exists i :: 0 <= i < |rows| && l in EntryOf(ZombieList(labs, rows), rows[i]))
      <==> l in labs && !MayHaveContainer(labs[l].state) && HasActive(w, l)
  {
    var rows := Inspected(w);
    forall i | 0 <= i < |rows|
      ensures l in EntryOf(ZombieList(labs, rows), rows[i]) <==> rows[i].lab == l && Zombie(labs, rows[i])
    {
      assert rows[i] in rows;
    }
  }

  /** How many of the first `n` containers found are of this lab. */
  function Containers(found: seq<Inspection>, l: Id, n: nat): nat
    requires n <= |found|
  {
    if n == 0 then 0 else Containers(found, l, n - 1) + (if found[n - 1].lab == l then 1 else 0)
  }

  lemma {:induction false} OrphanTimes(labs: map<Id, Lab>, found: seq<Inspection>, l: Id, n: nat)
    requires n <= |found|
    ensures Times(Gather([], found, OrphanList(labs, found), n), l)
         == if l in labs then 0 else Containers(found, l, n)
  {
    if n > 0 {
      var i, list := found[n - 1], OrphanList(labs, found);
      OrphanTimes(labs, found, l, n - 1);
      assert i in found;
      TimesConcat(Gather([], found, list, n - 1), EntryOf(list, i), l);
      TimesOfOne(i.lab, l);
    }
  }

  /** An id is reported as an orphan once for each container found of it, exactly when there is no such lab. */
  lemma OrphansExactly(s: Tables, now: Time, w: World, max: int, l: Id)
    ensures Times(Reported(s, now, w, max).orphans, l)
         == if l in s.labs then 0 else Containers(Inspected(w), l, |Inspected(w)|)
  {
    var retried := Retry(Sweep(s, now), w, max);
    RetriedLabs(s, now, w, max);
    OrphanTimes(ScanLabs(retried, w), Inspected(w), l, |Inspected(w)|);
    SortedTimes(FoundOrphans([], ScanLabs(retried, w), w), l);
  }

  /** So a lab this pass fails or destroys while its container still runs is reported by the same pass. */
  lemma EndedWithContainerIsZombie(s: Tables, now: Time, w: World, max: int, l: Id)
    requires var t := Reconcile(s, now, w, max);
      l in t.labs && (t.labs[l].state.Failed? || t.labs[l].state.Destroyed?) && HasActive(w, l)
    ensures l in Reported(s, now, w, max).zombies
  {
    ZombiesExactly(s, now, w, max, l);
  }
}
