/** What one reconciliation pass does to the tables, phase by phase, and what it reports. */
module Reconciler {
  import opened Basics
  import opened Schema
  import opened Governance

  datatype RuntimeStatus = Created | Restarting | Running | Paused | Exited | Removing | Dead | Unknown

  datatype Inspection = Inspection(lab: Id, status: RuntimeStatus)

  /**
   * What a pass meets outside the database: the storage destroyer if one is configured (with the error it
   * raises for each lab it fails on), the roots that exist once destroying is over, the runtime inventory.
   */
  datatype World = World(
    destroyer: Option<map<Id, string>>,
    existing: set<Path>,
    inventory: Option<seq<Inspection>>)

  // ---------- approvals ----------

  predicate Stale(a: Approval, now: Time) { a.state.Requested? && Overdue(a, now) }

  function ApprovalRank(approvals: map<Id, Approval>): map<Id, Rank> {
    map x | x in approvals :: Rank(approvals[x].createdAt, 0)
  }

  function PendingQuery(approvals: map<Id, Approval>): seq<Id> {
    OrderBy((set a | a in approvals && approvals[a].state.Requested? && approvals[a].expiresAt.Some?),
            ApprovalRank(approvals))
  }

  lemma PendingQueryRows(approvals: map<Id, Approval>)
    ensures forall a :: a in PendingQuery(approvals) <==>
      a in approvals && approvals[a].state.Requested? && approvals[a].expiresAt.Some?
    ensures Distinct(PendingQuery(approvals))
  {
    var ids := set a | a in approvals && approvals[a].state.Requested? && approvals[a].expiresAt.Some?;
    OrderByMembers(ids, ApprovalRank(approvals));
    OrderByInOrder(ids, ApprovalRank(approvals));
    InOrderDistinct(OrderBy(ids, ApprovalRank(approvals)), ApprovalRank(approvals));
  }

  function StaleIds(approvals: map<Id, Approval>, now: Time): set<Id> {
    set a | a in approvals && Stale(approvals[a], now)
  }

  predicate Targets(approvals: map<Id, Approval>, a: Id, kind: ResourceType, r: Id) {
    a in approvals && approvals[a].resourceType == kind && approvals[a].resource == r
  }

  /** Some approval among `ids` is about this resource. */
  predicate Targeted(approvals: map<Id, Approval>, ids: set<Id>, kind: ResourceType, r: Id) {
    exists a :: a in ids && Targets(approvals, a, kind, r)
  }

  function ExpiredApproval(a: Approval, now: Time): Approval {
    a.(state := ApprovalState.Expired, approved := false, decidedBy := Some("reconciler"), decidedAt := Some(now))
  }

  function ExpiredLab(l: Lab): Lab { if l.state.PendingApproval? then l.(state := LabState.Failed) else l }

  function ExpiredExport(e: Export): Export {
    e.(state := ExportState.Rejected, denialReason := Some("approval request expired"), approvalRequired := false)
  }

  function ExpireApprovals(approvals: map<Id, Approval>, ids: set<Id>, now: Time): map<Id, Approval> {
    map a | a in approvals :: if a in ids then ExpiredApproval(approvals[a], now) else approvals[a]
  }

  function ExpireLabs(s: Tables, ids: set<Id>): map<Id, Lab> {
    map l | l in s.labs :: if Targeted(s.approvals, ids, LabResource, l) then ExpiredLab(s.labs[l]) else s.labs[l]
  }

  function ExpireExports(s: Tables, ids: set<Id>): map<Id, Export> {
    map e | e in s.exports ::
      if Targeted(s.approvals, ids, ExportResource, e) then ExpiredExport(s.exports[e]) else s.exports[e]
  }

  function ExpiryEvents(row: Approval, a: Id, now: Time): seq<Event> {
    if Stale(row, now) then [Event(ApprovalExpired, a, row.lab, Plain)] else []
  }

  function ExpiryLog(approvals: map<Id, Approval>, now: Time): map<Id, seq<Event>> {
    map a | a in approvals :: ExpiryEvents(approvals[a], a, now)
  }

  function ExpiryList(approvals: map<Id, Approval>, now: Time): map<Id, seq<Id>> {
    map a | a in approvals :: if Stale(approvals[a], now) then [a] else []
  }

  function Expire(s: Tables, now: Time): Tables {
    var ids := StaleIds(s.approvals, now);
    s.(approvals := ExpireApprovals(s.approvals, ids, now),
       labs := ExpireLabs(s, ids),
       exports := ExpireExports(s, ids),
       events := GatherAll(s.events, PendingQuery(s.approvals), ExpiryLog(s.approvals, now)))
  }

  lemma NothingExpires(s: Tables, now: Time)
    ensures ExpireApprovals(s.approvals, {}, now) == s.approvals
    ensures ExpireLabs(s, {}) == s.labs && ExpireExports(s, {}) == s.exports
  {
  }

  // ---------- leases ----------

  predicate LeaseDue(l: Lease, now: Time) { l.revokedAt.None? && l.expiresAt <= now }

  function LeaseRank(leases: map<Id, Lease>): map<Id, Rank> {
    map x | x in leases :: Rank(leases[x].createdAt, 0)
  }

  function OpenLeaseQuery(leases: map<Id, Lease>): seq<Id> {
    OrderBy((set l | l in leases && leases[l].revokedAt.None?), LeaseRank(leases))
  }

  lemma OpenLeaseQueryRows(leases: map<Id, Lease>)
    ensures forall l :: l in OpenLeaseQuery(leases) <==> l in leases && leases[l].revokedAt.None?
    ensures Distinct(OpenLeaseQuery(leases))
  {
    var ids := set l | l in leases && leases[l].revokedAt.None?;
    OrderByMembers(ids, LeaseRank(leases));
    OrderByInOrder(ids, LeaseRank(leases));
    InOrderDistinct(OrderBy(ids, LeaseRank(leases)), LeaseRank(leases));
  }

  function LeaseEvents(row: Lease, l: Id, now: Time): seq<Event> {
    if LeaseDue(row, now) then [Event(LeaseExpired, l, Some(row.lab), Plain)] else []
  }

  function LeaseLog(leases: map<Id, Lease>, now: Time): map<Id, seq<Event>> {
    map l | l in leases :: LeaseEvents(leases[l], l, now)
  }

  function LeaseList(leases: map<Id, Lease>, now: Time): map<Id, seq<Id>> {
    map l | l in leases :: if LeaseDue(leases[l], now) then [l] else []
  }

  function EndLease(l: Lease, now: Time): Lease { if LeaseDue(l, now) then l.(revokedAt := Some(now)) else l }

  function EndLeases(leases: map<Id, Lease>, now: Time): map<Id, Lease> {
    map l | l in leases :: EndLease(leases[l], now)
  }

  function RevokeDue(s: Tables, now: Time): Tables {
    s.(leases := EndLeases(s.leases, now),
       events := GatherAll(s.events, OpenLeaseQuery(s.leases), LeaseLog(s.leases, now)))
  }

  // ---------- runs ----------

  predicate Active(r: Run) { r.state.Queued? || r.state.Starting? || r.state.Running? }

  predicate RunDue(r: Run, now: Time) { Active(r) && r.timeoutAt.Some? && r.timeoutAt.value <= now }

  function RunRank(runs: map<Id, Run>): map<Id, Rank> {
    map x | x in runs :: Rank(runs[x].createdAt, 0)
  }

  function ActiveRunQuery(runs: map<Id, Run>): seq<Id> {
    OrderBy((set r | r in runs && Active(runs[r]) && runs[r].timeoutAt.Some?), RunRank(runs))
  }

  lemma ActiveRunQueryRows(runs: map<Id, Run>)
    ensures forall r :: r in ActiveRunQuery(runs) <==> r in runs && Active(runs[r]) && runs[r].timeoutAt.Some?
    ensures Distinct(ActiveRunQuery(runs))
  {
    var ids := set r | r in runs && Active(runs[r]) && runs[r].timeoutAt.Some?;
    OrderByMembers(ids, RunRank(runs));
    OrderByInOrder(ids, RunRank(runs));
    InOrderDistinct(OrderBy(ids, RunRank(runs)), RunRank(runs));
  }

  function RunEvents(row: Run, r: Id, now: Time): seq<Event> {
    if RunDue(row, now) then [Event(RunTimedOut, r, Some(row.lab), Plain)] else []
  }

  function RunLog(runs: map<Id, Run>, now: Time): map<Id, seq<Event>> {
    map r | r in runs :: RunEvents(runs[r], r, now)
  }

  function RunList(runs: map<Id, Run>, now: Time): map<Id, seq<Id>> {
    map r | r in runs :: if RunDue(runs[r], now) then [r] else []
  }

  function EndRun(r: Run, now: Time): Run {
    if RunDue(r, now) then r.(state := RunState.TimedOut, finishedAt := Some(now)) else r
  }

  function EndRuns(runs: map<Id, Run>, now: Time): map<Id, Run> {
    map r | r in runs :: EndRun(runs[r], now)
  }

  function TimeOut(s: Tables, now: Time): Tables {
    s.(runs := EndRuns(s.runs, now),
       events := GatherAll(s.events, ActiveRunQuery(s.runs), RunLog(s.runs, now)))
  }

  // ---------- destroy retries ----------

  function LabRank(labs: map<Id, Lab>): map<Id, Rank> {
    map x | x in labs :: Rank(labs[x].createdAt, 0)
  }

  function DestroyingQuery(labs: map<Id, Lab>): seq<Id> {
    OrderBy((set l | l in labs && labs[l].state.Destroying?), LabRank(labs))
  }

  lemma DestroyingQueryRows(labs: map<Id, Lab>)
    ensures forall l :: l in DestroyingQuery(labs) <==> l in labs && labs[l].state.Destroying?
    ensures Distinct(DestroyingQuery(labs))
  {
    var ids := set l | l in labs && labs[l].state.Destroying?;
    OrderByMembers(ids, LabRank(labs));
    OrderByInOrder(ids, LabRank(labs));
    InOrderDistinct(OrderBy(ids, LabRank(labs)), LabRank(labs));
  }

  /** One retry of a lab that is being destroyed. `failure` is what the destroyer raises, if it does. */
  function RetryLab(l: Lab, recorded: bool, failure: Option<string>, max: int): Lab {
    if !l.state.Destroying? then l
    else if !recorded then l.(state := LabState.Failed, lastDestroyError := Some("missing_storage_record"))
    else
      var tried := l.(destroyAttempts := l.destroyAttempts + 1);
      match failure
      case None => tried.(state := LabState.Destroyed, lastDestroyError := None)
      case Some(why) =>
        tried.(lastDestroyError := failure,
               state := if tried.destroyAttempts >= max then LabState.Failed else LabState.Destroying)
  }

  function Failure(failures: map<Id, string>, l: Id): Option<string> {
    if l in failures then Some(failures[l]) else None
  }

  function Retried(s: Tables, failures: map<Id, string>, max: int, l: Id): Lab
    requires l in s.labs
  {
    RetryLab(s.labs[l], l in s.storage, Failure(failures, l), max)
  }

  /** What retrying a destroying lab logs: `after` is the lab's row once it was tried. */
  function RetryEvents(after: Lab, recorded: bool, failure: Option<string>, l: Id): seq<Event> {
    var n := Attempt(after.destroyAttempts);
    if !recorded then [Event(LabDestroyFailed, l, Some(l), n)]
    else if failure.None? then [Event(LabDestroyed, l, Some(l), n)]
    else
      [Event(LabDestroyRetryFailed, l, Some(l), n)]
      + (if after.state.Failed? then [Event(LabDestroyFailed, l, Some(l), n)] else [])
  }

  function RetryLog(s: Tables, failures: map<Id, string>, max: int): map<Id, seq<Event>> {
    map l | l in s.labs && s.labs[l].state.Destroying? ::
      RetryEvents(Retried(s, failures, max, l), l in s.storage, Failure(failures, l), l)
  }

  /** The destroying labs that this retry moves to `state`. */
  function RetriedTo(s: Tables, failures: map<Id, string>, max: int, state: LabState): map<Id, seq<Id>> {
    map l | l in s.labs && s.labs[l].state.Destroying? ::
      if Retried(s, failures, max, l).state == state then [l] else []
  }

  function RetryLabs(s: Tables, failures: map<Id, string>, max: int): map<Id, Lab> {
    map l | l in s.labs :: Retried(s, failures, max, l)
  }

  /** `before`, and the labs this retry phase moves to `state`. */
  function RetryList(before: seq<Id>, s: Tables, w: World, max: int, state: LabState): seq<Id> {
    if w.destroyer.None? then before
    else GatherAll(before, DestroyingQuery(s.labs), RetriedTo(s, w.destroyer.value, max, state))
  }

  function Retry(s: Tables, w: World, max: int): Tables {
    if w.destroyer.None? then s
    else
      var failures := w.destroyer.value;
      s.(labs := RetryLabs(s, failures, max),
         events := GatherAll(s.events, DestroyingQuery(s.labs), RetryLog(s, failures, max)))
  }

  // ---------- storage scan ----------

  function FaultIn(storage: map<Id, Storage>, existing: set<Path>, l: Id): Option<Detail> {
    if l !in storage then Some(MissingStorageRecord)
    else if storage[l].root !in existing then Some(MissingStorageRoot)
    else None
  }

  function Fault(s: Tables, w: World, l: Id): Option<Detail> { FaultIn(s.storage, w.existing, l) }

  function ScanLab(l: Lab, fault: Option<Detail>): Lab {
    if l.state.Destroyed? || fault.None? then l else l.(state := LabState.Failed)
  }

  function AllLabs(labs: map<Id, Lab>): seq<Id> { OrderBy(labs.Keys, LabRank(labs)) }

  lemma AllLabsRows(labs: map<Id, Lab>)
    ensures forall l :: l in AllLabs(labs) <==> l in labs
    ensures Distinct(AllLabs(labs))
  {
    OrderByMembers(labs.Keys, LabRank(labs));
    OrderByInOrder(labs.Keys, LabRank(labs));
    InOrderDistinct(OrderBy(labs.Keys, LabRank(labs)), LabRank(labs));
  }

  /** The fault a scan reports about a lab in this state. */
  function Finding(l: Lab, fault: Option<Detail>): Option<Detail> { if l.state.Destroyed? then None else fault }

  function ScanEvents(row: Lab, fault: Option<Detail>, l: Id): seq<Event> {
    var f := Finding(row, fault);
    if f.Some? then [Event(LabReconciliationFailed, l, Some(l), f.value)] else []
  }

  predicate Faulty(s: Tables, w: World, l: Id) {
    l in s.labs && Finding(s.labs[l], Fault(s, w, l)).Some?
  }

  function ScanLog(s: Tables, w: World): map<Id, seq<Event>> {
    map l | l in s.labs :: ScanEvents(s.labs[l], Fault(s, w, l), l)
  }

  function ScanList(s: Tables, w: World): map<Id, seq<Id>> {
    map l | l in s.labs :: if Faulty(s, w, l) then [l] else []
  }

  function ScanLabs(s: Tables, w: World): map<Id, Lab> {
    map l | l in s.labs :: ScanLab(s.labs[l], Fault(s, w, l))
  }

  function Scan(s: Tables, w: World): Tables {
    s.(labs := ScanLabs(s, w),
       events := GatherAll(s.events, AllLabs(s.labs), ScanLog(s, w)))
  }

  // ---------- runtime inventory ----------

  predicate ActiveStatus(st: RuntimeStatus) { st.Created? || st.Restarting? || st.Running? || st.Paused? }

  predicate MayHaveContainer(st: LabState) { st.Provisioning? || st.Running? || st.Stopped? || st.Destroying? }

  predicate IsZombie(st: LabState, status: RuntimeStatus) { ActiveStatus(status) && !MayHaveContainer(st) }

  predicate Orphan(labs: map<Id, Lab>, i: Inspection) { i.lab !in labs }

  predicate Zombie(labs: map<Id, Lab>, i: Inspection) { i.lab in labs && IsZombie(labs[i.lab].state, i.status) }

  function InventoryEvents(labs: map<Id, Lab>, i: Inspection): seq<Event> {
    if Orphan(labs, i) then [Event(OrphanDetected, i.lab, None, Plain)]
    else if Zombie(labs, i) then [Event(ZombieDetected, i.lab, Some(i.lab), Plain)]
    else []
  }

  function InventoryLog(labs: map<Id, Lab>, found: seq<Inspection>): map<Inspection, seq<Event>> {
    map i | i in found :: InventoryEvents(labs, i)
  }

  function OrphanList(labs: map<Id, Lab>, found: seq<Inspection>): map<Inspection, seq<Id>> {
    map i | i in found :: if Orphan(labs, i) then [i.lab] else []
  }

  function ZombieList(labs: map<Id, Lab>, found: seq<Inspection>): map<Inspection, seq<Id>> {
    map i | i in found :: if Zombie(labs, i) then [i.lab] else []
  }

  function Inspected(w: World): seq<Inspection> { if w.inventory.Some? then w.inventory.value else [] }

  function Inspect(s: Tables, w: World): Tables {
    s.(events := GatherAll(s.events, Inspected(w), InventoryLog(s.labs, Inspected(w))))
  }

  // ---------- the pass ----------

  /** Everything before the retry phase. */
  function Sweep(s: Tables, now: Time): Tables { TimeOut(RevokeDue(Expire(s, now), now), now) }

  function Reconcile(s: Tables, now: Time, w: World, max: int): Tables {
    Inspect(Scan(Retry(Sweep(s, now), w, max), w), w)
  }

  datatype Findings = Findings(
    failedLabs: seq<Id>,
    destroyedLabs: seq<Id>,
    failedDestroys: seq<Id>,
    orphans: seq<Id>,
    zombies: seq<Id>,
    expiredApprovals: seq<Id>,
    revokedLeases: seq<Id>,
    timedOutRuns: seq<Id>)

  const NOTHING_FOUND := Findings([], [], [], [], [], [], [], [])

  function FoundStale(before: seq<Id>, s: Tables, now: Time): seq<Id> {
    GatherAll(before, PendingQuery(s.approvals), ExpiryList(s.approvals, now))
  }

  function FoundLeases(before: seq<Id>, s: Tables, now: Time): seq<Id> {
    GatherAll(before, OpenLeaseQuery(s.leases), LeaseList(s.leases, now))
  }

  function FoundRuns(before: seq<Id>, s: Tables, now: Time): seq<Id> {
    GatherAll(before, ActiveRunQuery(s.runs), RunList(s.runs, now))
  }

  function FoundFaulty(before: seq<Id>, s: Tables, w: World): seq<Id> {
    GatherAll(before, AllLabs(s.labs), ScanList(s, w))
  }

  function FoundOrphans(before: seq<Id>, labs: map<Id, Lab>, w: World): seq<Id> {
    GatherAll(before, Inspected(w), OrphanList(labs, Inspected(w)))
  }

  function FoundZombies(before: seq<Id>, labs: map<Id, Lab>, w: World): seq<Id> {
    GatherAll(before, Inspected(w), ZombieList(labs, Inspected(w)))
  }

  /** The report lists in the order the phases append to them. */
  function Found(s: Tables, now: Time, w: World, max: int): Findings {
    var swept := Sweep(s, now);
    var retried := Retry(swept, w, max);
    var labs := ScanLabs(retried, w);
    Findings(
      FoundFaulty([], retried, w),
      RetryList([], swept, w, max, LabState.Destroyed),
      RetryList([], swept, w, max, LabState.Failed),
      FoundOrphans([], labs, w),
      FoundZombies([], labs, w),
      FoundStale([], s, now),
      FoundLeases([], s, now),
      FoundRuns([], s, now))
  }

  function SortFindings(f: Findings): Findings {
    Findings(Sorted(f.failedLabs), Sorted(f.destroyedLabs), Sorted(f.failedDestroys), Sorted(f.orphans),
             Sorted(f.zombies), Sorted(f.expiredApprovals), Sorted(f.revokedLeases), Sorted(f.timedOutRuns))
  }
}
