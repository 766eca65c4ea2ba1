/** What one reconciliation pass leaves in every row and reports of it, told in the rows' own columns. */
module PassLaws {
  import opened Basics
  import opened Schema
  import opened Reconciler
  import opened ReconcilerLaws
  import opened ReportLaws

  // ---------- approvals, exports, leases, runs ----------

  /** Waiting for a decision that can no longer be given at `now`. */
  predicate Lapsed(a: Approval, now: Time) {
    a.state == ApprovalState.Requested && a.expiresAt != None && a.expiresAt.value <= now
  }

  /** Some lapsed request is about this row. */
  ghost predicate LapsedAbout(s: Tables, kind: ResourceType, r: Id, now: Time) {
    exists a :: a in s.approvals && s.approvals[a].resourceType == kind && s.approvals[a].resource == r
                && Lapsed(s.approvals[a], now)
  }

  lemma LapsedIsTargeted(s: Tables, kind: ResourceType, r: Id, now: Time)
    ensures LapsedAbout(s, kind, r, now) <==> Targeted(s.approvals, StaleIds(s.approvals, now), kind, r)
  {
    if Targeted(s.approvals, StaleIds(s.approvals, now), kind, r) {
      var a :| a in StaleIds(s.approvals, now) && Targets(s.approvals, a, kind, r);
      assert Lapsed(s.approvals[a], now);
    }
    if LapsedAbout(s, kind, r, now) {
      var a :| a in s.approvals && s.approvals[a].resourceType == kind && s.approvals[a].resource == r
               && Lapsed(s.approvals[a], now);
      assert Targets(s.approvals, a, kind, r);
    }
  }

  /** A pass expires a request exactly when its expiry has come, and leaves every other approval as it is. */
  lemma ApprovalAfterPass(s: Tables, now: Time, w: World, max: int, a: Id)
    ensures var t := Reconcile(s, now, w, max);
      && (a in t.approvals <==> a in s.approvals)
      && (a in s.approvals ==>
            t.approvals[a] == if Lapsed(s.approvals[a], now) then
              s.approvals[a].(state := ApprovalState.Expired, approved := false, decidedBy := Some("reconciler"),
                              decidedAt := Some(now))
            else s.approvals[a])
  {
    PassRows(s, now, w, max);
  }

  /** A pass rejects an export, whatever its state, exactly when a request about it lapsed. */
  lemma ExportAfterPass(s: Tables, now: Time, w: World, max: int, e: Id)
    ensures var t := Reconcile(s, now, w, max);
      && (e in t.exports <==> e in s.exports)
      && (e in s.exports ==>
            t.exports[e] == if LapsedAbout(s, ExportResource, e, now) then
              s.exports[e].(state := ExportState.Rejected, denialReason := Some("approval request expired"),
                            approvalRequired := false)
            else s.exports[e])
  {
    PassRows(s, now, w, max);
    LapsedIsTargeted(s, ExportResource, e, now);
  }

  /** A pass ends a lease exactly when it was open and its expiry has come. */
  lemma LeaseAfterPass(s: Tables, now: Time, w: World, max: int, l: Id)
    ensures var t := Reconcile(s, now, w, max);
      && (l in t.leases <==> l in s.leases)
      && (l in s.leases ==>
            t.leases[l] == if s.leases[l].revokedAt == None && s.leases[l].expiresAt <= now then
              s.leases[l].(revokedAt := Some(now))
            else s.leases[l])
  {
    PassRows(s, now, w, max);
  }

  /** Not ended yet, and due to have ended by `now`. */
  predicate OverrunAt(r: Run, now: Time) {
    && (r.state == RunState.Queued || r.state == RunState.Starting || r.state == RunState.Running)
    && r.timeoutAt != None && r.timeoutAt.value <= now
  }

  /** A pass times out a queued, starting or running run exactly when its time is up, and leaves every other alone. */
  lemma RunAfterPass(s: Tables, now: Time, w: World, max: int, r: Id)
    ensures var t := Reconcile(s, now, w, max);
      && (r in t.runs <==> r in s.runs)
      && (r in s.runs ==>
            t.runs[r] == if OverrunAt(s.runs[r], now) then
              s.runs[r].(state := RunState.TimedOut, finishedAt := Some(now))
            else s.runs[r])
  {
    PassRows(s, now, w, max);
  }

  // ---------- labs ----------

  /** A lab whose files cannot be where they should be: no storage row, or no root directory. */
  predicate Homeless(s: Tables, w: World, l: Id) {
    l !in s.storage || s.storage[l].root !in w.existing
  }

  /** The pass asks its destroyer about this lab. */
  predicate Retrying(s: Tables, w: World, l: Id) {
    l in s.labs && s.labs[l].state == LabState.Destroying && w.destroyer != None
  }

  /** The destroyer is asked about this lab, finds its storage row, and does not raise. */
  predicate DestroyedNow(s: Tables, w: World, l: Id) {
    Retrying(s, w, l) && l in s.storage && l !in w.destroyer.value
  }

  /** The state a pass leaves a lab in. */
  ghost function StateAfterPass(s: Tables, now: Time, w: World, max: int, l: Id): LabState
    requires l in s.labs
  {
    var before := s.labs[l];
    if before.state == LabState.Destroyed || DestroyedNow(s, w, l) then LabState.Destroyed
    else if Homeless(s, w, l) then LabState.Failed
    else if Retrying(s, w, l) && before.destroyAttempts + 1 >= max then LabState.Failed
    else if before.state == LabState.PendingApproval && LapsedAbout(s, LabResource, l, now) then LabState.Failed
    else before.state
  }

  /**
   * What a pass makes of a lab: destroyed by a retry, failed for want of storage, of another attempt or of a decision,
   * or as it was; an attempt is counted exactly if the destroyer was called, and its error kept.
   */
  lemma LabAfterPass(s: Tables, now: Time, w: World, max: int, l: Id)
    ensures var t := Reconcile(s, now, w, max);
      && (l in t.labs <==> l in s.labs)
      && (l in s.labs ==> PassedLab(s, now, w, max, l, t.labs[l]))
  {
    PassLabs(s, now, w, max);
    if l in s.labs { ScannedIs(s, now, w, max, l); }
  }

  ghost predicate PassedLab(s: Tables, now: Time, w: World, max: int, l: Id, after: Lab)
    requires l in s.labs
  {
    after == s.labs[l].(
      state := StateAfterPass(s, now, w, max, l),
      destroyAttempts := s.labs[l].destroyAttempts + (if Retrying(s, w, l) && l in s.storage then 1 else 0),
      lastDestroyError :=
        if !Retrying(s, w, l) then s.labs[l].lastDestroyError
        else if l !in s.storage then Some("missing_storage_record")
        else if l in w.destroyer.value then Some(w.destroyer.value[l])
        else None)
  }

  lemma ScannedIs(s: Tables, now: Time, w: World, max: int, l: Id)
    requires l in s.labs
    ensures PassedLab(s, now, w, max, l, ScanLab(RetriedLab(s, now, w, max, l), FaultIn(s.storage, w.existing, l)))
  {
    RetriedIs(s, now, w, max, l);
    SweptIs(s, now, l);
    var x, y := s.labs[l], RetriedLab(s, now, w, max, l);
    assert FaultIn(s.storage, w.existing, l).Some? <==> Homeless(s, w, l);
    if !Retrying(s, w, l) {
      assert y == SweptLab(s, now, l);
    } else {
      assert SweptLab(s, now, l) == x;
    }
  }

  lemma SweptIs(s: Tables, now: Time, l: Id)
    requires l in s.labs
    ensures SweptLab(s, now, l)
         == if s.labs[l].state == LabState.PendingApproval && LapsedAbout(s, LabResource, l, now) then
              s.labs[l].(state := LabState.Failed)
            else s.labs[l]
  {
    LapsedIsTargeted(s, LabResource, l, now);
  }

  lemma RetriedIs(s: Tables, now: Time, w: World, max: int, l: Id)
    requires l in s.labs
    ensures var x, y := SweptLab(s, now, l), RetriedLab(s, now, w, max, l);
      && y.profile == x.profile && y.runtime == x.runtime && y.createdAt == x.createdAt
      && (!Retrying(s, w, l) ==> y == x)
      && (Retrying(s, w, l) ==>
            if l !in s.storage then
              y == x.(state := LabState.Failed, lastDestroyError := Some("missing_storage_record"))
            else if DestroyedNow(s, w, l) then
              y == x.(state := LabState.Destroyed, destroyAttempts := x.destroyAttempts + 1, lastDestroyError := None)
            else
              && y.destroyAttempts == x.destroyAttempts + 1 && y.lastDestroyError == Some(w.destroyer.value[l])
              && y.state == if x.destroyAttempts + 1 >= max then LabState.Failed else LabState.Destroying)
  {
    SweptIs(s, now, l);
  }

  // ---------- the report ----------

  lemma TimedOutListed(runs: map<Id, Run>, now: Time, r: Id)
    ensures Times(GatherAll([], ActiveRunQuery(runs), RunList(runs, now)), r)
         == if r in runs && OverrunAt(runs[r], now) then 1 else 0
  {
    ActiveRunQueryRows(runs);
    TimedOutEntry(runs, now, r);
    GatheredOnce(ActiveRunQuery(runs), RunList(runs, now), r);
  }

  lemma TimedOutEntry(runs: map<Id, Run>, now: Time, r: Id)
    ensures EntryOf(RunList(runs, now), r) == [r] <==> r in runs && OverrunAt(runs[r], now)
  {
  }

  /** `timed_out_run_ids` names exactly the runs whose time was up, once each. */
  lemma TimedOutExactly(s: Tables, now: Time, w: World, max: int, r: Id)
    ensures Times(Reported(s, now, w, max).timedOutRuns, r)
         == if r in s.runs && OverrunAt(s.runs[r], now) then 1 else 0
  {
    TimedOutListed(s.runs, now, r);
    SortedTimes(FoundRuns([], s, now), r);
  }

  lemma RevokedListed(leases: map<Id, Lease>, now: Time, l: Id)
    ensures Times(GatherAll([], OpenLeaseQuery(leases), LeaseList(leases, now)), l)
         == if l in leases && leases[l].revokedAt == None && leases[l].expiresAt <= now then 1 else 0
  {
    OpenLeaseQueryRows(leases);
    RevokedEntry(leases, now, l);
    GatheredOnce(OpenLeaseQuery(leases), LeaseList(leases, now), l);
  }

  lemma RevokedEntry(leases: map<Id, Lease>, now: Time, l: Id)
    ensures EntryOf(LeaseList(leases, now), l) == [l] <==>
      l in leases && leases[l].revokedAt == None && leases[l].expiresAt <= now
  {
  }

  /** The list of revoked leases names exactly the open leases whose expiry has come, once each. */
  lemma RevokedExactly(s: Tables, now: Time, w: World, max: int, l: Id)
    ensures Times(Reported(s, now, w, max).revokedLeases, l)
         == if l in s.leases && s.leases[l].revokedAt == None && s.leases[l].expiresAt <= now then 1 else 0
  {
    RevokedListed(s.leases, now, l);
    SortedTimes(FoundLeases([], s, now), l);
  }

  lemma ExpiredListed(approvals: map<Id, Approval>, now: Time, a: Id)
    ensures Times(GatherAll([], PendingQuery(approvals), ExpiryList(approvals, now)), a)
         == if a in approvals && Lapsed(approvals[a], now) then 1 else 0
  {
    PendingQueryRows(approvals);
    ExpiredEntry(approvals, now, a);
    GatheredOnce(PendingQuery(approvals), ExpiryList(approvals, now), a);
  }

  lemma ExpiredEntry(approvals: map<Id, Approval>, now: Time, a: Id)
    ensures EntryOf(ExpiryList(approvals, now), a) == [a] <==> a in approvals && Lapsed(approvals[a], now)
  {
  }

  /** The list of expired approvals names exactly the lapsed requests, once each. */
  lemma ExpiredExactly(s: Tables, now: Time, w: World, max: int, a: Id)
    ensures Times(Reported(s, now, w, max).expiredApprovals, a)
         == if a in s.approvals && Lapsed(s.approvals[a], now) then 1 else 0
  {
    ExpiredListed(s.approvals, now, a);
    SortedTimes(FoundStale([], s, now), a);
  }

  /** `failed_lab_ids` names exactly the labs without storage that are not destroyed, before the pass or by it. */
  lemma FaultsExactly(s: Tables, now: Time, w: World, max: int, l: Id)
    ensures Times(Reported(s, now, w, max).failedLabs, l)
         == if l in s.labs && s.labs[l].state != LabState.Destroyed && !DestroyedNow(s, w, l) && Homeless(s, w, l)
            then 1 else 0
  {
    FailedExactly(s, now, w, max, l);
    if l in s.labs {
      RetriedIs(s, now, w, max, l);
      SweptIs(s, now, l);
    }
  }

  /** A container that is up or may come up again. */
  predicate Alive(st: RuntimeStatus) {
    st == RuntimeStatus.Created || st == Restarting || st == RuntimeStatus.Running || st == Paused
  }

  /** How many of the first `n` containers found are live ones of this lab. */
  function LiveContainers(found: seq<Inspection>, l: Id, n: nat): nat
    requires n <= |found|
  {
    if n == 0 then 0
    else LiveContainers(found, l, n - 1) + (if found[n - 1].lab == l && Alive(found[n - 1].status) then 1 else 0)
  }

  lemma {:induction false} ZombieTimes(labs: map<Id, Lab>, found: seq<Inspection>, l: Id, n: nat)
    requires n <= |found|
    ensures Times(Gather([], found, ZombieList(labs, found), n), l)
         == if l in labs && !MayHaveContainer(labs[l].state) then LiveContainers(found, l, n) else 0
  {
    if n > 0 {
      var i, list := found[n - 1], ZombieList(labs, found);
      ZombieTimes(labs, found, l, n - 1);
      assert i in found;
      TimesConcat(Gather([], found, list, n - 1), EntryOf(list, i), l);
      TimesOfOne(i.lab, l);
    }
  }

  /** A lab is reported as a zombie once for each live container, exactly when it is in no state that has one. */
  lemma ZombiesCounted(s: Tables, now: Time, w: World, max: int, l: Id)
    ensures Times(Reported(s, now, w, max).zombies, l)
         == if l in s.labs && w.inventory != None
               && StateAfterPass(s, now, w, max, l) !in
                    {LabState.Provisioning, LabState.Running, LabState.Stopped, LabState.Destroying}
            then LiveContainers(w.inventory.value, l, |w.inventory.value|) else 0
  {
    ZombiesOf(s, now, w, max, l);
    StateReached(s, now, w, max, l);
    if w.inventory == None { assert Inspected(w) == []; }
  }

  lemma StateReached(s: Tables, now: Time, w: World, max: int, l: Id)
    ensures var labs := Reconcile(s, now, w, max).labs;
      && (l in labs <==> l in s.labs)
      && (l in s.labs ==>
            (MayHaveContainer(labs[l].state) <==>
               StateAfterPass(s, now, w, max, l) in
                 {LabState.Provisioning, LabState.Running, LabState.Stopped, LabState.Destroying}))
  {
    LabAfterPass(s, now, w, max, l);
  }

  lemma ZombiesOf(s: Tables, now: Time, w: World, max: int, l: Id)
    ensures var labs := Reconcile(s, now, w, max).labs;
      Times(Reported(s, now, w, max).zombies, l)
      == if l in labs && !MayHaveContainer(labs[l].state) then LiveContainers(Inspected(w), l, |Inspected(w)|) else 0
  {
    var labs := ScanLabs(Retry(Sweep(s, now), w, max), w);
    ZombieTimes(labs, Inspected(w), l, |Inspected(w)|);
    SortedTimes(FoundZombies([], labs, w), l);
  }

  // ---------- the events ----------

  /** What an event of a pass that leaves the labs `after` says about its row, by its kind. */
  predicate Tells(s: Tables, after: map<Id, Lab>, e: Event) {
    var x := e.resource;
    match e.kind
    case ApprovalExpired => x in s.approvals && e == Event(ApprovalExpired, x, s.approvals[x].lab, Plain)
    case LeaseExpired => x in s.leases && e == Event(LeaseExpired, x, Some(s.leases[x].lab), Plain)
    case RunTimedOut => x in s.runs && e == Event(RunTimedOut, x, Some(s.runs[x].lab), Plain)
    case LabReconciliationFailed =>
      && x in s.labs && e.lab == Some(x)
      && e.detail == if x in s.storage then MissingStorageRoot else MissingStorageRecord
    case OrphanDetected => x !in s.labs && e.lab == None && e.detail == Plain
    case ZombieDetected => x in s.labs && e.lab == Some(x) && e.detail == Plain
    case LabDestroyed => TellsAttempt(after, e)
    case LabDestroyRetryFailed => TellsAttempt(after, e)
    case LabDestroyFailed => TellsAttempt(after, e)
    case _ => false
  }

  predicate TellsAttempt(after: map<Id, Lab>, e: Event) {
    e.resource in after && e.lab == Some(e.resource) && e.detail == Attempt(after[e.resource].destroyAttempts)
  }

  /** Every event a pass logs names the lab of its row, and the attempt or the fault it is about. */
  lemma PassTells(s: Tables, now: Time, w: World, max: int, e: Event)
    requires e in PassLog(s, now, w, max)
    ensures Tells(s, Reconcile(s, now, w, max).labs, e)
  {
    RetriedLabs(s, now, w, max);
    PhasesTell(s, Sweep(s, now), Retry(Sweep(s, now), w, max), now, w, max, e);
  }

  lemma PhasesTell(s: Tables, swept: Tables, retried: Tables, now: Time, w: World, max: int, e: Event)
    requires retried == Retry(swept, w, max) && retried.labs.Keys == s.labs.Keys && retried.storage == s.storage
    requires e in StaleLog(s, now) + LeasesLog(s, now) + RunsLog(s, now)
                  + RetriesLog(swept, w, max) + FaultsLog(retried, w) + FoundLog(ScanLabs(retried, w), w)
    ensures Tells(s, ScanLabs(retried, w), e)
  {
    var after := ScanLabs(retried, w);
    if e in StaleLog(s, now) || e in LeasesLog(s, now) || e in RunsLog(s, now) {
      SweepTells(s, now, after, e);
    } else if e in RetriesLog(swept, w, max) {
      RetryTells(s, swept, w, max, after, e);
    } else if e in FaultsLog(retried, w) {
      FaultTells(s, retried, w, after, e);
    } else {
      FoundTells(s, after, w, e);
    }
  }

  lemma SweepTells(s: Tables, now: Time, after: map<Id, Lab>, e: Event)
    requires e in StaleLog(s, now) || e in LeasesLog(s, now) || e in RunsLog(s, now)
    ensures Tells(s, after, e)
  {
    if e in StaleLog(s, now) {
      var a := LoggedBy(PendingQuery(s.approvals), ExpiryLog(s.approvals, now), e);
    } else if e in LeasesLog(s, now) {
      var l := LoggedBy(OpenLeaseQuery(s.leases), LeaseLog(s.leases, now), e);
    } else {
      var r := LoggedBy(ActiveRunQuery(s.runs), RunLog(s.runs, now), e);
    }
  }

  lemma RetryTells(s: Tables, swept: Tables, w: World, max: int, after: map<Id, Lab>, e: Event)
    requires e in RetriesLog(swept, w, max) && after == ScanLabs(Retry(swept, w, max), w)
    ensures Tells(s, after, e)
  {
    var failures := w.destroyer.value;
    var l := LoggedBy(DestroyingQuery(swept.labs), RetryLog(swept, failures, max), e);
    RetryTellsAttempt(Retried(swept, failures, max, l), l in swept.storage, Failure(failures, l), l, e);
    assert after[l].destroyAttempts == Retried(swept, failures, max, l).destroyAttempts;
  }

  lemma RetryTellsAttempt(row: Lab, recorded: bool, failure: Option<string>, l: Id, e: Event)
    requires e in RetryEvents(row, recorded, failure, l)
    ensures e.kind in {LabDestroyed, LabDestroyRetryFailed, LabDestroyFailed}
    ensures e.resource == l && e.lab == Some(l) && e.detail == Attempt(row.destroyAttempts)
  {
  }

  lemma FaultTells(s: Tables, retried: Tables, w: World, after: map<Id, Lab>, e: Event)
    requires e in FaultsLog(retried, w) && retried.labs.Keys == s.labs.Keys && retried.storage == s.storage
    ensures Tells(s, after, e)
  {
    var l := LoggedBy(AllLabs(retried.labs), ScanLog(retried, w), e);
  }

  lemma FoundTells(s: Tables, after: map<Id, Lab>, w: World, e: Event)
    requires e in FoundLog(after, w) && after.Keys == s.labs.Keys
    ensures Tells(s, after, e)
  {
    var i := LoggedBy(Inspected(w), InventoryLog(after, Inspected(w)), e);
  }

  /** A gathered event was logged by one of the rows gone through. */
  lemma LoggedBy<T>(rows: seq<T>, log: map<T, seq<Event>>, e: Event) returns (x: T)
    requires e in GatherAll([], rows, log)
    ensures x in rows && x in log && e in log[x]
  {
    GatherMember(rows, log, |rows|, e);
    var i :| 0 <= i < |rows| && e in EntryOf(log, rows[i]);
    x := rows[i];
  }
}
