/** The reconciliation pass as it runs: one loop a phase over the query's rows, reporting and logging as it goes. */
module ReconcilerWorker {
  import opened Basics
  import opened Schema
  import opened Reconciler

  /** The report a pass fills in. */
  class Report {
    var lists: Findings

    constructor ()
      ensures lists == NOTHING_FOUND
    {
      lists := NOTHING_FOUND;
    }

    method Sort()
      modifies this
      ensures lists == SortFindings(old(lists))
    {
      lists := SortFindings(lists);
    }
  }

  // ---------- one more row ----------

  /** The stale approvals among the rows seen. */
  ghost function StaleAmong(seen: set<Id>, approvals: map<Id, Approval>, now: Time): set<Id> {
    set a | a in seen && a in approvals && Stale(approvals[a], now)
  }

  ghost function WithStale(expired: set<Id>, approvals: map<Id, Approval>, x: Id, now: Time): set<Id>
    requires x in approvals
  {
    if Stale(approvals[x], now) then expired + {x} else expired
  }

  lemma StaleOneMore(seen: set<Id>, approvals: map<Id, Approval>, x: Id, now: Time)
    requires x in approvals
    ensures StaleAmong(seen + {x}, approvals, now) == WithStale(StaleAmong(seen, approvals, now), approvals, x, now)
  {
  }

  lemma StaleAll(rows: seq<Id>, seen: set<Id>, approvals: map<Id, Approval>, now: Time)
    requires DoneUpTo(rows, |rows|, seen)
    requires forall a :: a in approvals && Stale(approvals[a], now) ==> a in rows
    ensures StaleAmong(seen, approvals, now) == StaleIds(approvals, now)
  {
  }

  lemma ExpireOneApproval(approvals: map<Id, Approval>, ids: set<Id>, x: Id, now: Time)
    requires x in approvals
    ensures ExpireApprovals(approvals, ids + {x}, now)
         == ExpireApprovals(approvals, ids, now)[x := ExpiredApproval(approvals[x], now)]
  {
  }

  lemma TargetedOneMore(approvals: map<Id, Approval>, ids: set<Id>, x: Id, kind: ResourceType, r: Id)
    ensures Targeted(approvals, ids + {x}, kind, r)
       <==> Targeted(approvals, ids, kind, r) || Targets(approvals, x, kind, r)
  {
    if Targeted(approvals, ids, kind, r) {
      var a :| a in ids && Targets(approvals, a, kind, r);
      assert a in ids + {x};
    }
    if Targets(approvals, x, kind, r) { assert x in ids + {x}; }
  }

  lemma ExpireOneLab(s: Tables, ids: set<Id>, x: Id)
    requires x in s.approvals
    ensures var a, labs := s.approvals[x], ExpireLabs(s, ids);
      ExpireLabs(s, ids + {x})
      == if a.resourceType.LabResource? && a.resource in labs
         then labs[a.resource := ExpiredLab(labs[a.resource])] else labs
  {
    forall l | l in s.labs {
      TargetedOneMore(s.approvals, ids, x, LabResource, l);
    }
  }

  lemma ExpireOneExport(s: Tables, ids: set<Id>, x: Id)
    requires x in s.approvals
    ensures var a, exports := s.approvals[x], ExpireExports(s, ids);
      ExpireExports(s, ids + {x})
      == if a.resourceType.ExportResource? && a.resource in exports
         then exports[a.resource := ExpiredExport(exports[a.resource])] else exports
  {
    forall e | e in s.exports {
      TargetedOneMore(s.approvals, ids, x, ExportResource, e);
    }
  }

  /** A table in which the rows `done` were mapped, and no others. */
  ghost function Overlay<Row>(before: map<Id, Row>, after: map<Id, Row>, done: set<Id>): map<Id, Row> {
    map x | x in before :: if x in done && x in after then after[x] else before[x]
  }

  /** The rows before position `i` are done, the others are not. */
  ghost predicate DoneUpTo(rows: seq<Id>, i: nat, done: set<Id>)
    requires i <= |rows|
  {
    && (forall k :: 0 <= k < i ==> rows[k] in done)
    && (forall k :: i <= k < |rows| ==> rows[k] !in done)
  }

  lemma DoneOneMore(rows: seq<Id>, i: nat, done: set<Id>)
    requires i < |rows| && DoneUpTo(rows, i, done) && Distinct(rows)
    ensures DoneUpTo(rows, i + 1, done + {rows[i]}) && rows[i] !in done
  {
  }

  lemma OverlayNone<Row>(before: map<Id, Row>, after: map<Id, Row>)
    ensures Overlay(before, after, {}) == before
  {
  }

  lemma OverlayOneMore<Row>(before: map<Id, Row>, after: map<Id, Row>, done: set<Id>, x: Id)
    requires x in before && x in after && x !in done
    ensures x in Overlay(before, after, done) && Overlay(before, after, done)[x] == before[x]
    ensures Overlay(before, after, done)[x := after[x]] == Overlay(before, after, done + {x})
  {
  }

  lemma OverlayAll<Row>(before: map<Id, Row>, after: map<Id, Row>, rows: seq<Id>, done: set<Id>)
    requires before.Keys == after.Keys && DoneUpTo(rows, |rows|, done)
    requires forall x :: x in before && x !in rows ==> after[x] == before[x]
    ensures Overlay(before, after, done) == after
  {
  }

  /** The expiry's next row is a pending approval not seen before. */
  lemma ExpiryReaches(s: Tables, approvals: seq<Id>, i: nat, seen: set<Id>, now: Time)
    requires approvals == PendingQuery(s.approvals) && i < |approvals| && DoneUpTo(approvals, i, seen)
    ensures var x, expired := approvals[i], StaleAmong(seen, s.approvals, now);
      && x in s.approvals && s.approvals[x].state.Requested? && x !in seen && x !in expired
      && DoneUpTo(approvals, i + 1, seen + {x})
      && StaleAmong(seen + {x}, s.approvals, now) == WithStale(expired, s.approvals, x, now)
  {
    PendingQueryRows(s.approvals);
    assert approvals[i] in approvals;
    DoneOneMore(approvals, i, seen);
    StaleOneMore(seen, s.approvals, approvals[i], now);
  }

  lemma ExpiredAll(s: Tables, approvals: seq<Id>, seen: set<Id>, now: Time)
    requires approvals == PendingQuery(s.approvals) && DoneUpTo(approvals, |approvals|, seen)
    ensures StaleAmong(seen, s.approvals, now) == StaleIds(s.approvals, now)
  {
    PendingQueryRows(s.approvals);
    StaleAll(approvals, seen, s.approvals, now);
  }

  // ---------- what one row contributes ----------

  lemma ExpiryRow(approvals: map<Id, Approval>, id: Id, now: Time)
    requires id in approvals
    ensures EntryOf(ExpiryLog(approvals, now), id) == ExpiryEvents(approvals[id], id, now)
    ensures EntryOf(ExpiryList(approvals, now), id) == if Stale(approvals[id], now) then [id] else []
  {
  }

  lemma RetryEntries(s: Tables, failures: map<Id, string>, max: int, id: Id)
    requires id in s.labs && s.labs[id].state.Destroying?
    ensures RetryLabs(s, failures, max)[id]
         == RetryLab(s.labs[id], id in s.storage, Failure(failures, id), max)
    ensures EntryOf(RetryLog(s, failures, max), id)
         == RetryEvents(RetryLabs(s, failures, max)[id], id in s.storage, Failure(failures, id), id)
    ensures EntryOf(RetriedTo(s, failures, max, LabState.Destroyed), id)
         == if RetryLabs(s, failures, max)[id].state.Destroyed? then [id] else []
    ensures EntryOf(RetriedTo(s, failures, max, LabState.Failed), id)
         == if RetryLabs(s, failures, max)[id].state.Failed? then [id] else []
  {
  }

  /** Labs that are not being destroyed are what the retry leaves alone. */
  lemma RetriedAll(s: Tables, failures: map<Id, string>, max: int, rows: seq<Id>, done: set<Id>)
    requires DoneUpTo(rows, |rows|, done)
    requires forall l :: l in s.labs && s.labs[l].state.Destroying? ==> l in rows
    ensures Overlay(s.labs, RetryLabs(s, failures, max), done) == RetryLabs(s, failures, max)
  {
    OverlayAll(s.labs, RetryLabs(s, failures, max), rows, done);
  }

  lemma ScanRow(s: Tables, w: World, id: Id)
    requires id in s.labs
    ensures ScanLabs(s, w)[id] == ScanLab(s.labs[id], FaultIn(s.storage, w.existing, id))
    ensures EntryOf(ScanLog(s, w), id) == ScanEvents(s.labs[id], FaultIn(s.storage, w.existing, id), id)
    ensures EntryOf(ScanList(s, w), id)
         == if Finding(s.labs[id], FaultIn(s.storage, w.existing, id)).Some? then [id] else []
  {
  }

  lemma InventoryRow(labs: map<Id, Lab>, found: seq<Inspection>, i: Inspection)
    requires i in found
    ensures EntryOf(InventoryLog(labs, found), i) == InventoryEvents(labs, i)
    ensures EntryOf(OrphanList(labs, found), i) == if Orphan(labs, i) then [i.lab] else []
    ensures EntryOf(ZombieList(labs, found), i) == if Zombie(labs, i) then [i.lab] else []
  {
  }

  // ---------- the service ----------

  class ReconciliationService {
    const maxDestroyAttempts: int

    constructor (maxDestroyAttempts: int)
      ensures this.maxDestroyAttempts == maxDestroyAttempts
    {
      this.maxDestroyAttempts := maxDestroyAttempts;
    }

    method RevokeIfExpired(session: Session, report: Report, id: Id, now: Time)
      requires id in session.leases && session.leases[id].revokedAt.None?
      modifies session`leases, session`events, report
      ensures session.leases == old(session.leases)[id := EndLease(old(session.leases)[id], now)]
      ensures session.events == old(session.events) + LeaseEvents(old(session.leases)[id], id, now)
      ensures report.lists
           == old(report.lists).(revokedLeases := old(report.lists.revokedLeases)
                                   + (if LeaseDue(old(session.leases)[id], now) then [id] else []))
    {
      var row := session.leases[id];
      if row.expiresAt > now {
        assert session.leases[id := row] == session.leases;
        return;
      }
      session.leases := session.leases[id := row.(revokedAt := Some(now))];
      report.lists := report.lists.(revokedLeases := report.lists.revokedLeases + [id]);
      session.Write(LeaseExpired, id, Some(row.lab), Plain);
    }

    method RevokeExpiredSecretLeases(session: Session, report: Report, now: Time)
      modifies session`leases, session`events, report
      ensures session.Rows() == RevokeDue(old(session.Rows()), now)
      ensures report.lists
           == old(report.lists).(
                revokedLeases := FoundLeases(old(report.lists.revokedLeases), old(session.Rows()), now))
    {
      ghost var s, found := session.Rows(), report.lists;
      ghost var list, log := LeaseList(s.leases, now), LeaseLog(s.leases, now);
      ghost var after := EndLeases(s.leases, now);
      ghost var ended: set<Id> := {};
      var leases := OpenLeaseQuery(session.leases);
      OpenLeaseQueryRows(s.leases);
      OverlayNone(s.leases, after);
      for i := 0 to |leases|
        invariant DoneUpTo(leases, i, ended)
        invariant session.leases == Overlay(s.leases, after, ended)
        invariant session.events == Gather(s.events, leases, log, i)
        invariant report.lists
               == found.(revokedLeases := Gather(found.revokedLeases, leases, list, i))
      {
        var id := leases[i];
        assert id in leases;
        DoneOneMore(leases, i, ended);
        OverlayOneMore(s.leases, after, ended, id);
        ended := ended + {id};
        RevokeIfExpired(session, report, id, now);
      }
      OverlayAll(s.leases, after, leases, ended);
    }

    method TimeOutIfDue(session: Session, report: Report, id: Id, now: Time)
      requires id in session.runs && Active(session.runs[id])
      modifies session`runs, session`events, report
      ensures session.runs == old(session.runs)[id := EndRun(old(session.runs)[id], now)]
      ensures session.events == old(session.events) + RunEvents(old(session.runs)[id], id, now)
      ensures report.lists
           == old(report.lists).(timedOutRuns := old(report.lists.timedOutRuns)
                                   + (if RunDue(old(session.runs)[id], now) then [id] else []))
    {
      var row := session.runs[id];
      if row.timeoutAt.None? || row.timeoutAt.value > now {
        assert session.runs[id := row] == session.runs;
        return;
      }
      row := row.(state := RunState.TimedOut);
      row := row.(finishedAt := Some(now));
      session.runs := session.runs[id := row];
      report.lists := report.lists.(timedOutRuns := report.lists.timedOutRuns + [id]);
      session.Write(RunTimedOut, id, Some(row.lab), Plain);
    }

    method TimeoutOverdueRuns(session: Session, report: Report, now: Time)
      modifies session`runs, session`events, report
      ensures session.Rows() == TimeOut(old(session.Rows()), now)
      ensures report.lists
           == old(report.lists).(timedOutRuns := FoundRuns(old(report.lists.timedOutRuns), old(session.Rows()), now))
    {
      ghost var s, found := session.Rows(), report.lists;
      ghost var list, log := RunList(s.runs, now), RunLog(s.runs, now);
      ghost var after := EndRuns(s.runs, now);
      ghost var ended: set<Id> := {};
      var runs := ActiveRunQuery(session.runs);
      ActiveRunQueryRows(s.runs);
      OverlayNone(s.runs, after);
      for i := 0 to |runs|
        invariant DoneUpTo(runs, i, ended)
        invariant session.runs == Overlay(s.runs, after, ended)
        invariant session.events == Gather(s.events, runs, log, i)
        invariant report.lists == found.(timedOutRuns := Gather(found.timedOutRuns, runs, list, i))
      {
        var id := runs[i];
        assert id in runs;
        DoneOneMore(runs, i, ended);
        OverlayOneMore(s.runs, after, ended, id);
        ended := ended + {id};
        TimeOutIfDue(session, report, id, now);
      }
      OverlayAll(s.runs, after, runs, ended);
    }

    method ExpireIfStale(session: Session, report: Report, id: Id, now: Time)
      requires id in session.approvals && session.approvals[id].state.Requested?
      modifies session`approvals, session`labs, session`exports, session`events, report
      ensures var a := old(session.approvals)[id];
        if Stale(a, now) then
          && session.approvals == old(session.approvals)[id := ExpiredApproval(a, now)]
          && session.labs == (if a.resourceType.LabResource? && a.resource in old(session.labs)
                              then old(session.labs)[a.resource := ExpiredLab(old(session.labs)[a.resource])]
                              else old(session.labs))
          && session.exports
             == (if a.resourceType.ExportResource? && a.resource in old(session.exports)
                 then old(session.exports)[a.resource := ExpiredExport(old(session.exports)[a.resource])]
                 else old(session.exports))
        else
          && session.approvals == old(session.approvals)
          && session.labs == old(session.labs)
          && session.exports == old(session.exports)
      ensures session.events == old(session.events) + ExpiryEvents(old(session.approvals)[id], id, now)
      ensures report.lists
           == old(report.lists).(expiredApprovals := old(report.lists.expiredApprovals)
                                   + (if Stale(old(session.approvals)[id], now) then [id] else []))
    {
      var row := session.approvals[id];
      if row.expiresAt.None? || row.expiresAt.value > now {
        return;
      }
      row := row.(state := ApprovalState.Expired);
      row := row.(approved := false);
      row := row.(decidedBy := Some("reconciler"));
      row := row.(decidedAt := Some(now));
      session.approvals := session.approvals[id := row];
      report.lists := report.lists.(expiredApprovals := report.lists.expiredApprovals + [id]);
      if row.resourceType.LabResource? {
        if row.resource in session.labs {
          var lab := session.labs[row.resource];
          if lab.state.PendingApproval? {
            lab := lab.(state := LabState.Failed);
          }
          session.labs := session.labs[row.resource := lab];
        }
      } else if row.resourceType.ExportResource? {
        if row.resource in session.exports {
          var x := session.exports[row.resource];
          x := x.(state := ExportState.Rejected);
          x := x.(denialReason := Some("approval request expired"));
          x := x.(approvalRequired := false);
          session.exports := session.exports[row.resource := x];
        }
      }
      session.Write(ApprovalExpired, id, row.lab, Plain);
    }

    /** One row of the expiry loop, `expired` being the approvals expired before it. */
    method ExpireRow(session: Session, report: Report, id: Id, now: Time, ghost s: Tables, ghost expired: set<Id>)
      requires id in s.approvals && id !in expired && s.approvals[id].state.Requested?
      requires session.approvals == ExpireApprovals(s.approvals, expired, now)
      requires session.labs == ExpireLabs(s, expired) && session.exports == ExpireExports(s, expired)
      modifies session`approvals, session`labs, session`exports, session`events, report
      ensures session.approvals == ExpireApprovals(s.approvals, WithStale(expired, s.approvals, id, now), now)
      ensures session.labs == ExpireLabs(s, WithStale(expired, s.approvals, id, now))
      ensures session.exports == ExpireExports(s, WithStale(expired, s.approvals, id, now))
      ensures session.events == old(session.events) + EntryOf(ExpiryLog(s.approvals, now), id)
      ensures report.lists
           == old(report.lists).(expiredApprovals := old(report.lists.expiredApprovals)
                                   + EntryOf(ExpiryList(s.approvals, now), id))
    {
      assert session.approvals[id] == s.approvals[id];
      if Stale(s.approvals[id], now) {
        ExpireOneApproval(s.approvals, expired, id, now);
        ExpireOneLab(s, expired, id);
        ExpireOneExport(s, expired, id);
      }
      ExpiryRow(s.approvals, id, now);
      ExpireIfStale(session, report, id, now);
    }

    method ExpireStaleApprovals(session: Session, report: Report, now: Time)
      modifies session`approvals, session`labs, session`exports, session`events, report
      ensures session.Rows() == Expire(old(session.Rows()), now)
      ensures report.lists
           == old(report.lists).(
                expiredApprovals := FoundStale(old(report.lists.expiredApprovals), old(session.Rows()), now))
    {
      ghost var s, found := session.Rows(), report.lists;
      ghost var list, log := ExpiryList(s.approvals, now), ExpiryLog(s.approvals, now);
      ghost var seen: set<Id>, expired: set<Id> := {}, {};
      var approvals := PendingQuery(session.approvals);
      NothingExpires(s, now);
      for i := 0 to |approvals|
        invariant DoneUpTo(approvals, i, seen)
        invariant expired == StaleAmong(seen, s.approvals, now)
        invariant session.approvals == ExpireApprovals(s.approvals, expired, now)
        invariant session.labs == ExpireLabs(s, expired)
        invariant session.exports == ExpireExports(s, expired)
        invariant session.events == Gather(s.events, approvals, log, i)
        invariant report.lists == found.(expiredApprovals := Gather(found.expiredApprovals, approvals, list, i))
      {
        var id := approvals[i];
        ExpiryReaches(s, approvals, i, seen, now);
        ExpireRow(session, report, id, now, s, expired);
        seen, expired := seen + {id}, WithStale(expired, s.approvals, id, now);
      }
      ExpiredAll(s, approvals, seen, now);
    }

    method RetryOne(
      session: Session, report: Report, storage: map<Id, Storage>, failures: map<Id, string>, id: Id)
      returns (lab: Lab)
      requires id in session.labs && session.labs[id].state.Destroying?
      modifies session`labs, session`events, report
      ensures lab == RetryLab(old(session.labs)[id], id in storage, Failure(failures, id), maxDestroyAttempts)
      ensures session.labs == old(session.labs)[id := lab]
      ensures session.events
           == old(session.events) + RetryEvents(lab, id in storage, Failure(failures, id), id)
      ensures report.lists
           == old(report.lists).(
                destroyedLabs := old(report.lists.destroyedLabs) + (if lab.state.Destroyed? then [id] else []),
                failedDestroys := old(report.lists.failedDestroys) + (if lab.state.Failed? then [id] else []))
    {
      lab := session.labs[id];
      if id !in storage {
        lab := lab.(state := LabState.Failed);
        lab := lab.(lastDestroyError := Some("missing_storage_record"));
        session.labs := session.labs[id := lab];
        report.lists := report.lists.(failedDestroys := report.lists.failedDestroys + [id]);
        session.Write(LabDestroyFailed, id, Some(id), Attempt(lab.destroyAttempts));
        return;
      }
      lab := lab.(destroyAttempts := lab.destroyAttempts + 1);
      if id in failures {
        lab := lab.(lastDestroyError := Some(failures[id]));
        session.Write(LabDestroyRetryFailed, id, Some(id), Attempt(lab.destroyAttempts));
        if lab.destroyAttempts >= maxDestroyAttempts {
          lab := lab.(state := LabState.Failed);
          report.lists := report.lists.(failedDestroys := report.lists.failedDestroys + [id]);
          session.Write(LabDestroyFailed, id, Some(id), Attempt(lab.destroyAttempts));
        }
        session.labs := session.labs[id := lab];
        return;
      }
      lab := lab.(state := LabState.Destroyed);
      lab := lab.(lastDestroyError := None);
      session.labs := session.labs[id := lab];
      report.lists := report.lists.(destroyedLabs := report.lists.destroyedLabs + [id]);
      session.Write(LabDestroyed, id, Some(id), Attempt(lab.destroyAttempts));
    }

    /** One row of the retry loop, on a lab no earlier row touched. */
    method RetryRow(
      session: Session, report: Report, storage: map<Id, Storage>, failures: map<Id, string>, id: Id, ghost s: Tables)
      requires id in s.labs && s.labs[id].state.Destroying?
      requires id in session.labs && session.labs[id] == s.labs[id] && storage == s.storage
      modifies session`labs, session`events, report
      ensures id in RetryLabs(s, failures, maxDestroyAttempts)
      ensures session.labs == old(session.labs)[id := RetryLabs(s, failures, maxDestroyAttempts)[id]]
      ensures session.events == old(session.events) + EntryOf(RetryLog(s, failures, maxDestroyAttempts), id)
      ensures report.lists
           == old(report.lists).(
                destroyedLabs := old(report.lists.destroyedLabs)
                  + EntryOf(RetriedTo(s, failures, maxDestroyAttempts, LabState.Destroyed), id),
                failedDestroys := old(report.lists.failedDestroys)
                  + EntryOf(RetriedTo(s, failures, maxDestroyAttempts, LabState.Failed), id))
    {
      RetryEntries(s, failures, maxDestroyAttempts, id);
      var lab := RetryOne(session, report, storage, failures, id);
    }

    method RetryRows(session: Session, report: Report, storage: map<Id, Storage>, failures: map<Id, string>)
      requires storage == session.storage
      modifies session`labs, session`events, report
      ensures session.labs == RetryLabs(old(session.Rows()), failures, maxDestroyAttempts)
      ensures session.events
           == GatherAll(old(session.events), DestroyingQuery(old(session.labs)),
                        RetryLog(old(session.Rows()), failures, maxDestroyAttempts))
      ensures report.lists
           == old(report.lists).(
                destroyedLabs := GatherAll(old(report.lists.destroyedLabs), DestroyingQuery(old(session.labs)),
                  RetriedTo(old(session.Rows()), failures, maxDestroyAttempts, LabState.Destroyed)),
                failedDestroys := GatherAll(old(report.lists.failedDestroys), DestroyingQuery(old(session.labs)),
                  RetriedTo(old(session.Rows()), failures, maxDestroyAttempts, LabState.Failed)))
    {
      ghost var s, found, max := session.Rows(), report.lists, maxDestroyAttempts;
      ghost var log := RetryLog(s, failures, max);
      ghost var destroyed := RetriedTo(s, failures, max, LabState.Destroyed);
      ghost var failed := RetriedTo(s, failures, max, LabState.Failed);
      ghost var after := RetryLabs(s, failures, max);
      ghost var tried: set<Id> := {};
      var labs := DestroyingQuery(session.labs);
      DestroyingQueryRows(s.labs);
      OverlayNone(s.labs, after);
      for i := 0 to |labs|
        invariant DoneUpTo(labs, i, tried)
        invariant session.labs == Overlay(s.labs, after, tried)
        invariant session.events == Gather(s.events, labs, log, i)
        invariant report.lists
               == found.(destroyedLabs := Gather(found.destroyedLabs, labs, destroyed, i),
                         failedDestroys := Gather(found.failedDestroys, labs, failed, i))
      {
        var id := labs[i];
        assert id in labs;
        DoneOneMore(labs, i, tried);
        OverlayOneMore(s.labs, after, tried, id);
        tried := tried + {id};
        RetryRow(session, report, storage, failures, id, s);
      }
      RetriedAll(s, failures, max, labs, tried);
    }

    method RetryDestroyingLabs(session: Session, report: Report, storage: map<Id, Storage>, w: World)
      requires storage == session.storage
      modifies session`labs, session`events, report
      ensures session.Rows() == Retry(old(session.Rows()), w, maxDestroyAttempts)
      ensures report.lists
           == old(report.lists).(
                destroyedLabs :=
                  RetryList(
                    old(report.lists.destroyedLabs), old(session.Rows()), w, maxDestroyAttempts, LabState.Destroyed),
                failedDestroys :=
                  RetryList(
                    old(report.lists.failedDestroys), old(session.Rows()), w, maxDestroyAttempts, LabState.Failed))
    {
      if w.destroyer.Some? {
        RetryRows(session, report, storage, w.destroyer.value);
      }
    }

    method ScanOne(
      session: Session, report: Report, storage: map<Id, Storage>, existing: set<Path>, id: Id)
      requires id in session.labs
      modifies session`labs, session`events, report
      ensures session.labs
           == old(session.labs)[id := ScanLab(old(session.labs)[id], FaultIn(storage, existing, id))]
      ensures session.events
           == old(session.events) + ScanEvents(old(session.labs)[id], FaultIn(storage, existing, id), id)
      ensures report.lists
           == old(report.lists).(failedLabs := old(report.lists.failedLabs)
                + (if Finding(old(session.labs)[id], FaultIn(storage, existing, id)).Some? then [id] else []))
    {
      var lab := session.labs[id];
      if lab.state.Destroyed? {
        assert session.labs[id := lab] == session.labs;
        return;
      }
      var failureReason: Option<Detail> := None;
      if id !in storage {
        failureReason := Some(MissingStorageRecord);
      } else if storage[id].root !in existing {
        failureReason := Some(MissingStorageRoot);
      }
      if failureReason.None? {
        assert session.labs[id := lab] == session.labs;
        return;
      }
      if !lab.state.Failed? {
        lab := lab.(state := LabState.Failed);
      }
      session.labs := session.labs[id := lab];
      report.lists := report.lists.(failedLabs := report.lists.failedLabs + [id]);
      session.Write(LabReconciliationFailed, id, Some(id), failureReason.value);
    }

    /** One row of the scan, `seen` being the labs scanned before it. */
    method ScanNext(
      session: Session, report: Report, id: Id, storage: map<Id, Storage>, ghost s: Tables, w: World,
      ghost seen: set<Id>)
      requires id in s.labs && id !in seen && storage == s.storage
      requires session.labs == Overlay(s.labs, ScanLabs(s, w), seen)
      modifies session`labs, session`events, report
      ensures session.labs == Overlay(s.labs, ScanLabs(s, w), seen + {id})
      ensures session.events == old(session.events) + EntryOf(ScanLog(s, w), id)
      ensures report.lists
           == old(report.lists).(failedLabs := old(report.lists.failedLabs) + EntryOf(ScanList(s, w), id))
    {
      OverlayOneMore(s.labs, ScanLabs(s, w), seen, id);
      ScanRow(s, w, id);
      ScanOne(session, report, storage, w.existing, id);
    }

    method ScanStorage(session: Session, report: Report, labs: seq<Id>, storage: map<Id, Storage>, w: World)
      requires storage == session.storage && labs == AllLabs(session.labs)
      modifies session`labs, session`events, report
      ensures session.Rows() == Scan(old(session.Rows()), w)
      ensures report.lists
           == old(report.lists).(failedLabs := FoundFaulty(old(report.lists.failedLabs), old(session.Rows()), w))
    {
      ghost var s := session.Rows();
      AllLabsRows(s.labs);
      ghost var seen := ScanRows(session, report, labs, storage, w);
      OverlayAll(s.labs, ScanLabs(s, w), labs, seen);
    }

    /** The loop over the labs as they were loaded. */
    method ScanRows(session: Session, report: Report, labs: seq<Id>, storage: map<Id, Storage>, w: World)
      returns (ghost seen: set<Id>)
      requires storage == session.storage && Distinct(labs) && forall id :: id in labs ==> id in session.labs
      modifies session`labs, session`events, report
      ensures DoneUpTo(labs, |labs|, seen)
      ensures session.labs == Overlay(old(session.labs), ScanLabs(old(session.Rows()), w), seen)
      ensures session.events == GatherAll(old(session.events), labs, ScanLog(old(session.Rows()), w))
      ensures report.lists
           == old(report.lists).(
                failedLabs := GatherAll(old(report.lists.failedLabs), labs, ScanList(old(session.Rows()), w)))
    {
      ghost var s, found := session.Rows(), report.lists;
      ghost var list, log, after := ScanList(s, w), ScanLog(s, w), ScanLabs(s, w);
      seen := {};
      OverlayNone(s.labs, after);
      for i := 0 to |labs|
        invariant DoneUpTo(labs, i, seen)
        invariant session.labs == Overlay(s.labs, after, seen)
        invariant session.events == Gather(s.events, labs, log, i)
        invariant report.lists == found.(failedLabs := Gather(found.failedLabs, labs, list, i))
      {
        DoneOneMore(labs, i, seen);
        ScanNext(session, report, labs[i], storage, s, w, seen);
        seen := seen + {labs[i]};
      }
    }

    method CompareOne(session: Session, report: Report, labs: map<Id, Lab>, inspection: Inspection)
      modifies session`events, report
      ensures session.events == old(session.events) + InventoryEvents(labs, inspection)
      ensures report.lists
           == old(report.lists).(
                orphans := old(report.lists.orphans) + (if Orphan(labs, inspection) then [inspection.lab] else []),
                zombies := old(report.lists.zombies) + (if Zombie(labs, inspection) then [inspection.lab] else []))
    {
      if inspection.lab !in labs {
        report.lists := report.lists.(orphans := report.lists.orphans + [inspection.lab]);
        session.Write(OrphanDetected, inspection.lab, None, Plain);
        return;
      }
      if IsZombie(labs[inspection.lab].state, inspection.status) {
        report.lists := report.lists.(zombies := report.lists.zombies + [inspection.lab]);
        session.Write(ZombieDetected, inspection.lab, Some(inspection.lab), Plain);
      }
    }

    method CompareRows(session: Session, report: Report, labs: map<Id, Lab>, found: seq<Inspection>)
      modifies session`events, report
      ensures session.events == GatherAll(old(session.events), found, InventoryLog(labs, found))
      ensures report.lists
           == old(report.lists).(orphans := GatherAll(old(report.lists.orphans), found, OrphanList(labs, found)),
                                 zombies := GatherAll(old(report.lists.zombies), found, ZombieList(labs, found)))
    {
      ghost var lists, log := report.lists, InventoryLog(labs, found);
      ghost var orphans, zombies := OrphanList(labs, found), ZombieList(labs, found);
      for i := 0 to |found|
        invariant session.events == Gather(old(session.events), found, log, i)
        invariant report.lists
               == lists.(orphans := Gather(lists.orphans, found, orphans, i),
                         zombies := Gather(lists.zombies, found, zombies, i))
      {
        InventoryRow(labs, found, found[i]);
        CompareOne(session, report, labs, found[i]);
      }
    }

    method CompareInventory(session: Session, report: Report, labs: map<Id, Lab>, w: World)
      requires labs == session.labs
      modifies session`events, report
      ensures session.Rows() == Inspect(old(session.Rows()), w)
      ensures report.lists
           == old(report.lists).(orphans := FoundOrphans(old(report.lists.orphans), labs, w),
                                 zombies := FoundZombies(old(report.lists.zombies), labs, w))
    {
      if w.inventory.None? {
        return;
      }
      CompareRows(session, report, labs, w.inventory.value);
    }

    /** The phases that look at the clock. */
    method SweepDeadlines(session: Session, report: Report, now: Time)
      modifies session`approvals, session`labs, session`exports, session`leases, session`runs, session`events
      modifies report
      ensures session.Rows() == Sweep(old(session.Rows()), now)
      ensures report.lists
           == old(report.lists).(
                expiredApprovals := FoundStale(old(report.lists.expiredApprovals), old(session.Rows()), now),
                revokedLeases := FoundLeases(old(report.lists.revokedLeases), old(session.Rows()), now),
                timedOutRuns := FoundRuns(old(report.lists.timedOutRuns), old(session.Rows()), now))
    {
      ExpireStaleApprovals(session, report, now);
      RevokeExpiredSecretLeases(session, report, now);
      TimeoutOverdueRuns(session, report, now);
    }

    /** The phases in order, scanning the labs that were loaded before any of them ran. */
    method RunPhases(session: Session, report: Report, now: Time, w: World)
      returns (ghost swept: Tables, ghost retried: Tables, ghost scanned: Tables)
      requires report.lists == NOTHING_FOUND
      modifies session`approvals, session`labs, session`exports, session`leases, session`runs, session`events
      modifies report
      ensures swept == Sweep(old(session.Rows()), now)
      ensures retried == Retry(swept, w, maxDestroyAttempts)
      ensures scanned == Scan(retried, w)
      ensures session.Rows() == Inspect(scanned, w)
      ensures report.lists
           == Findings(FoundFaulty([], retried, w),
                       RetryList([], swept, w, maxDestroyAttempts, LabState.Destroyed),
                       RetryList([], swept, w, maxDestroyAttempts, LabState.Failed),
                       FoundOrphans([], scanned.labs, w),
                       FoundZombies([], scanned.labs, w),
                       FoundStale([], old(session.Rows()), now),
                       FoundLeases([], old(session.Rows()), now),
                       FoundRuns([], old(session.Rows()), now))
    {
      var labs, storage := AllLabs(session.labs), session.storage;
      SweepDeadlines(session, report, now);
      swept := session.Rows();
      RetryDestroyingLabs(session, report, storage, w);
      retried := session.Rows();
      assert labs == AllLabs(retried.labs) && storage == retried.storage by {
        PhasesKeepOrder(old(session.Rows()), now, w, maxDestroyAttempts);
      }
      ScanStorage(session, report, labs, storage, w);
      scanned := session.Rows();
      CompareInventory(session, report, session.labs, w);
    }

    /** One pass, with its report in order. */
    method Reconcile(session: Session, report: Report, now: Time, w: World)
      requires report.lists == NOTHING_FOUND
      modifies session`approvals, session`labs, session`exports, session`leases, session`runs, session`events
      modifies report
      ensures session.Rows() == Reconciler.Reconcile(old(session.Rows()), now, w, maxDestroyAttempts)
      ensures report.lists == SortFindings(Found(old(session.Rows()), now, w, maxDestroyAttempts))
    {
      ghost var s := session.Rows();
      ghost var swept, retried, scanned := RunPhases(session, report, now, w);
      PassIsPhases(s, swept, retried, scanned, now, w, maxDestroyAttempts);
      report.Sort();
    }
  }

  lemma PassIsPhases(s: Tables, swept: Tables, retried: Tables, scanned: Tables, now: Time, w: World, max: int)
    requires swept == Sweep(s, now) && retried == Retry(swept, w, max) && scanned == Scan(retried, w)
    ensures Inspect(scanned, w) == Reconciler.Reconcile(s, now, w, max)
    ensures Found(s, now, w, max)
         == Findings(FoundFaulty([], retried, w),
                     RetryList([], swept, w, max, LabState.Destroyed),
                     RetryList([], swept, w, max, LabState.Failed),
                     FoundOrphans([], scanned.labs, w),
                     FoundZombies([], scanned.labs, w),
                     FoundStale([], s, now),
                     FoundLeases([], s, now),
                     FoundRuns([], s, now))
  {
  }

  /** No phase adds or removes a lab or changes when it was created, so the order loaded first stays right. */
  lemma PhasesKeepOrder(s: Tables, now: Time, w: World, max: int)
    ensures var t := Retry(Sweep(s, now), w, max); t.labs.Keys == s.labs.Keys && AllLabs(t.labs) == AllLabs(s.labs)
  {
    var swept := Sweep(s, now);
    assert swept.labs == ExpireLabs(s, StaleIds(s.approvals, now));
    assert LabRank(swept.labs) == LabRank(s.labs);
    RetryKeepsRank(swept, w, max);
  }

  lemma RetryKeepsRank(s: Tables, w: World, max: int)
    ensures Retry(s, w, max).labs.Keys == s.labs.Keys && LabRank(Retry(s, w, max).labs) == LabRank(s.labs)
  {
    if w.destroyer.Some? { assert Retry(s, w, max).labs == RetryLabs(s, w.destroyer.value, max); }
  }
}
