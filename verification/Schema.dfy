/** The durable tables, the event log, and a database session over them. */
module Schema {
  import opened Basics

  datatype LabState = Requested | PendingApproval | Approved | Provisioning | Running | Stopped
                    | Failed | Destroying | Destroyed | Archived
  datatype RunState = Queued | Starting | Running | Completed | Failed | Cancelled | TimedOut
  datatype ApprovalState = Requested | Approved | Rejected | Expired
  datatype ExportState = Requested | Quarantined | Approved | Released | Rejected
  datatype JobState = Queued | Dispatched | Succeeded | Failed

  datatype RuntimeClass = Container | MicroVm
  datatype ResourceType = LabResource | ExportResource | RunResource | OtherResource
  datatype JobAction = CreateLab | StartRun

  /** Why a call was refused or an attempt failed. */
  datatype Error =
    | ProfileMissing | StorageFailure | IntegrityError
    | LabMissing | LabStorageMissing | LabAlreadyDestroyed
    | RunMissing | RunMismatch
    | ApprovalMissing | ApprovalNotPending | ApprovalRequestExpired | CommentRequired
    | ExportMissing | ExportSourceMissing | PolicyDenied | NotAGuestExportPath | PathEscapes
    | ExportAlreadyRejected | ExportAlreadyReleased | ExportNeedsApproval | ReasonRequired
    | TtlTooShort | SecretNotAllowed | SecretMissing | LeaseMissing | LeaseAlreadyRevoked
    | InvalidRequest | QuotaExceeded | NoJobDue | AssertionFailure

  datatype Lab = Lab(
    profile: string,
    state: LabState,
    runtime: RuntimeClass,
    destroyAttempts: nat,
    lastDestroyError: Option<string>,
    createdAt: Time)

  datatype Storage = Storage(
    root: Path,
    workspace: Path,
    exports: Path,
    quarantine: Path,
    snapshots: Path)

  datatype Run = Run(
    lab: Id,
    state: RunState,
    command: string,
    timeoutAt: Option<Time>,
    finishedAt: Option<Time>,
    createdAt: Time)

  datatype Approval = Approval(
    lab: Option<Id>,
    resourceType: ResourceType,
    resource: Id,
    state: ApprovalState,
    approved: bool,
    comment: Option<string>,
    decidedBy: Option<string>,
    expiresAt: Option<Time>,
    decidedAt: Option<Time>,
    createdAt: Time)

  datatype Export = Export(
    lab: Id,
    run: Option<Id>,
    source: string,
    state: ExportState,
    quarantinePath: Path,
    releasedPath: Option<Path>,
    approvalRequired: bool,
    sha256: string,
    size: nat,
    denialReason: Option<string>,
    createdAt: Time)

  datatype Lease = Lease(
    lab: Id,
    secret: string,
    approved: bool,
    expiresAt: Time,
    revokedAt: Option<Time>,
    createdAt: Time)

  datatype Job = Job(
    action: JobAction,
    state: JobState,
    requester: string,
    profile: Option<string>,
    lab: Option<Id>,
    command: Option<string>,
    scheduledFor: Time,
    attempts: nat,
    maxAttempts: nat,
    lastError: Option<Error>,
    resultType: Option<ResourceType>,
    result: Option<Id>,
    dispatchedAt: Option<Time>,
    completedAt: Option<Time>,
    createdAt: Time)

  datatype EventKind =
    | ApprovalRequested | ApprovalApproved | ApprovalDenied | ApprovalExpired
    | LabRequested | LabDestroyed | LabDestroyRetryFailed | LabDestroyFailed | LabReconciliationFailed
    | RunQueued | RunTimedOut
    | LeaseIssued | LeaseRevoked | LeaseExpired
    | JobEnqueued | JobDispatched | JobRequeued | JobSucceeded | JobFailed
    | ExportRequested | ExportStaged | ExportReleased | ExportReleaseBlocked | ExportDenied
    | OrphanDetected | ZombieDetected

  /** The part of an event's payload that some property speaks about. */
  datatype Detail = Plain | Attempt(number: nat) | MissingStorageRecord | MissingStorageRoot

  datatype Event = Event(kind: EventKind, resource: Id, lab: Option<Id>, detail: Detail)

  datatype Tables = Tables(
    labs: map<Id, Lab>,
    storage: map<Id, Storage>,     // keyed by lab: at most one storage row a lab
    approvals: map<Id, Approval>,
    exports: map<Id, Export>,
    runs: map<Id, Run>,
    leases: map<Id, Lease>,
    jobs: map<Id, Job>,
    events: seq<Event>)

  const EMPTY := Tables(map[], map[], map[], map[], map[], map[], map[], [])

  /** What a call leaves in the database, and the error it reports if it was refused. */
  datatype Outcome = Outcome(rows: Tables, error: Option<Error>)

  function Done(rows: Tables): Outcome { Outcome(rows, None) }

  function Refused(rows: Tables, error: Error): Outcome { Outcome(rows, Some(error)) }

  // ---------- reading the log ----------

  /** The events of the given kinds about one resource among the first `n`, in log order. */
  function HistTo(log: seq<Event>, kinds: set<EventKind>, id: Id, n: nat): seq<Event>
    requires n <= |log|
  {
    if n == 0 then [] else HistTo(log, kinds, id, n - 1) + HistOne(log[n - 1], kinds, id)
  }

  function Hist(log: seq<Event>, kinds: set<EventKind>, id: Id): seq<Event> { HistTo(log, kinds, id, |log|) }

  function HistOne(e: Event, kinds: set<EventKind>, id: Id): seq<Event> {
    if e.kind in kinds && e.resource == id then [e] else []
  }

  lemma {:induction false} HistConcatTo(a: seq<Event>, b: seq<Event>, kinds: set<EventKind>, id: Id, n: nat)
    requires n <= |b|
    ensures HistTo(a + b, kinds, id, |a| + n) == HistTo(a, kinds, id, |a|) + HistTo(b, kinds, id, n)
  {
    if n == 0 {
      HistPrefix(a, b, kinds, id, |a|);
    } else {
      HistConcatTo(a, b, kinds, id, n - 1);
      assert (a + b)[|a| + n - 1] == b[n - 1];
    }
  }

  lemma {:induction false} HistPrefix(a: seq<Event>, b: seq<Event>, kinds: set<EventKind>, id: Id, n: nat)
    requires n <= |a|
    ensures HistTo(a + b, kinds, id, n) == HistTo(a, kinds, id, n)
  {
    if n > 0 { HistPrefix(a, b, kinds, id, n - 1); }
  }

  lemma HistConcat(a: seq<Event>, b: seq<Event>, kinds: set<EventKind>, id: Id)
    ensures Hist(a + b, kinds, id) == Hist(a, kinds, id) + Hist(b, kinds, id)
  {
    HistConcatTo(a, b, kinds, id, |b|);
  }

  lemma HistAppend(log: seq<Event>, e: Event, kinds: set<EventKind>, id: Id)
    ensures Hist(log + [e], kinds, id) == Hist(log, kinds, id) + HistOne(e, kinds, id)
  {
    HistConcat(log, [e], kinds, id);
    assert HistTo([e], kinds, id, 1) == HistTo([e], kinds, id, 0) + HistOne([e][0], kinds, id);
  }

  lemma HistOfNext<T>(xs: seq<T>, f: map<T, seq<Event>>, n: nat, kinds: set<EventKind>, id: Id)
    requires 0 < n <= |xs|
    ensures Hist(Gather([], xs, f, n), kinds, id)
         == Hist(Gather([], xs, f, n - 1), kinds, id) + Hist(EntryOf(f, xs[n - 1]), kinds, id)
  {
    HistConcat(Gather([], xs, f, n - 1), EntryOf(f, xs[n - 1]), kinds, id);
  }

  /** What each of the first `n` elements logs of these kinds about `id`, one after the other. */
  function Parts<T>(xs: seq<T>, f: map<T, seq<Event>>, n: nat, kinds: set<EventKind>, id: Id): (r: seq<seq<Event>>)
    requires n <= |xs|
    ensures |r| == n
  {
    seq(n, i requires 0 <= i < n => Hist(EntryOf(f, xs[i]), kinds, id))
  }

  function Flat(parts: seq<seq<Event>>, n: nat): seq<Event>
    requires n <= |parts|
  {
    if n == 0 then [] else Flat(parts, n - 1) + parts[n - 1]
  }

  lemma {:induction false} FlatNone(parts: seq<seq<Event>>, n: nat)
    requires n <= |parts| && forall i :: 0 <= i < n ==> parts[i] == []
    ensures Flat(parts, n) == []
  {
    if n > 0 { FlatNone(parts, n - 1); }
  }

  lemma {:induction false} FlatOne(parts: seq<seq<Event>>, j: nat, n: nat)
    requires j < n <= |parts| && forall i :: 0 <= i < n && i != j ==> parts[i] == []
    ensures Flat(parts, n) == parts[j]
  {
    if j == n - 1 { FlatNone(parts, n - 1); } else { FlatOne(parts, j, n - 1); }
  }

  /** The history of a gathered log is what its elements log, one after the other. */
  lemma {:induction false} HistIsFlat<T>(
    xs: seq<T>, f: map<T, seq<Event>>, parts: seq<seq<Event>>, n: nat, kinds: set<EventKind>, id: Id)
    requires n <= |parts| <= |xs| && parts == Parts(xs, f, |parts|, kinds, id)
    ensures Hist(Gather([], xs, f, n), kinds, id) == Flat(parts, n)
  {
    if n > 0 {
      HistIsFlat(xs, f, parts, n - 1, kinds, id);
      HistOfNext(xs, f, n, kinds, id);
      assert Flat(parts, n) == Flat(parts, n - 1) + parts[n - 1];
    }
  }

  /** If row `id` is the only one that can log about `id`, its history grows by what that row logs. */
  lemma HistGather(ids: seq<Id>, f: map<Id, seq<Event>>, n: nat, kinds: set<EventKind>, id: Id)
    requires n <= |ids| && Distinct(ids)
    requires forall i :: 0 <= i < n && ids[i] != id ==> Hist(EntryOf(f, ids[i]), kinds, id) == []
    ensures Hist(Gather([], ids, f, n), kinds, id) == if id in ids[..n] then Hist(EntryOf(f, id), kinds, id) else []
  {
    var parts := Parts(ids, f, n, kinds, id);
    HistIsFlat(ids, f, parts, n, kinds, id);
    if id in ids[..n] {
      var j :| 0 <= j < n && ids[j] == id;
      FlatOne(parts, j, n);
    } else {
      FlatNone(parts, n);
    }
  }

  /** How often the first `n` of a list name an id. */
  function TimesTo(xs: seq<Id>, id: Id, n: nat): nat
    requires n <= |xs|
  {
    if n == 0 then 0 else TimesTo(xs, id, n - 1) + (if xs[n - 1] == id then 1 else 0)
  }

  function Times(xs: seq<Id>, id: Id): nat { TimesTo(xs, id, |xs|) }

  lemma {:induction false} TimesConcatTo(a: seq<Id>, b: seq<Id>, id: Id, n: nat)
    requires n <= |a| + |b|
    ensures TimesTo(a + b, id, n) == if n <= |a| then TimesTo(a, id, n) else Times(a, id) + TimesTo(b, id, n - |a|)
  {
    if n > 0 { TimesConcatTo(a, b, id, n - 1); }
  }

  lemma TimesConcat(a: seq<Id>, b: seq<Id>, id: Id)
    ensures Times(a + b, id) == Times(a, id) + Times(b, id)
  {
    TimesConcatTo(a, b, id, |a| + |b|);
  }

  lemma {:induction false} TimesIsMultiplicity(xs: seq<Id>, id: Id, n: nat)
    requires n <= |xs|
    ensures TimesTo(xs, id, n) == multiset(xs[..n])[id]
  {
    if n > 0 {
      TimesIsMultiplicity(xs, id, n - 1);
      assert xs[..n] == xs[..n - 1] + [xs[n - 1]];
    }
  }

  /** When every element lists an id as often as it logs about it, so does the whole pass. */
  lemma {:induction false} HistCounts<T>(
    xs: seq<T>, list: map<T, seq<Id>>, f: map<T, seq<Event>>, n: nat, kinds: set<EventKind>, id: Id)
    requires n <= |xs|
    requires forall i :: 0 <= i < n ==> |Hist(EntryOf(f, xs[i]), kinds, id)| == Times(EntryOf(list, xs[i]), id)
    ensures |Hist(Gather([], xs, f, n), kinds, id)| == Times(Gather([], xs, list, n), id)
  {
    if n > 0 {
      HistCounts(xs, list, f, n - 1, kinds, id);
      HistConcat(Gather([], xs, f, n - 1), EntryOf(f, xs[n - 1]), kinds, id);
      TimesConcat(Gather([], xs, list, n - 1), EntryOf(list, xs[n - 1]), id);
    }
  }

  // ---------- sessions ----------

  /** A unit of work: working rows, and the rows the database holds if it is abandoned. */
  class Session {
    var labs: map<Id, Lab>
    var storage: map<Id, Storage>
    var approvals: map<Id, Approval>
    var exports: map<Id, Export>
    var runs: map<Id, Run>
    var leases: map<Id, Lease>
    var jobs: map<Id, Job>
    var events: seq<Event>
    var committed: Tables

    constructor (stored: Tables)
      ensures Clean() && Rows() == stored
    {
      labs, storage, approvals, exports := stored.labs, stored.storage, stored.approvals, stored.exports;
      runs, leases, jobs, events := stored.runs, stored.leases, stored.jobs, stored.events;
      committed := stored;
    }

    function Rows(): Tables
      reads this
    {
      Tables(labs, storage, approvals, exports, runs, leases, jobs, events)
    }

    /** Nothing is pending. */
    predicate Clean()
      reads this
    {
      Rows() == committed
    }

    method Write(kind: EventKind, resource: Id, lab: Option<Id>, detail: Detail)
      modifies this`events
      ensures events == old(events) + [Event(kind, resource, lab, detail)]
    {
      events := events + [Event(kind, resource, lab, detail)];
    }

    method Commit()
      modifies this`committed
      ensures Clean()
    {
      committed := Rows();
    }

    /** Put working rows back to an earlier state: the whole unit of work, or a savepoint. */
    method RollbackTo(saved: Tables)
      modifies this
      ensures Rows() == saved && committed == old(committed)
    {
      labs, storage, approvals, exports := saved.labs, saved.storage, saved.approvals, saved.exports;
      runs, leases, jobs, events := saved.runs, saved.leases, saved.jobs, saved.events;
    }

    method Rollback()
      modifies this
      ensures Clean() && committed == old(committed)
    {
      RollbackTo(committed);
    }
  }
}
