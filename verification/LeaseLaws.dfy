/** The clock's three readers agree on leases, and a lease ends once. */
module LeaseLaws {
  import opened Basics
  import opened Schema
  import opened Governance
  import opened Leases
  import opened ControlPlane
  import opened GovernanceLaws
  import opened ReconcilerLaws
  import opened ReportLaws
  import opened SchedulerLaws
  import opened Audit
  import R = Reconciler
  import Q = Scheduler

  // ---------- what is handed out ----------

  predicate Covered(leases: map<Id, Lease>, broker: Broker, ids: seq<Id>)
    requires forall x :: x in ids ==> x in leases
  {
    forall i :: 0 <= i < |ids| ==> leases[ids[i]].secret in broker
  }

  function GrantOf(l: Lease, broker: Broker): Grant
    requires l.secret in broker
  {
    Grant(l.secret, broker[l.secret], l.approved, l.expiresAt)
  }

  lemma {:induction false} GrantsInOrder(leases: map<Id, Lease>, broker: Broker, ids: seq<Id>)
    requires forall x :: x in ids ==> x in leases
    ensures var r := Grants(leases, broker, ids);
      if Covered(leases, broker, ids) then
        r.Ok? && |r.value| == |ids| && forall i :: 0 <= i < |ids| ==> r.value[i] == GrantOf(leases[ids[i]], broker)
      else r == Err(SecretMissing)
  {
    if ids != [] {
      GrantsInOrder(leases, broker, ids[1..]);
      assert forall i :: 0 < i < |ids| ==> ids[i] == ids[1..][i - 1];
    }
  }

  /** Older first; of leases as old as each other the one with the smaller id. */
  ghost predicate OlderFirst(leases: map<Id, Lease>, a: Id, b: Id)
    requires a in leases && b in leases
  {
    leases[a].createdAt < leases[b].createdAt || (leases[a].createdAt == leases[b].createdAt && a < b)
  }

  /**
   * Exactly the lab's approved, unrevoked, unexpired leases are handed out, in (created_at, id) order, each with
   * its secret's value; only a secret without a value stops that.
   */
  lemma MaterializesExactly(s: Tables, broker: Broker, lab: Id, now: Time)
    ensures var ids, r := UsableIds(s.leases, lab, now), Materialize(s, broker, lab, now);
      && (forall x :: x in ids <==>
            && x in s.leases && s.leases[x].lab == lab && s.leases[x].approved
            && s.leases[x].revokedAt == None && now < s.leases[x].expiresAt)
      && (forall i, j :: 0 <= i < j < |ids| ==> OlderFirst(s.leases, ids[i], ids[j]))
      && if (forall x :: x in ids ==> s.leases[x].secret in broker) then
           r.Ok? && |r.value| == |ids|
           && forall i :: 0 <= i < |ids| ==>
                var l := s.leases[ids[i]]; r.value[i] == Grant(l.secret, broker[l.secret], true, l.expiresAt)
         else r == Err(SecretMissing)
  {
    var ids := UsableIds(s.leases, lab, now);
    UsableMembers(s.leases, lab, now);
    GrantsInOrder(s.leases, broker, ids);
    HandedInOrder(s.leases, lab, now);
    assert forall i :: 0 <= i < |ids| ==> ids[i] in ids;
  }

  lemma HandedInOrder(leases: map<Id, Lease>, lab: Id, now: Time)
    ensures var ids := UsableIds(leases, lab, now);
      && (forall x :: x in ids ==> x in leases)
      && forall i, j :: 0 <= i < j < |ids| ==> OlderFirst(leases, ids[i], ids[j])
  {
    var ids := UsableIds(leases, lab, now);
    UsableMembers(leases, lab, now);
    OrderByInOrder(UsableLeases(leases, lab, now), R.LeaseRank(leases));
    forall i, j | 0 <= i < j < |ids| ensures OlderFirst(leases, ids[i], ids[j]) {
      assert ids[i] in ids && ids[j] in ids;
    }
  }

  lemma RefusalIff(grants: seq<Grant>, now: Time)
    ensures EnvironmentRefusal(grants, now).None? <==> forall g :: g in grants ==> g.approved && g.expiresAt > now
  {
    var k := FirstRefused(grants, now);
    if k < |grants| { assert grants[k] in grants; }
  }

  /** What is handed out at `now` the runtime takes at `later` exactly if none of it has expired by then. */
  lemma RuntimeAcceptsIff(s: Tables, broker: Broker, lab: Id, now: Time, later: Time)
    requires Materialize(s, broker, lab, now).Ok?
    ensures EnvironmentRefusal(Materialize(s, broker, lab, now).value, later).None?
       <==> forall x :: x in s.leases && Usable(s.leases[x], lab, now) ==> s.leases[x].expiresAt > later
  {
    MaterializesExactly(s, broker, lab, now);
    var ids, gs := UsableIds(s.leases, lab, now), Materialize(s, broker, lab, now).value;
    RefusalIff(gs, later);
    if forall g :: g in gs ==> g.approved && g.expiresAt > later {
      forall x | x in s.leases && Usable(s.leases[x], lab, now) ensures s.leases[x].expiresAt > later {
        var i :| 0 <= i < |ids| && ids[i] == x;
        assert gs[i] in gs;
      }
    }
    forall g | g in gs ensures g.approved && exists x :: x in ids && g.expiresAt == s.leases[x].expiresAt {
      var i :| 0 <= i < |gs| && gs[i] == g;
      assert ids[i] in ids;
    }
  }

  /** In particular at the same moment it takes all of it. */
  lemma RuntimeAgrees(s: Tables, broker: Broker, lab: Id, now: Time)
    requires Materialize(s, broker, lab, now).Ok?
    ensures EnvironmentRefusal(Materialize(s, broker, lab, now).value, now).None?
  {
    RuntimeAcceptsIff(s, broker, lab, now, now);
  }

  /** Some usable lease of the lab is for this secret. */
  ghost predicate Leased(s: Tables, lab: Id, now: Time, secret: string) {
    exists x :: x in s.leases && Usable(s.leases[x], lab, now) && s.leases[x].secret == secret
  }

  /** The names handed out are the leased secrets. */
  lemma NamesAreLeased(s: Tables, broker: Broker, lab: Id, now: Time, n: string)
    requires Materialize(s, broker, lab, now).Ok?
    ensures var gs := Materialize(s, broker, lab, now).value;
      (exists i :: 0 <= i < |gs| && gs[i].name == n) <==> Leased(s, lab, now, n)
  {
    MaterializesExactly(s, broker, lab, now);
    var ids, gs := UsableIds(s.leases, lab, now), Materialize(s, broker, lab, now).value;
    if i :| 0 <= i < |gs| && gs[i].name == n {
      assert ids[i] in ids;
    }
    if x :| x in s.leases && Usable(s.leases[x], lab, now) && s.leases[x].secret == n {
      var i :| 0 <= i < |ids| && ids[i] == x;
      assert gs[i].name == n;
    }
  }

  /** Every grant handed out carries its name's value in the broker. */
  lemma GrantsHoldSecrets(s: Tables, broker: Broker, lab: Id, now: Time)
    requires Materialize(s, broker, lab, now).Ok?
    ensures forall g :: g in Materialize(s, broker, lab, now).value ==> g.name in broker && g.value == broker[g.name]
  {
    MaterializesExactly(s, broker, lab, now);
    var ids := UsableIds(s.leases, lab, now);
    assert forall i :: 0 <= i < |ids| ==> ids[i] in ids;
  }

  /** The environment built from what is handed out binds each leased secret to its value, and nothing else. */
  lemma EnvironmentIsTheSecrets(s: Tables, broker: Broker, lab: Id, now: Time)
    requires Materialize(s, broker, lab, now).Ok?
    ensures var env := Bound(Materialize(s, broker, lab, now).value);
      && (forall n :: n in env <==> Leased(s, lab, now, n))
      && (forall n :: n in env ==> n in broker && env[n] == broker[n])
  {
    var gs := Materialize(s, broker, lab, now).value;
    BoundBinds(gs);
    GrantsHoldSecrets(s, broker, lab, now);
    var env := Bound(gs);
    forall n ensures n in env <==> Leased(s, lab, now, n) {
      NamesAreLeased(s, broker, lab, now, n);
    }
    forall n | n in env ensures n in broker && env[n] == broker[n] {
      var i :| 0 <= i < |gs| && gs[i].name == n;
      var last := LastNamed(gs, i);
      assert LastOfName(gs, last);
    }
  }

  lemma LastNamed(gs: seq<Grant>, i: nat) returns (last: nat)
    requires i < |gs|
    ensures LastOfName(gs, last) && gs[last].name == gs[i].name
    decreases |gs| - i
  {
    if j :| i < j < |gs| && gs[j].name == gs[i].name {
      last := LastNamed(gs, j);
    } else {
      last := i;
    }
  }

  // ---------- the reconciler's clock ----------

  lemma EndLeasesKeepsUsable(leases: map<Id, Lease>, lab: Id, now: Time, later: Time)
    requires now <= later
    ensures var after := R.EndLeases(leases, now);
      && R.LeaseRank(after) == R.LeaseRank(leases)
      && UsableIds(after, lab, later) == UsableIds(leases, lab, later)
      && forall x :: x in leases && Usable(leases[x], lab, later) ==> after[x] == leases[x]
  {
    var after := R.EndLeases(leases, now);
    assert R.LeaseRank(after) == R.LeaseRank(leases);
    assert UsableLeases(after, lab, later) == UsableLeases(leases, lab, later);
  }

  lemma {:induction false} GrantsFrame(a: map<Id, Lease>, b: map<Id, Lease>, broker: Broker, ids: seq<Id>)
    requires forall x :: x in ids ==> x in a && x in b && a[x] == b[x]
    ensures Grants(a, broker, ids) == Grants(b, broker, ids)
  {
    if ids != [] { GrantsFrame(a, b, broker, ids[1..]); }
  }

  /** A pass at `now` changes nothing in what is handed out then or later. */
  lemma PassKeepsHandout(s: Tables, broker: Broker, lab: Id, now: Time, later: Time, w: R.World, max: int)
    requires now <= later
    ensures Materialize(R.Reconcile(s, now, w, max), broker, lab, later) == Materialize(s, broker, lab, later)
  {
    var t := R.Reconcile(s, now, w, max);
    PassRows(s, now, w, max);
    EndLeasesKeepsUsable(s.leases, lab, now, later);
    UsableMembers(s.leases, lab, later);
    UsableMembers(t.leases, lab, later);
    GrantsFrame(s.leases, t.leases, broker, UsableIds(s.leases, lab, later));
  }

  // ---------- a lease ends once ----------

  const END_KINDS := {LeaseRevoked, LeaseExpired}

  /** How often the log says a lease ended. */
  function Ends(s: Tables, l: Id): nat { |Hist(s.events, END_KINDS, l)| }

  /** A lease that has ended has one event for it, and no other has any. */
  ghost predicate EndsOnce(s: Tables) {
    forall l :: Ends(s, l) == if l in s.leases && s.leases[l].revokedAt.Some? then 1 else 0
  }

  predicate TouchesLeases(step: Step) { step.IssueLease? || step.RevokeLease? || step.Reconcile? }

  lemma OthersKeepLeases(c: Config, s: Tables, step: Step)
    requires !TouchesLeases(step)
    ensures Next(c, s, step).leases == s.leases
  {
    StepFramed(c, s, step);
  }

  lemma NoEndKinds(step: Step)
    requires !TouchesJobs(step) && !TouchesLeases(step)
    ensures StepKinds(step) !! END_KINDS
  {
  }

  /** Enqueueing and dispatching log jobs' events and what callbacks log. */
  lemma QueueAppendsOnly(c: Config, s: Tables, step: Step)
    requires TouchesJobs(step)
    ensures AppendsOnly(s, Next(c, s, step), JOB_KINDS + CALLBACK_KINDS)
  {
    match step
    case Enqueue(request, job, now) => EnqueueAppendsOnly(c, s, request, job, now);
    case Dispatch(cb, now, done) => DispatchAppendsOnly(c, s, cb, now, done);
  }

  lemma EnqueueAppendsOnly(c: Config, s: Tables, request: Q.JobRequest, job: Id, now: Time)
    ensures AppendsOnly(s, Q.Enqueue(c, s, request, job, now).rows, JOB_KINDS + CALLBACK_KINDS)
  {
    var t, kinds := Q.Enqueue(c, s, request, job, now).rows, JOB_KINDS + CALLBACK_KINDS;
    if t.events == s.events { AppendsNothing(s, t, kinds); }
    else { AppendsOne(s, t, Event(JobEnqueued, job, None, Plain), kinds); }
  }

  lemma DispatchAppendsOnly(c: Config, s: Tables, cb: Q.Callback, now: Time, done: Time)
    ensures AppendsOnly(s, Q.Dispatch(c, s, cb, now, done).rows, JOB_KINDS + CALLBACK_KINDS)
  {
    var t := Q.Dispatch(c, s, cb, now, done).rows;
    Q.DueQueryMembers(s.jobs, now);
    var q := Q.DueQuery(s.jobs, now);
    if q == [] {
      AppendsNothing(s, t, JOB_KINDS + CALLBACK_KINDS);
    } else {
      DispatchAppends(c, s, cb, now, done);
      PairAppendsOnly(s, Q.RunJob(c, s, q[0], cb, now, done), t, q[0], t.jobs[q[0]]);
    }
  }

  lemma PairAppendsOnly(s: Tables, r: Tables, t: Tables, q: Id, row: Job)
    requires AppendsOnly(s, r, CALLBACK_KINDS)
    requires t.events == r.events + [Audit.Dispatched(q, row.attempts)] + [Closed(q, row.state, row.attempts)]
    ensures AppendsOnly(s, t, JOB_KINDS + CALLBACK_KINDS)
  {
    var log :| Appends(s, r, log) && OnlyKinds(log, CALLBACK_KINDS);
    var all := log + [Audit.Dispatched(q, row.attempts)] + [Closed(q, row.state, row.attempts)];
    assert Appends(s, t, all) && OnlyKinds(all, JOB_KINDS + CALLBACK_KINDS);
  }

  lemma OthersEndNothing(c: Config, s: Tables, step: Step, l: Id)
    requires !TouchesLeases(step)
    ensures Ends(Next(c, s, step), l) == Ends(s, l)
  {
    if TouchesJobs(step) {
      QueueAppendsOnly(c, s, step);
      HistUnmoved(s, Next(c, s, step), JOB_KINDS + CALLBACK_KINDS, END_KINDS, l);
    } else {
      StepAppendsOnly(c, s, step);
      NoEndKinds(step);
      HistUnmoved(s, Next(c, s, step), StepKinds(step), END_KINDS, l);
    }
  }

  lemma IssueEndsNothing(
    c: Config, b: Broker, s: Tables, lab: Id, secret: string, ttl: int, lease: Id, now: Time)
    requires EndsOnce(s)
    ensures EndsOnce(Issue(c, b, s, lab, secret, ttl, lease, now).rows)
  {
    var t := Issue(c, b, s, lab, secret, ttl, lease, now).rows;
    IssueAppends(c, b, s, lab, secret, ttl, lease, now);
    forall l ensures Ends(t, l) == Ends(s, l) { HistUnmoved(s, t, {LeaseIssued}, END_KINDS, l); }
  }

  lemma RevokeEndsOnce(s: Tables, lease: Id, now: Time)
    requires EndsOnce(s)
    ensures EndsOnce(Revoke(s, lease, now).rows)
  {
    var o := Revoke(s, lease, now);
    if o.error.None? {
      var e := Event(LeaseRevoked, lease, Some(s.leases[lease].lab), Plain);
      forall l ensures Ends(o.rows, l)
          == Ends(s, l) + |HistOne(e, END_KINDS, l)| { HistAppend(s.events, e, END_KINDS, l); }
    }
  }

  lemma PassEnds(s: Tables, now: Time, w: R.World, max: int, l: Id)
    ensures |Hist(PassLog(s, now, w, max), END_KINDS, l)|
         == if l in s.leases && R.LeaseDue(s.leases[l], now) then 1 else 0
  {
    var swept := R.Sweep(s, now);
    var retried := R.Retry(swept, w, max);
    PhasesEnd(s, swept, retried, R.ScanLabs(retried, w), now, w, max, l);
  }

  lemma PhasesEnd(
    s: Tables, swept: Tables, retried: Tables, labs: map<Id, Lab>, now: Time, w: R.World, max: int, l: Id)
    ensures |Hist(StaleLog(s, now) + LeasesLog(s, now) + RunsLog(s, now)
                  + RetriesLog(swept, w, max) + FaultsLog(retried, w) + FoundLog(labs, w), END_KINDS, l)|
         == if l in s.leases && R.LeaseDue(s.leases[l], now) then 1 else 0
  {
    SweepKinds(s, now);
    RetryLogKinds(swept, w, max);
    FaultKinds(retried, w);
    FoundKinds(labs, w);
    SecondOfSix(StaleLog(s, now), LeasesLog(s, now), RunsLog(s, now), RetriesLog(swept, w, max),
                FaultsLog(retried, w), FoundLog(labs, w), l);
    LeaseHist(s, now, l);
  }

  lemma SecondOfSix(
    a: seq<Event>, b: seq<Event>, c: seq<Event>, d: seq<Event>, e: seq<Event>, f: seq<Event>, id: Id)
    requires OnlyKinds(a, {ApprovalExpired}) && OnlyKinds(c, {RunTimedOut}) && OnlyKinds(d, RETRY_KINDS)
    requires OnlyKinds(e, {LabReconciliationFailed}) && OnlyKinds(f, INVENTORY_KINDS)
    ensures Hist(a + b + c + d + e + f, END_KINDS, id) == Hist(b, END_KINDS, id)
  {
    HistConcat(a, b, END_KINDS, id);
    OtherKinds(a, {ApprovalExpired}, END_KINDS, id, |a|);
    DropTail(a + b, c, {RunTimedOut}, END_KINDS, id);
    DropTail(a + b + c, d, RETRY_KINDS, END_KINDS, id);
    DropTail(a + b + c + d, e, {LabReconciliationFailed}, END_KINDS, id);
    DropTail(a + b + c + d + e, f, INVENTORY_KINDS, END_KINDS, id);
  }

  lemma LeaseHist(s: Tables, now: Time, l: Id)
    ensures Hist(LeasesLog(s, now), END_KINDS, l)
         == if l in s.leases then R.LeaseEvents(s.leases[l], l, now) else []
  {
    var rows, log := R.OpenLeaseQuery(s.leases), R.LeaseLog(s.leases, now);
    R.OpenLeaseQueryRows(s.leases);
    forall i | 0 <= i < |rows|
      ensures Hist(EntryOf(log, rows[i]), END_KINDS, l) == if rows[i] == l then EntryOf(log, l) else []
    {
      var x := rows[i];
      assert x in rows;
      HistOfOne(Event(LeaseExpired, x, Some(s.leases[x].lab), Plain), END_KINDS, l);
    }
    HistGather(rows, log, |rows|, END_KINDS, l);
    assert rows[..|rows|] == rows;
  }

  lemma PassEndsOnce(s: Tables, now: Time, w: R.World, max: int)
    requires EndsOnce(s)
    ensures EndsOnce(R.Reconcile(s, now, w, max))
  {
    var t, log := R.Reconcile(s, now, w, max), PassLog(s, now, w, max);
    PassAppends(s, now, w, max);
    PassRows(s, now, w, max);
    forall l ensures |Hist(log, END_KINDS, l)| == if l in s.leases && R.LeaseDue(s.leases[l], now) then 1 else 0 {
      PassEnds(s, now, w, max, l);
    }
    EndedOnce(s, t, log, now);
  }

  lemma EndedOnce(s: Tables, t: Tables, log: seq<Event>, now: Time)
    requires EndsOnce(s) && Appends(s, t, log) && t.leases == R.EndLeases(s.leases, now)
    requires forall l :: |Hist(log, END_KINDS, l)| == if l in s.leases && R.LeaseDue(s.leases[l], now) then 1 else 0
    ensures EndsOnce(t)
  {
    forall l ensures Ends(t, l) == if l in t.leases && t.leases[l].revokedAt.Some? then 1 else 0 {
      HistConcat(s.events, log, END_KINDS, l);
    }
  }

  lemma StepEndsOnce(c: Config, s: Tables, step: Step)
    requires EndsOnce(s)
    ensures EndsOnce(Next(c, s, step))
  {
    match step
    case IssueLease(broker, lab, secret, ttl, lease, now) =>
      IssueEndsNothing(c, broker, s, lab, secret, ttl, lease, now);
    case RevokeLease(lease, now) => RevokeEndsOnce(s, lease, now);
    case Reconcile(now, w) => PassEndsOnce(s, now, w, c.maxDestroyAttempts);
    case _ =>
      OthersKeepLeases(c, s, step);
      forall l ensures Ends(Next(c, s, step), l) == Ends(s, l) { OthersEndNothing(c, s, step, l); }
  }

  /** Over every run a lease ends at most once, by one revocation or one expiry, and exactly when its row says so. */
  lemma {:induction false} LeasesEndOnce(c: Config, steps: seq<Step>)
    ensures EndsOnce(RunFrom(c, EMPTY, steps))
  {
    if steps != [] {
      var n := |steps| - 1;
      LeasesEndOnce(c, steps[..n]);
      StepEndsOnce(c, RunFrom(c, EMPTY, steps[..n]), steps[n]);
    }
  }
}
