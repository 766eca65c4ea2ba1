/** Destroy retries run out whatever the destroyer does, and the log accounts for every attempt. */
module DestroyLaws {
  import opened Basics
  import opened Schema
  import opened Reconciler
  import opened ReconcilerLaws
  import opened ReportLaws

  predicate BeingDestroyed(s: Tables, l: Id) { l in s.labs && s.labs[l].state.Destroying? }

  /** The destroyer is there, the lab's row says where its storage is, and the attempt raises. */
  predicate FailedAttempt(s: Tables, w: World, l: Id) {
    BeingDestroyed(s, l) && l in s.storage && w.destroyer.Some? && l in w.destroyer.value
  }

  predicate Attempted(s: Tables, w: World, l: Id) {
    BeingDestroyed(s, l) && l in s.storage && w.destroyer.Some?
  }

  // ---------- one pass ----------

  /** A lab being destroyed outlives a pass only by failing short of the limit with its root still there. */
  predicate Survives(s: Tables, w: World, max: int, l: Id)
    requires BeingDestroyed(s, l)
  {
    && (w.destroyer.Some? ==> FailedAttempt(s, w, l) && s.labs[l].destroyAttempts + 1 < max)
    && l in s.storage
    && s.storage[l].root in w.existing
  }

  lemma PassAttempts(s: Tables, now: Time, w: World, max: int, l: Id)
    requires l in s.labs
    ensures var t := Reconcile(s, now, w, max);
      && l in t.labs && t.storage == s.storage
      && (BeingDestroyed(t, l) <==> BeingDestroyed(s, l) && Survives(s, w, max, l))
      && t.labs[l].destroyAttempts == s.labs[l].destroyAttempts + (if Attempted(s, w, l) then 1 else 0)
  {
    PassRows(s, now, w, max);
    PassLabs(s, now, w, max);
    RowAttempts(s, now, w, max, l);
  }

  lemma RowAttempts(s: Tables, now: Time, w: World, max: int, l: Id)
    requires l in s.labs
    ensures var after := ScanLab(RetriedLab(s, now, w, max, l), FaultIn(s.storage, w.existing, l));
      && (after.state.Destroying? <==> BeingDestroyed(s, l) && Survives(s, w, max, l))
      && after.destroyAttempts == s.labs[l].destroyAttempts + (if Attempted(s, w, l) then 1 else 0)
  {
  }

  lemma RetryHist(s: Tables, w: World, max: int, l: Id, k: EventKind)
    requires l in s.labs && (k.LabDestroyed? || k.LabDestroyRetryFailed?)
    ensures |Hist(RetriesLog(s, w, max), {k}, l)|
         == if Attempted(s, w, l) && (k.LabDestroyed? <==> l !in w.destroyer.value) then 1 else 0
  {
    if w.destroyer.Some? {
      var failures, rows := w.destroyer.value, DestroyingQuery(s.labs);
      var log := RetryLog(s, failures, max);
      DestroyingQueryRows(s.labs);
      forall i | 0 <= i < |rows|
        ensures rows[i] != l ==> Hist(EntryOf(log, rows[i]), {k}, l) == []
      {
        var x := rows[i];
        assert x in rows;
        RetryEntryCounts(Retried(s, failures, max, x), x in s.storage, Failure(failures, x), x, l);
      }
      HistGather(rows, log, |rows|, {k}, l);
      assert rows[..|rows|] == rows;
      if BeingDestroyed(s, l) {
        RetryEntryCounts(Retried(s, failures, max, l), l in s.storage, Failure(failures, l), l, l);
      }
    }
  }

  /** One pass logs one event for each attempt on a lab: its success or its failure. */
  lemma PassLogsAttempt(s: Tables, now: Time, w: World, max: int, l: Id)
    requires l in s.labs
    ensures var log := PassLog(s, now, w, max);
      && |Hist(log, {LabDestroyRetryFailed}, l)| == (if FailedAttempt(s, w, l) then 1 else 0)
      && |Hist(log, {LabDestroyed}, l)| == (if Attempted(s, w, l) && !FailedAttempt(s, w, l) then 1 else 0)
  {
    SweepRows(s, now);
    AttemptInPhases(s, Sweep(s, now), Retry(Sweep(s, now), w, max), now, w, max, l);
  }

  lemma AttemptInPhases(s: Tables, swept: Tables, retried: Tables, now: Time, w: World, max: int, l: Id)
    requires l in s.labs
    requires swept.labs == ExpireLabs(s, StaleIds(s.approvals, now)) && swept.storage == s.storage
    ensures var log := StaleLog(s, now) + LeasesLog(s, now) + RunsLog(s, now)
                       + RetriesLog(swept, w, max) + FaultsLog(retried, w) + FoundLog(ScanLabs(retried, w), w);
      && |Hist(log, {LabDestroyRetryFailed}, l)| == (if FailedAttempt(s, w, l) then 1 else 0)
      && |Hist(log, {LabDestroyed}, l)| == (if Attempted(s, w, l) && !FailedAttempt(s, w, l) then 1 else 0)
  {
    SweepKinds(s, now);
    RetryLogKinds(swept, w, max);
    FaultKinds(retried, w);
    FoundKinds(ScanLabs(retried, w), w);
    KindsInSix(StaleLog(s, now), LeasesLog(s, now), RunsLog(s, now), RetriesLog(swept, w, max),
               FaultsLog(retried, w), FoundLog(ScanLabs(retried, w), w), l);
    RetryHist(swept, w, max, l, LabDestroyed);
    RetryHist(swept, w, max, l, LabDestroyRetryFailed);
    assert swept.labs[l] == SweptLab(s, now, l);
  }

  // ---------- any number of passes ----------

  /** How many attempts on this lab fail while the passes run. */
  function FailedAttempts(s: Tables, ps: seq<Pass>, max: int, l: Id): nat
    decreases |ps|
  {
    if ps == [] then 0
    else
      (if FailedAttempt(s, ps[0].world, l) then 1 else 0)
      + FailedAttempts(Reconcile(s, ps[0].now, ps[0].world, max), ps[1..], max, l)
  }

  /** What the log says was attempted. */
  function FailuresLogged(s: Tables, l: Id): nat { |Hist(s.events, {LabDestroyRetryFailed}, l)| }

  function SuccessesLogged(s: Tables, l: Id): nat { |Hist(s.events, {LabDestroyed}, l)| }

  lemma PassAccounts(s: Tables, now: Time, w: World, max: int, l: Id)
    requires l in s.labs
    ensures var t := Reconcile(s, now, w, max);
      && FailuresLogged(t, l) == FailuresLogged(s, l) + (if FailedAttempt(s, w, l) then 1 else 0)
      && SuccessesLogged(t, l)
         == SuccessesLogged(s, l) + (if Attempted(s, w, l) && !FailedAttempt(s, w, l) then 1 else 0)
  {
    PassAppends(s, now, w, max);
    PassLogsAttempt(s, now, w, max, l);
    HistConcat(s.events, PassLog(s, now, w, max), {LabDestroyRetryFailed}, l);
    HistConcat(s.events, PassLog(s, now, w, max), {LabDestroyed}, l);
  }

  /**
   * Over any passes with any destroyer: attempts never go down, every failed attempt is logged once, and the
   * attempts made are the failures and the successes logged.
   */
  lemma {:induction false} AttemptsAreLogged(s: Tables, ps: seq<Pass>, max: int, l: Id)
    requires l in s.labs
    ensures var t := RunPasses(s, ps, max);
      && l in t.labs
      && t.labs[l].destroyAttempts >= s.labs[l].destroyAttempts
      && FailuresLogged(t, l) == FailuresLogged(s, l) + FailedAttempts(s, ps, max, l)
      && t.labs[l].destroyAttempts - s.labs[l].destroyAttempts
         == (FailuresLogged(t, l) - FailuresLogged(s, l)) + (SuccessesLogged(t, l) - SuccessesLogged(s, l))
    decreases |ps|
  {
    if ps != [] {
      var first := Reconcile(s, ps[0].now, ps[0].world, max);
      PassAttempts(s, ps[0].now, ps[0].world, max, l);
      PassAccounts(s, ps[0].now, ps[0].world, max, l);
      AttemptsAreLogged(first, ps[1..], max, l);
    }
  }

  /** Every pass has a destroyer; what it does is up to it. */
  predicate WithDestroyer(ps: seq<Pass>) { forall i :: 0 <= i < |ps| ==> ps[i].world.destroyer.Some? }

  /** In every pass the destroyer fails on this lab and its root is still there. */
  predicate NeverDestroys(ps: seq<Pass>, root: Path, l: Id)
    requires WithDestroyer(ps)
  {
    forall i :: 0 <= i < |ps| ==> l in ps[i].world.destroyer.value && root in ps[i].world.existing
  }

  lemma {:induction false} OnceOutNeverBack(s: Tables, ps: seq<Pass>, max: int, l: Id)
    requires l in s.labs && !BeingDestroyed(s, l)
    ensures !BeingDestroyed(RunPasses(s, ps, max), l)
    decreases |ps|
  {
    if ps != [] {
      PassAttempts(s, ps[0].now, ps[0].world, max, l);
      OnceOutNeverBack(Reconcile(s, ps[0].now, ps[0].world, max), ps[1..], max, l);
    }
  }

  /** Exactly when a lab is still being destroyed after some passes. */
  lemma {:induction false} StillDestroyingIff(s: Tables, ps: seq<Pass>, max: int, l: Id)
    requires BeingDestroyed(s, l) && ps != [] && WithDestroyer(ps)
    ensures BeingDestroyed(RunPasses(s, ps, max), l) <==>
      l in s.storage && NeverDestroys(ps, s.storage[l].root, l) && s.labs[l].destroyAttempts + |ps| < max
    decreases |ps|
  {
    var first, rest := Reconcile(s, ps[0].now, ps[0].world, max), ps[1..];
    PassAttempts(s, ps[0].now, ps[0].world, max, l);
    if l in s.storage { NeverDestroysCons(ps, s.storage[l].root, l); }
    if !BeingDestroyed(first, l) {
      OnceOutNeverBack(first, rest, max, l);
    } else if rest != [] {
      StillDestroyingIff(first, rest, max, l);
    } else {
      assert RunPasses(first, rest, max) == first;
    }
  }

  lemma NeverDestroysCons(ps: seq<Pass>, root: Path, l: Id)
    requires ps != [] && WithDestroyer(ps)
    ensures WithDestroyer(ps[1..])
    ensures NeverDestroys(ps, root, l) <==>
      l in ps[0].world.destroyer.value && root in ps[0].world.existing && NeverDestroys(ps[1..], root, l)
  {
    assert forall i :: 0 < i < |ps| ==> ps[i] == ps[1..][i - 1];
  }

  /** Whatever the destroyer does, a lab stops being destroyed within max(1, limit - attempts) passes. */
  lemma DestroyRetriesEnd(s: Tables, ps: seq<Pass>, max: int, l: Id)
    requires BeingDestroyed(s, l) && WithDestroyer(ps)
    requires |ps| >= 1 && |ps| >= max - s.labs[l].destroyAttempts
    ensures !BeingDestroyed(RunPasses(s, ps, max), l)
  {
    StillDestroyingIff(s, ps, max, l);
  }
}
