/** The event log replays exports: staged once, then blocked or denied any number of times, released at most once. */
module ExportAudit {
  import opened Basics
  import opened Schema
  import opened Policy
  import opened Governance
  import opened ControlPlane
  import opened GovernanceLaws
  import opened ReconcilerLaws
  import opened ReportLaws
  import opened SchedulerLaws
  import opened Audit
  import opened LeaseLaws
  import opened ReleaseSafety

  const EXPORT_KINDS := {ExportRequested, ExportStaged, ExportReleased, ExportReleaseBlocked, ExportDenied}

  /** What may happen to an export between its staging and its release, over and over. */
  const HELD_KINDS := {ExportReleaseBlocked, ExportDenied}

  function ExportLog(s: Tables, e: Id): seq<Event> { Hist(s.events, EXPORT_KINDS, e) }

  function Opening(e: Id, x: Export): seq<Event> {
    [Event(ExportRequested, e, Some(x.lab), Plain)] + [Event(ExportStaged, e, Some(x.lab), Plain)]
  }

  function Closing(e: Id, x: Export): seq<Event> {
    if x.state.Released? then [Event(ExportReleased, e, Some(x.lab), Plain)] else []
  }

  /** Requested and staged once, first; released once, last, if and only if the row is RELEASED. */
  predicate ExportStory(log: seq<Event>, e: Id, x: Export) {
    var n := |log| - |Closing(e, x)|;
    2 <= n && log[..2] == Opening(e, x) && OnlyKinds(log[2..n], HELD_KINDS) && log[n..] == Closing(e, x)
  }

  ghost predicate ExportsReplay(s: Tables) {
    forall e :: if e in s.exports then ExportStory(ExportLog(s, e), e, s.exports[e]) else ExportLog(s, e) == []
  }

  // ---------- one more event ----------

  lemma StagedStory(e: Id, x: Export)
    requires !x.state.Released?
    ensures ExportStory(Opening(e, x), e, x)
  {
  }

  lemma HeldStory(log: seq<Event>, e: Id, x: Export, y: Export, held: Event)
    requires ExportStory(log, e, x) && !x.state.Released? && !y.state.Released? && y.lab == x.lab
    requires held.kind in HELD_KINDS
    ensures ExportStory(log + [held], e, y)
  {
    var grown := log + [held];
    assert grown[..2] == log[..2] && grown[2..|grown|] == log[2..|log|] + [held] && grown[|grown|..] == [];
  }

  lemma ReleasedStory(log: seq<Event>, e: Id, x: Export, y: Export)
    requires ExportStory(log, e, x) && !x.state.Released? && y.state.Released? && y.lab == x.lab
    ensures ExportStory(log + Closing(e, y), e, y)
  {
    var grown := log + Closing(e, y);
    assert grown[..2] == log[..2] && grown[2..|log|] == log[2..|log|] && grown[|log|..] == Closing(e, y);
  }

  lemma SameStory(log: seq<Event>, e: Id, x: Export, y: Export)
    requires ExportStory(log, e, x) && y.lab == x.lab && (y.state.Released? <==> x.state.Released?)
    ensures ExportStory(log, e, y)
  {
  }

  // ---------- each step ----------

  /** The rows may have changed, but no export changed labs, appeared, was released or ceased to be. */
  ghost predicate SameReleases(s: Tables, t: Tables) {
    && t.exports.Keys == s.exports.Keys
    && forall e :: e in s.exports ==>
         t.exports[e].lab == s.exports[e].lab && (t.exports[e].state.Released? <==> s.exports[e].state.Released?)
  }

  lemma QuietReplays(s: Tables, t: Tables, kinds: set<EventKind>)
    requires ExportsReplay(s) && SameReleases(s, t)
    requires AppendsOnly(s, t, kinds) && kinds !! EXPORT_KINDS
    ensures ExportsReplay(t)
  {
    forall e ensures if e in t.exports then ExportStory(ExportLog(t, e), e, t.exports[e]) else ExportLog(t, e) == [] {
      HistUnmoved(s, t, kinds, EXPORT_KINDS, e);
      if e in s.exports { SameStory(ExportLog(s, e), e, s.exports[e], t.exports[e]); }
    }
  }

  /** One export's row and log move; the others stay. */
  lemma OneReplays(s: Tables, t: Tables, e: Id, log: seq<Event>)
    requires ExportsReplay(s) && e in t.exports && t.exports == s.exports[e := t.exports[e]]
    requires forall x :: ExportLog(t, x) == ExportLog(s, x) + (if x == e then log else [])
    requires ExportStory(ExportLog(s, e) + log, e, t.exports[e])
    ensures ExportsReplay(t)
  {
    forall x ensures if x in t.exports then ExportStory(ExportLog(t, x), x, t.exports[x]) else ExportLog(t, x) == [] {
      if x != e {
        assert ExportLog(t, x) == ExportLog(s, x);
        assert if x in s.exports then ExportStory(ExportLog(s, x), x, s.exports[x]) else ExportLog(s, x) == [];
      }
    }
  }

  lemma OneLogged(s: Tables, t: Tables, e: Event)
    requires t.events == s.events + [e] && e.kind in EXPORT_KINDS
    ensures forall x :: ExportLog(t, x) == ExportLog(s, x) + (if x == e.resource then [e] else [])
  {
    forall x ensures ExportLog(t, x) == ExportLog(s, x) + (if x == e.resource then [e] else []) {
      HistAppend(s.events, e, EXPORT_KINDS, x);
    }
  }

  lemma StageLogged(s: Tables, t: Tables, e: Id, row: Export, gated: bool, g: Id)
    requires Appends(s, t, Opening(e, row)
                           + (if gated then [Event(ApprovalRequested, g, Some(row.lab), Plain)] else []))
    ensures forall x :: ExportLog(t, x) == ExportLog(s, x) + (if x == e then Opening(e, row) else [])
  {
    var asked := if gated then [Event(ApprovalRequested, g, Some(row.lab), Plain)] else [];
    var a, b := Event(ExportRequested, e, Some(row.lab), Plain), Event(ExportStaged, e, Some(row.lab), Plain);
    forall x ensures ExportLog(t, x) == ExportLog(s, x) + (if x == e then Opening(e, row) else []) {
      HistConcat(s.events, Opening(e, row) + asked, EXPORT_KINDS, x);
      HistConcat(Opening(e, row), asked, EXPORT_KINDS, x);
      OtherKinds(asked, {ApprovalRequested}, EXPORT_KINDS, x, |asked|);
      HistAppend([a], b, EXPORT_KINDS, x);
      HistOfOne(a, EXPORT_KINDS, x);
    }
  }

  lemma StageReplaysExports(
    c: Config, s: Tables, lab: Id, source: string, run: Option<Id>, d: ExportDraft, now: Time)
    requires ExportsReplay(s)
    ensures ExportsReplay(CreateExport(c, s, lab, source, run, d, now).rows)
  {
    var o := CreateExport(c, s, lab, source, run, d, now);
    if o.error.None? {
      StageExportAdds(c, s, lab, source, run, d, now);
      StageLog(c, s, lab, source, run, d, now);
      NewRow(c, s, lab, source, run, d, now);
      var row := o.rows.exports[d.exportId];
      StageLogged(s, o.rows, d.exportId, row, row.approvalRequired, d.approvalId);
      StagedStory(d.exportId, row);
      assert ExportLog(s, d.exportId) + Opening(d.exportId, row) == Opening(d.exportId, row);
      OneReplays(s, o.rows, d.exportId, Opening(d.exportId, row));
    }
  }

  lemma NewRow(c: Config, s: Tables, lab: Id, source: string, run: Option<Id>, d: ExportDraft, now: Time)
    requires CreateExport(c, s, lab, source, run, d, now).error.None?
    ensures var t := CreateExport(c, s, lab, source, run, d, now).rows;
      && d.exportId !in s.exports && d.exportId in t.exports
      && t.exports == s.exports[d.exportId := t.exports[d.exportId]]
      && t.exports[d.exportId].lab == lab && t.exports[d.exportId].state.Quarantined?
  {
  }

  lemma ReleaseReplays(s: Tables, e: Id, present: bool)
    requires ExportsReplay(s)
    ensures ExportsReplay(Governance.ReleaseExport(s, e, present).rows)
  {
    var t := Governance.ReleaseExport(s, e, present).rows;
    if t != s {
      ReleaseRow(s, e, present);
      if t.exports[e].state.Released? {
        OneLogged(s, t, Event(ExportReleased, e, Some(s.exports[e].lab), Plain));
        ReleasedStory(ExportLog(s, e), e, s.exports[e], t.exports[e]);
        OneReplays(s, t, e, Closing(e, t.exports[e]));
      } else {
        HeldReplays(s, t, e, Event(ExportReleaseBlocked, e, Some(s.exports[e].lab), Plain));
      }
    }
  }

  /** A release call that writes anything releases the export or logs that it is blocked. */
  lemma ReleaseRow(s: Tables, e: Id, present: bool)
    requires Governance.ReleaseExport(s, e, present).rows != s
    ensures var t := Governance.ReleaseExport(s, e, present).rows;
      && e in s.exports && e in t.exports && t.exports == s.exports[e := t.exports[e]]
      && !s.exports[e].state.Released? && t.exports[e].lab == s.exports[e].lab
      && t.events == s.events + [Event(if t.exports[e].state.Released? then ExportReleased else ExportReleaseBlocked,
                                       e, Some(s.exports[e].lab), Plain)]
  {
  }

  lemma HeldReplays(s: Tables, t: Tables, e: Id, held: Event)
    requires ExportsReplay(s) && e in s.exports && e in t.exports && t.exports == s.exports[e := t.exports[e]]
    requires !s.exports[e].state.Released? && !t.exports[e].state.Released? && t.exports[e].lab == s.exports[e].lab
    requires t.events == s.events + [held] && held.kind in HELD_KINDS && held.resource == e
    ensures ExportsReplay(t)
  {
    OneLogged(s, t, held);
    HeldStory(ExportLog(s, e), e, s.exports[e], t.exports[e], held);
    OneReplays(s, t, e, [held]);
  }

  lemma DenyReplays(s: Tables, e: Id, reason: string)
    requires ExportsReplay(s)
    ensures ExportsReplay(Governance.DenyExport(s, e, reason).rows)
  {
    var t := Governance.DenyExport(s, e, reason).rows;
    if t != s {
      HeldReplays(s, t, e, Event(ExportDenied, e, Some(s.exports[e].lab), Plain));
    }
  }

  /** A decision and a pass never reach a released export, whatever they overwrite. */
  lemma DecideSameReleases(
    c: Config, s: Tables, a: Id, d: Decision, actor: string, comment: Option<string>, now: Time)
    requires Inv(c, s)
    ensures SameReleases(s, Governance.Decide(s, a, d, actor, comment, now).rows)
  {
    DecideReleasesNothing(s, a, d, actor, comment, now);
    forall e | e in s.exports && s.exports[e].state.Released?
      ensures Governance.Decide(s, a, d, actor, comment, now).rows.exports[e] == s.exports[e]
    {
      ReleasedIsSettled(c, s, e);
      DecideKeepsSettled(s, a, d, actor, comment, now, e);
    }
  }

  lemma DecideReleasesNothing(
    s: Tables, a: Id, d: Decision, actor: string, comment: Option<string>, now: Time)
    ensures var t := Governance.Decide(s, a, d, actor, comment, now).rows;
      && t.exports.Keys == s.exports.Keys
      && forall e :: e in s.exports ==>
           t.exports[e].lab == s.exports[e].lab && (t.exports[e].state.Released? ==> s.exports[e].state.Released?)
  {
  }

  lemma PassSameReleases(c: Config, s: Tables, now: Time, w: R.World, max: int)
    requires Inv(c, s)
    ensures SameReleases(s, R.Reconcile(s, now, w, max))
  {
    PassRows(s, now, w, max);
    forall e | e in s.exports && s.exports[e].state.Released?
      ensures !R.Targeted(s.approvals, R.StaleIds(s.approvals, now), ExportResource, e)
    {
      ReleasedIsSettled(c, s, e);
    }
    ExpirySameReleases(s, R.Reconcile(s, now, w, max), R.StaleIds(s.approvals, now));
  }

  lemma ExpirySameReleases(s: Tables, t: Tables, ids: set<Id>)
    requires t.exports == R.ExpireExports(s, ids)
    requires forall e :: e in s.exports && s.exports[e].state.Released? ==>
      !R.Targeted(s.approvals, ids, ExportResource, e)
    ensures SameReleases(s, t)
  {
  }

  predicate WritesExports(step: Step) { step.StageExport? || step.ReleaseExport? || step.DenyExport? }

  lemma NoExportKinds(step: Step)
    requires !TouchesJobs(step) && !WritesExports(step)
    ensures StepKinds(step) !! EXPORT_KINDS
  {
  }

  lemma OthersReplay(c: Config, s: Tables, step: Step)
    requires ExportsReplay(s) && !WritesExports(step) && SameReleases(s, Next(c, s, step))
    ensures ExportsReplay(Next(c, s, step))
  {
    if TouchesJobs(step) {
      QueueAppendsOnly(c, s, step);
      QuietReplays(s, Next(c, s, step), JOB_KINDS + CALLBACK_KINDS);
    } else {
      StepAppendsOnly(c, s, step);
      NoExportKinds(step);
      QuietReplays(s, Next(c, s, step), StepKinds(step));
    }
  }

  lemma OthersSameReleases(c: Config, s: Tables, step: Step)
    requires Inv(c, s) && !WritesExports(step)
    ensures SameReleases(s, Next(c, s, step))
  {
    match step
    case Decide(a, d, actor, comment, now) => DecideSameReleases(c, s, a, d, actor, comment, now);
    case Reconcile(now, w) => PassSameReleases(c, s, now, w, c.maxDestroyAttempts);
    case _ => StepFramed(c, s, step);
  }

  lemma StepReplaysExports(c: Config, s: Tables, step: Step)
    requires Inv(c, s) && ExportsReplay(s)
    ensures ExportsReplay(Next(c, s, step))
  {
    match step
    case StageExport(lab, source, run, draft, now) => StageReplaysExports(c, s, lab, source, run, draft, now);
    case ReleaseExport(e, present) => ReleaseReplays(s, e, present);
    case DenyExport(e, reason) => DenyReplays(s, e, reason);
    case _ =>
      OthersSameReleases(c, s, step);
      OthersReplay(c, s, step);
  }

  /**
   * Over every run: the log holds about each export one requested and one staged event, first, then blocked and
   * denied ones only, and at the end one released event if and only if its row is RELEASED; and nothing of the kind
   * about anything else.
   */
  lemma {:induction false} ExportLogReplays(c: Config, steps: seq<Step>)
    requires ValidRegistry(c.profiles)
    ensures ExportsReplay(RunFrom(c, EMPTY, steps))
  {
    if steps != [] {
      var n := |steps| - 1;
      ExportLogReplays(c, steps[..n]);
      RunKeeps(c, EMPTY, steps[..n]);
      StepReplaysExports(c, RunFrom(c, EMPTY, steps[..n]), steps[n]);
    }
  }
}
