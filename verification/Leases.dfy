/** Secret leases: issuing, revoking, handing them to a runtime, and the environment built from them. */
module Leases {
  import opened Basics
  import opened Schema
  import opened Governance
  import R = Reconciler

  /** The configured secret values, by secret name. */
  type Broker = map<string, string>

  function Issue(
    c: Config, broker: Broker, s: Tables, lab: Id, secret: string, ttlMinutes: int, lease: Id, now: Time): Outcome
  {
    if ttlMinutes < 1 then Refused(s, TtlTooShort)
    else if lab !in s.labs then Refused(s, LabMissing)
    else if s.labs[lab].profile !in c.profiles then Refused(s, ProfileMissing)
    else if secret !in c.profiles[s.labs[lab].profile].allowedSecrets then Refused(s, SecretNotAllowed)
    else if secret !in broker then Refused(s, SecretMissing)
    else if lease in s.leases then Refused(s, IntegrityError)
    else Done(s.(leases := s.leases[lease := Lease(lab, secret, true, now + ttlMinutes * 60, None, now)],
                 events := s.events + [Event(LeaseIssued, lease, Some(lab), Plain)]))
  }

  function Revoke(s: Tables, lease: Id, now: Time): Outcome {
    if lease !in s.leases then Refused(s, LeaseMissing)
    else if s.leases[lease].revokedAt.Some? then Refused(s, LeaseAlreadyRevoked)
    else Done(s.(leases := s.leases[lease := s.leases[lease].(revokedAt := Some(now))],
                 events := s.events + [Event(LeaseRevoked, lease, Some(s.leases[lease].lab), Plain)]))
  }

  // ---------- handing leases to a runtime ----------

  /** A materialised lease, as the runtime receives it. */
  datatype Grant = Grant(name: string, value: string, approved: bool, expiresAt: Time)

  predicate Usable(l: Lease, lab: Id, now: Time) {
    l.lab == lab && l.approved && l.revokedAt.None? && l.expiresAt > now
  }

  function UsableLeases(leases: map<Id, Lease>, lab: Id, now: Time): set<Id> {
    set x | x in leases && Usable(leases[x], lab, now)
  }

  function UsableIds(leases: map<Id, Lease>, lab: Id, now: Time): seq<Id> {
    OrderBy(UsableLeases(leases, lab, now), R.LeaseRank(leases))
  }

  lemma UsableMembers(leases: map<Id, Lease>, lab: Id, now: Time)
    ensures forall x :: x in UsableIds(leases, lab, now) <==> x in leases && Usable(leases[x], lab, now)
  {
    OrderByMembers(UsableLeases(leases, lab, now), R.LeaseRank(leases));
  }

  /** The grants for these leases, in order; refused if some secret has no value. */
  function Grants(leases: map<Id, Lease>, broker: Broker, ids: seq<Id>): Result<seq<Grant>, Error>
    requires forall x :: x in ids ==> x in leases
  {
    if ids == [] then Ok([])
    else
      var l := leases[ids[0]];
      if l.secret !in broker then Err(SecretMissing)
      else
        match Grants(leases, broker, ids[1..])
        case Err(e) => Err(e)
        case Ok(rest) => Ok([Grant(l.secret, broker[l.secret], l.approved, l.expiresAt)] + rest)
  }

  function Materialize(s: Tables, broker: Broker, lab: Id, now: Time): Result<seq<Grant>, Error> {
    UsableMembers(s.leases, lab, now);
    Grants(s.leases, broker, UsableIds(s.leases, lab, now))
  }

  datatype EnvironmentError = NotApproved(lease: string) | HasExpired(lease: string)

  /** The index of the first grant the runtime refuses at `now`, or the length of the list. */
  function FirstRefused(grants: seq<Grant>, now: Time): (k: nat)
    ensures k <= |grants|
    ensures forall i :: 0 <= i < k ==> grants[i].approved && grants[i].expiresAt > now
    ensures k < |grants| ==> !grants[k].approved || grants[k].expiresAt <= now
  {
    if grants == [] then 0
    else if !grants[0].approved || grants[0].expiresAt <= now then 0
    else
      var rest := FirstRefused(grants[1..], now);
      assert forall i :: 0 < i <= rest && i < |grants| ==> grants[i] == grants[1..][i - 1];
      1 + rest
  }

  /** `grants[i]` is the last one of its name. */
  predicate LastOfName(grants: seq<Grant>, i: nat) {
    i < |grants| && forall j :: i < j < |grants| ==> grants[j].name != grants[i].name
  }

  /** Each name that is granted is bound to the value of its last grant, and nothing else is bound. */
  ghost predicate Binds(env: map<string, string>, grants: seq<Grant>) {
    && (forall n :: n in env <==> exists i :: 0 <= i < |grants| && grants[i].name == n)
    && (forall i: nat :: LastOfName(grants, i) ==> grants[i].name in env && env[grants[i].name] == grants[i].value)
  }

  /** The environment after binding every grant in turn. */
  function Bound(grants: seq<Grant>): map<string, string> {
    if grants == [] then map[]
    else
      var last := grants[|grants| - 1];
      Bound(grants[..|grants| - 1])[last.name := last.value]
  }

  lemma {:induction false} BoundBinds(grants: seq<Grant>)
    ensures Binds(Bound(grants), grants)
  {
    if grants != [] {
      var n := |grants| - 1;
      BoundBinds(grants[..n]);
      BindsStep(Bound(grants[..n]), grants, n);
      assert grants[..n + 1] == grants;
    }
  }

  /** What a runtime refuses, or None if it takes all grants. */
  function EnvironmentRefusal(grants: seq<Grant>, now: Time): Option<EnvironmentError> {
    var k := FirstRefused(grants, now);
    if k == |grants| then None
    else Some(if !grants[k].approved then NotApproved(grants[k].name) else HasExpired(grants[k].name))
  }

  lemma BindsStep(env: map<string, string>, grants: seq<Grant>, i: nat)
    requires i < |grants| && Binds(env, grants[..i])
    ensures Binds(env[grants[i].name := grants[i].value], grants[..i + 1])
  {
    var g, now := grants[..i], grants[..i + 1];
    var env' := env[grants[i].name := grants[i].value];
    forall n ensures n in env' <==> exists j :: 0 <= j < |now| && now[j].name == n {
      if n in env {
        var j :| 0 <= j < |g| && g[j].name == n;
        assert now[j].name == n;
      }
      if n == grants[i].name { assert now[i].name == n; }
      if j :| 0 <= j < |now| && now[j].name == n {
        if j < i { assert g[j].name == n; }
      }
    }
    forall j: nat | LastOfName(now, j)
      ensures now[j].name in env' && env'[now[j].name] == now[j].value
    {
      if j < i {
        assert now[i].name != now[j].name;
        assert forall k :: j < k < |g| ==> g[k] == now[k];
        assert g[j] == now[j] && LastOfName(g, j);
      }
    }
  }
}
