/** What a creation or a destruction of a lab leaves in the engine, in the terms of what was asked for. */
module DockerLaws {
  import opened Basics
  import opened Policy
  import opened Leases
  import opened DockerRuntime

  /** The names a lab's network and container go by. */
  function NetName(lab: Id): string { "labos-net-" + Label(lab) }

  function BoxName(lab: Id): string { "labos-" + Label(lab) }

  /** The network of a lab of this mode, if it has one. */
  function NetOf(lab: Id, mode: NetworkMode): Option<string> {
    if mode == NetworkMode.Deny then None else Some(NetName(lab))
  }

  /** One of the first `n` mounts is of this volume. */
  predicate Mounts(mounts: seq<ManagedMount>, n: nat, v: string)
    requires n <= |mounts|
  {
    exists i :: 0 <= i < n && mounts[i].source == v
  }

  lemma MountsNext(mounts: seq<ManagedMount>, n: nat, v: string)
    requires 0 < n <= |mounts|
    ensures Mounts(mounts, n, v) <==> Mounts(mounts, n - 1, v) || v == mounts[n - 1].source
  {
  }

  /** Where and how the last of the first `n` mounts of this volume wants it, if there is one. */
  function LastMount(mounts: seq<ManagedMount>, n: nat, v: string): Option<Bind>
    requires n <= |mounts|
  {
    if n == 0 then None
    else if mounts[n - 1].source == v then Some(Bind(mounts[n - 1].target, mounts[n - 1].readOnly))
    else LastMount(mounts, n - 1, v)
  }

  function BindOf(binds: map<string, Bind>, v: string): Option<Bind> { if v in binds then Some(binds[v]) else None }

  lemma {:induction false} MountedAsAsked(mounts: seq<ManagedMount>, n: nat, v: string)
    requires n <= |mounts|
    ensures BindOf(Mounted(mounts, n), v) == LastMount(mounts, n, v)
  {
    if n > 0 { MountedAsAsked(mounts, n - 1, v); }
  }

  /** A container as asked for: its image, network, secrets, mounts, and whether it may write. */
  ghost predicate AsAsked(k: Container, lab: Id, spec: RuntimeSpec) {
    && k.image == spec.image && k.lab == lab && k.readOnly == spec.ephemeral
    && k.network == NetOf(lab, spec.network)
    && Binds(k.environment, spec.leases)
    && (forall v :: BindOf(k.binds, v) == LastMount(spec.mounts, |spec.mounts|, v))
  }

  /** The volumes once `n` of those mounted were asked for: the old ones as they were, the new ones the lab's, empty. */
  ghost predicate VolumesAsked(
    before: map<string, Volume>, after: map<string, Volume>, mounts: seq<ManagedMount>, n: nat, lab: Id)
    requires n <= |mounts|
  {
    && (forall v :: v in after <==> v in before || Mounts(mounts, n, v))
    && (forall v :: v in after ==> after[v] == if v in before then before[v] else Volume(lab, ""))
  }

  lemma {:induction false} EnsuredAsAsked(volumes: map<string, Volume>, mounts: seq<ManagedMount>, lab: Id, n: nat)
    requires n <= |mounts|
    ensures VolumesAsked(volumes, EnsureVolumes(volumes, mounts, lab, n), mounts, n, lab)
  {
    if n > 0 {
      EnsuredAsAsked(volumes, mounts, lab, n - 1);
      forall v ensures Mounts(mounts, n, v) <==> Mounts(mounts, n - 1, v) || v == mounts[n - 1].source {
        MountsNext(mounts, n, v);
      }
    }
  }

  /**
   * A creation that succeeds adds the lab's network, internal exactly for the mode RESTRICTED and none for DENY, its
   * container as asked for, and the volumes that were not there; everything else stays as it was.
   */
  lemma CreatedAsAsked(e: Engine, lab: Id, spec: RuntimeSpec, f: Faults, no: Refusals, now: Time)
    requires Failure(e, lab, spec, f, now) == None
    ensures var t := Provisioned(e, lab, spec, f, no, now);
      && t.networks == (if spec.network == NetworkMode.Deny then e.networks
                        else e.networks[NetName(lab) := Network(internal := spec.network == Restricted, lab := lab)])
      && BoxName(lab) in t.containers && t.containers == e.containers[BoxName(lab) := t.containers[BoxName(lab)]]
      && AsAsked(t.containers[BoxName(lab)], lab, spec)
      && VolumesAsked(e.volumes, t.volumes, spec.mounts, |spec.mounts|, lab)
  {
    var n := |spec.mounts|;
    forall v ensures BindOf(Mounted(spec.mounts, n), v) == LastMount(spec.mounts, n, v) {
      MountedAsAsked(spec.mounts, n, v);
    }
    EnsuredAsAsked(e.volumes, spec.mounts, lab, n);
    BoundBinds(spec.leases);
  }

  // ---------- what a failure means ----------

  /** A grant that the runtime takes at `now`. */
  predicate Acceptable(g: Grant, now: Time) { g.approved && now < g.expiresAt }

  /** The first grant not acceptable is the one named, for the reason given. */
  ghost predicate RefusedFor(grants: seq<Grant>, now: Time, why: EnvironmentError) {
    exists i :: 0 <= i < |grants| && !Acceptable(grants[i], now)
                && (forall j :: 0 <= j < i ==> Acceptable(grants[j], now))
                && why == if grants[i].approved then HasExpired(grants[i].name) else NotApproved(grants[i].name)
  }

  lemma EnvironmentAnswered(grants: seq<Grant>, now: Time)
    ensures match EnvironmentRefusal(grants, now)
            case None => forall i :: 0 <= i < |grants| ==> Acceptable(grants[i], now)
            case Some(why) => RefusedFor(grants, now, why)
  {
    var k := FirstRefused(grants, now);
    if k < |grants| { assert !Acceptable(grants[k], now); }
  }

  /** The lab's network could be made, or it needs none. */
  predicate NetworkGoes(e: Engine, lab: Id, spec: RuntimeSpec, f: Faults) {
    spec.network == NetworkMode.Deny || (!f.network && NetName(lab) !in e.networks)
  }

  predicate VolumesGo(spec: RuntimeSpec, f: Faults, n: nat) { forall i: nat :: i < n ==> i !in f.volumes }

  /** At which step a creation fails, and why: the first thing that could not be done. */
  lemma CreationAnswered(e: Engine, lab: Id, spec: RuntimeSpec, f: Faults, now: Time)
    ensures var net, all := NetworkGoes(e, lab, spec, f), VolumesGo(spec, f, |spec.mounts|);
      var secrets := forall i :: 0 <= i < |spec.leases| ==> Acceptable(spec.leases[i], now);
      match Failure(e, lab, spec, f, now)
      case None => net && all && secrets && !f.container && BoxName(lab) !in e.containers
      case Some(AtNetwork) => !net
      case Some(AtVolume(i)) => net && i < |spec.mounts| && i in f.volumes && VolumesGo(spec, f, i)
      case Some(AtEnvironment(why)) => net && all && RefusedFor(spec.leases, now, why)
      case Some(AtContainer) => net && all && secrets && (f.container || BoxName(lab) in e.containers)
  {
    EnvironmentAnswered(spec.leases, now);
  }

  // ---------- what a failed creation leaves ----------

  /** Some container of the engine has the volume mounted. */
  ghost predicate Mounting(e: Engine, v: string) { exists k :: k in e.containers && v in e.containers[k].binds }

  /** The creation got past its network, and it was to have one. */
  predicate NetworkUp(spec: RuntimeSpec, step: FailedStep) { step != AtNetwork && spec.network != NetworkMode.Deny }

  /** How many volumes had been asked for when the creation failed. */
  function AskedBefore(spec: RuntimeSpec, step: FailedStep): nat {
    match step
    case AtNetwork => 0
    case AtVolume(i) => i
    case AtEnvironment(_) => |spec.mounts|
    case AtContainer => |spec.mounts|
  }

  /**
   * The rollback of a failed creation runs to its end exactly if the engine lets the new network go and every volume
   * asked for, none of them mounted; then all of those are gone, whoever made them, and the rest is as it was.
   */
  lemma UndoneIff(e: Engine, lab: Id, spec: RuntimeSpec, f: Faults, no: Refusals, now: Time)
    requires Failure(e, lab, spec, f, now) != None
    ensures var step := Failure(e, lab, spec, f, now).value;
      var n, t := AskedBefore(spec, step), Provisioned(e, lab, spec, f, no, now);
      && n <= |spec.mounts|
      && (RolledBack(e, lab, spec, step, no) <==>
            && (NetworkUp(spec, step) ==> !no.network)
            && forall i :: 0 <= i < n ==> spec.mounts[i].source !in no.volumes && !Mounting(e, spec.mounts[i].source))
      && (RolledBack(e, lab, spec, step, no) ==>
            && t.networks == e.networks && t.containers == e.containers
            && (forall v :: v in t.volumes <==> v in e.volumes && !Mounts(spec.mounts, n, v))
            && (forall v :: v in t.volumes ==> t.volumes[v] == e.volumes[v]))
  {
    var step := Failure(e, lab, spec, f, now).value;
    var n := VolumesBefore(spec, step);
    CreationAnswered(e, lab, spec, f, now);
    assert forall v :: Mounting(e, v) <==> InUse(e.containers, v);
    EnsuredAsAsked(e.volumes, spec.mounts, lab, n);
    forall v ensures v in Sources(spec.mounts, n) <==> Mounts(spec.mounts, n, v) {}
  }

  // ---------- destroying ----------

  /** Another container than this lab's has the volume mounted. */
  ghost predicate MountedElsewhere(e: Engine, lab: Id, v: string) {
    exists k :: k in e.containers && k != BoxName(lab) && v in e.containers[k].binds
  }

  /**
   * Destroying a lab fails exactly if it has no container or the engine keeps it, and then changes nothing. Otherwise
   * its container goes, its network unless the engine keeps it, and, if that is asked for, each volume it had mounted
   * that no other container has and the engine lets go; everything else stays.
   */
  lemma DestroyedAsAsked(e: Engine, lab: Id, removeVolumes: bool, no: Refusals)
    ensures var t := Destroyed(e, lab, removeVolumes, no);
      match DestroyFailure(e, lab, no)
      case Some(NoContainer) => BoxName(lab) !in e.containers && t == e
      case Some(ContainerKept) => BoxName(lab) in e.containers && no.container && t == e
      case None =>
        && BoxName(lab) in e.containers && !no.container
        && t.containers == e.containers - {BoxName(lab)}
        && t.networks == (if no.network then e.networks else e.networks - {NetName(lab)})
        && (forall v :: v in t.volumes <==>
              v in e.volumes && !(removeVolumes && v in e.containers[BoxName(lab)].binds
                                  && !MountedElsewhere(e, lab, v) && v !in no.volumes))
        && (forall v :: v in t.volumes ==> t.volumes[v] == e.volumes[v])
  {
    var rest := e.containers - {ContainerName(lab)};
    forall v ensures InUse(rest, v) <==> MountedElsewhere(e, lab, v) {
      if MountedElsewhere(e, lab, v) {
        var k :| k in e.containers && k != BoxName(lab) && v in e.containers[k].binds;
        assert k in rest;
      }
    }
  }
}
