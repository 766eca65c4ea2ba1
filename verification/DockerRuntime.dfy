/** Creating a lab's network, volumes and container, undoing a partial build, and destroying a lab. */
module DockerRuntime {
  import opened Basics
  import opened Policy
  import opened Leases

  datatype ManagedMount = ManagedMount(source: string, target: string, readOnly: bool)

  datatype RuntimeSpec = RuntimeSpec(
    image: string,
    network: NetworkMode,
    ephemeral: bool,
    mounts: seq<ManagedMount>,
    leases: seq<Grant>)

  datatype Bind = Bind(target: string, readOnly: bool)

  datatype Network = Network(internal: bool, lab: Id)

  /** A volume: the lab whose creation made it, and what is stored in it. */
  datatype Volume = Volume(lab: Id, content: string)

  datatype Container = LabContainer(
    image: string,
    lab: Id,
    network: Option<string>,
    environment: map<string, string>,
    binds: map<string, Bind>,
    readOnly: bool)

  datatype Engine = Engine(
    networks: map<string, Network>,
    volumes: map<string, Volume>,
    containers: map<string, Container>)

  /** Which of the engine's creations fail for reasons of its own; `volumes` counts mounts. */
  datatype Faults = Faults(network: bool, volumes: set<nat>, container: bool)

  /** Which removals the engine refuses for reasons of its own, besides those of volumes that are in use. */
  datatype Refusals = Refusals(container: bool, network: bool, volumes: set<string>)

  const WILLING := Refusals(false, false, {})

  datatype FailedStep = AtNetwork | AtVolume(index: nat) | AtEnvironment(error: EnvironmentError) | AtContainer

  function ContainerName(lab: Id): string { "labos-" + Label(lab) }

  function LabNetwork(lab: Id): string { "labos-net-" + Label(lab) }

  function NetworkName(lab: Id, mode: NetworkMode): Option<string> {
    if mode.Deny? then None else Some(LabNetwork(lab))
  }

  // ---------- what the steps do ----------

  /** Creating a volume that exists already gives back the existing one. */
  function EnsureVolume(volumes: map<string, Volume>, name: string, lab: Id): map<string, Volume> {
    if name in volumes then volumes else volumes[name := Volume(lab, "")]
  }

  function EnsureVolumes(volumes: map<string, Volume>, mounts: seq<ManagedMount>, lab: Id, n: nat): map<string, Volume>
    requires n <= |mounts|
  {
    if n == 0 then volumes else EnsureVolume(EnsureVolumes(volumes, mounts, lab, n - 1), mounts[n - 1].source, lab)
  }

  /** The volumes named by the first `n` mounts. */
  function Sources(mounts: seq<ManagedMount>, n: nat): set<string>
    requires n <= |mounts|
  {
    set i | 0 <= i < n :: mounts[i].source
  }

  /** The last mount of a source decides how it is bound. */
  function Mounted(mounts: seq<ManagedMount>, n: nat): map<string, Bind>
    requires n <= |mounts|
  {
    if n == 0 then map[]
    else Mounted(mounts, n - 1)[mounts[n - 1].source := Bind(mounts[n - 1].target, mounts[n - 1].readOnly)]
  }

  /** The first mount from `i` on whose volume cannot be created, or the number of mounts. */
  function FirstFault(mounts: seq<ManagedMount>, faults: set<nat>, i: nat): (k: nat)
    requires i <= |mounts|
    ensures i <= k <= |mounts| && (forall j: nat :: i <= j < k ==> j !in faults) && (k < |mounts| ==> k in faults)
    decreases |mounts| - i
  {
    if i == |mounts| || i in faults then i else FirstFault(mounts, faults, i + 1)
  }

  /** The step that fails, if one does. */
  function Failure(e: Engine, lab: Id, spec: RuntimeSpec, f: Faults, now: Time): Option<FailedStep> {
    var net := NetworkName(lab, spec.network);
    var created, refused := FirstFault(spec.mounts, f.volumes, 0), EnvironmentRefusal(spec.leases, now);
    if net.Some? && (f.network || net.value in e.networks) then Some(AtNetwork)
    else if created < |spec.mounts| then Some(AtVolume(created))
    else if refused.Some? then Some(AtEnvironment(refused.value))
    else if f.container || ContainerName(lab) in e.containers then Some(AtContainer)
    else None
  }

  /** How many volumes were asked for before the failure. */
  function VolumesBefore(spec: RuntimeSpec, step: FailedStep): (n: nat)
    ensures n <= |spec.mounts|
  {
    match step
    case AtNetwork => 0
    case AtVolume(i) => if i <= |spec.mounts| then i else 0
    case _ => |spec.mounts|
  }

  function NewContainer(lab: Id, spec: RuntimeSpec): Container {
    LabContainer(spec.image, lab, NetworkName(lab, spec.network), Bound(spec.leases),
                 Mounted(spec.mounts, |spec.mounts|), spec.ephemeral)
  }

  /** Whether a container mounts the volume; the engine removes no such volume, also when told to force it. */
  predicate InUse(containers: map<string, Container>, volume: string) {
    exists c :: c in containers && volume in containers[c].binds
  }

  predicate Removable(containers: map<string, Container>, no: Refusals, volume: string) {
    !InUse(containers, volume) && volume !in no.volumes
  }

  /** The first of the first `n` mounts, from `i` on, whose volume cannot be removed, or `n`. */
  function FirstStuck(e: Engine, mounts: seq<ManagedMount>, no: Refusals, i: nat, n: nat): (k: nat)
    requires i <= n <= |mounts|
    ensures i <= k <= n && (forall j: nat :: i <= j < k ==> Removable(e.containers, no, mounts[j].source))
    ensures k < n ==> !Removable(e.containers, no, mounts[k].source)
    decreases n - i
  {
    if i == n || !Removable(e.containers, no, mounts[i].source) then i else FirstStuck(e, mounts, no, i + 1, n)
  }

  predicate NetworkMade(lab: Id, spec: RuntimeSpec, step: FailedStep) {
    !step.AtNetwork? && NetworkName(lab, spec.network).Some?
  }

  /** Whether the rollback removes everything it noted as created; otherwise it stops at the first refusal. */
  predicate RolledBack(e: Engine, lab: Id, spec: RuntimeSpec, step: FailedStep, no: Refusals) {
    && !(NetworkMade(lab, spec, step) && no.network)
    && FirstStuck(e, spec.mounts, no, 0, VolumesBefore(spec, step)) == VolumesBefore(spec, step)
  }

  /** What a rollback leaves of a build that failed at `step`. */
  function AfterRollback(e: Engine, lab: Id, spec: RuntimeSpec, step: FailedStep, no: Refusals): Engine {
    var n := VolumesBefore(spec, step);
    var built := EnsureVolumes(e.volumes, spec.mounts, lab, n);
    if NetworkMade(lab, spec, step) && no.network then
      e.(networks := e.networks[NetworkName(lab, spec.network).value := NewNetwork(lab, spec)], volumes := built)
    else
      e.(volumes := built - Sources(spec.mounts, FirstStuck(e, spec.mounts, no, 0, n)))
  }

  function NewNetwork(lab: Id, spec: RuntimeSpec): Network { Network(spec.network.Restricted?, lab) }

  /** The engine after `create_lab`: everything created, or what a rollback leaves. */
  function Provisioned(e: Engine, lab: Id, spec: RuntimeSpec, f: Faults, no: Refusals, now: Time): Engine {
    match Failure(e, lab, spec, f, now)
    case Some(step) => AfterRollback(e, lab, spec, step, no)
    case None =>
      var net := NetworkName(lab, spec.network);
      Engine(if net.Some? then e.networks[net.value := NewNetwork(lab, spec)] else e.networks,
             EnsureVolumes(e.volumes, spec.mounts, lab, |spec.mounts|),
             e.containers[ContainerName(lab) := NewContainer(lab, spec)])
  }

  // ---------- destroying a lab ----------

  datatype DestroyError = NoContainer | ContainerKept

  function DestroyFailure(e: Engine, lab: Id, no: Refusals): Option<DestroyError> {
    if ContainerName(lab) !in e.containers then Some(NoContainer)
    else if no.container then Some(ContainerKept)
    else None
  }

  /** Once its container is gone, a lab's network and volumes go as far as the engine removes them. */
  function Destroyed(e: Engine, lab: Id, removeVolumes: bool, no: Refusals): Engine {
    if DestroyFailure(e, lab, no).Some? then e else
    var containers := e.containers - {ContainerName(lab)};
    Engine(if no.network then e.networks else e.networks - {LabNetwork(lab)},
           if removeVolumes then
             e.volumes - Removed(containers, no, e.containers[ContainerName(lab)].binds.Keys)
           else e.volumes,
           containers)
  }

  function Removed(containers: map<string, Container>, no: Refusals, volumes: set<string>): set<string> {
    set v | v in volumes && Removable(containers, no, v)
  }

  // ---------- the runtime ----------

  class Daemon {
    var networks: map<string, Network>
    var volumes: map<string, Volume>
    var containers: map<string, Container>

    constructor (e: Engine)
      ensures State() == e
    {
      networks, volumes, containers := e.networks, e.volumes, e.containers;
    }

    function State(): Engine
      reads this
    {
      Engine(networks, volumes, containers)
    }
  }

  class DockerRuntime {
    constructor () {}

    method BuildEnvironment(grants: seq<Grant>, now: Time) returns (r: Result<map<string, string>, EnvironmentError>)
      ensures r == match EnvironmentRefusal(grants, now) case Some(e) => Err(e) case None => Ok(Bound(grants))
    {
      var environment: map<string, string> := map[];
      for i := 0 to |grants|
        invariant i <= FirstRefused(grants, now)
        invariant environment == Bound(grants[..i])
      {
        var lease := grants[i];
        if !lease.approved {
          return Err(NotApproved(lease.name));
        }
        if lease.expiresAt <= now {
          return Err(HasExpired(lease.name));
        }
        environment := environment[lease.name := lease.value];
        assert grants[..i + 1][..i] == grants[..i];
      }
      assert grants[..|grants|] == grants;
      r := Ok(environment);
    }

    method BuildVolumes(mounts: seq<ManagedMount>) returns (binds: map<string, Bind>)
      ensures binds == Mounted(mounts, |mounts|)
    {
      binds := map[];
      for i := 0 to |mounts|
        invariant binds == Mounted(mounts, i)
      {
        binds := binds[mounts[i].source := Bind(mounts[i].target, mounts[i].readOnly)];
      }
    }

    /** Asks for the volumes one by one, noting each as created, until one cannot be. */
    method EnsureAll(daemon: Daemon, mounts: seq<ManagedMount>, lab: Id, faults: set<nat>)
      returns (created: seq<string>)
      modifies daemon`volumes
      ensures |created| == FirstFault(mounts, faults, 0)
      ensures forall i :: 0 <= i < |created| ==> created[i] == mounts[i].source
      ensures daemon.volumes == EnsureVolumes(old(daemon.volumes), mounts, lab, |created|)
    {
      created := [];
      for i := 0 to |mounts|
        invariant |created| == i && FirstFault(mounts, faults, 0) == FirstFault(mounts, faults, i)
        invariant forall j :: 0 <= j < i ==> created[j] == mounts[j].source
        invariant daemon.volumes == EnsureVolumes(old(daemon.volumes), mounts, lab, i)
      {
        if i in faults {
          return;
        }
        daemon.volumes := EnsureVolume(daemon.volumes, mounts[i].source, lab);
        created := created + [mounts[i].source];
      }
    }

    /** Removes the volumes noted as created one by one; the first refusal is raised and ends it. */
    method RemoveAll(daemon: Daemon, ghost e: Engine, mounts: seq<ManagedMount>, created: seq<string>, no: Refusals)
      returns (done: bool)
      requires |created| <= |mounts| && forall i :: 0 <= i < |created| ==> created[i] == mounts[i].source
      requires daemon.containers == e.containers
      modifies daemon`volumes
      ensures var k := FirstStuck(e, mounts, no, 0, |created|);
        done == (k == |created|) && daemon.volumes == old(daemon.volumes) - Sources(mounts, k)
    {
      for i := 0 to |created|
        invariant FirstStuck(e, mounts, no, 0, |created|) == FirstStuck(e, mounts, no, i, |created|)
        invariant daemon.volumes == old(daemon.volumes) - Sources(mounts, i)
      {
        if !Removable(daemon.containers, no, created[i]) {
          return false;
        }
        daemon.volumes := daemon.volumes - {created[i]};
        assert Sources(mounts, i + 1) == Sources(mounts, i) + {mounts[i].source};
      }
      return true;
    }

    method CreateLab(daemon: Daemon, lab: Id, spec: RuntimeSpec, faults: Faults, no: Refusals, now: Time)
      returns (failed: Option<FailedStep>, undone: bool)
      modifies daemon
      ensures failed == Failure(old(daemon.State()), lab, spec, faults, now)
      ensures undone == (failed.Some? && RolledBack(old(daemon.State()), lab, spec, failed.value, no))
      ensures daemon.State() == Provisioned(old(daemon.State()), lab, spec, faults, no, now)
    {
      ghost var before := daemon.State();
      undone := false;
      var net := NetworkName(lab, spec.network);
      if net.Some? {
        if faults.network || net.value in daemon.networks {
          RemovedNothing(before.volumes, spec.mounts);
          return Some(AtNetwork), true;
        }
        daemon.networks := daemon.networks[net.value := NewNetwork(lab, spec)];
      }
      var created := EnsureAll(daemon, spec.mounts, lab, faults.volumes);
      failed := None;
      if |created| < |spec.mounts| {
        failed := Some(AtVolume(|created|));
      } else {
        failed := StartContainer(daemon, lab, spec, faults.container, now);
      }
      if failed.Some? {
        undone := RollBack(daemon, before, lab, spec, failed.value, created, no);
      }
    }

    /** Undoes a partial build: the network first, then the volumes in the order they were asked for. */
    method RollBack(
      daemon: Daemon, ghost e: Engine, lab: Id, spec: RuntimeSpec, ghost step: FailedStep, created: seq<string>,
      no: Refusals)
      returns (undone: bool)
      requires !step.AtNetwork? && |created| == VolumesBefore(spec, step)
      requires forall i :: 0 <= i < |created| ==> created[i] == spec.mounts[i].source
      requires daemon.containers == e.containers
      requires daemon.volumes == EnsureVolumes(e.volumes, spec.mounts, lab, |created|)
      requires var net := NetworkName(lab, spec.network);
        if net.Some? then net.value !in e.networks && daemon.networks == e.networks[net.value := NewNetwork(lab, spec)]
        else daemon.networks == e.networks
      modifies daemon
      ensures undone == RolledBack(e, lab, spec, step, no)
      ensures daemon.State() == AfterRollback(e, lab, spec, step, no)
    {
      var net := NetworkName(lab, spec.network);
      if net.Some? {
        if no.network {
          return false;
        }
        daemon.networks := daemon.networks - {net.value};
        assert daemon.networks == e.networks;
      }
      undone := RemoveAll(daemon, e, spec.mounts, created, no);
    }

    /** The last step: the environment is checked before the container is asked for. */
    method StartContainer(daemon: Daemon, lab: Id, spec: RuntimeSpec, fault: bool, now: Time)
      returns (failed: Option<FailedStep>)
      modifies daemon`containers
      ensures failed == if EnvironmentRefusal(spec.leases, now).Some?
                        then Some(AtEnvironment(EnvironmentRefusal(spec.leases, now).value))
                        else if fault || ContainerName(lab) in old(daemon.containers) then Some(AtContainer)
                        else None
      ensures daemon.containers
           == if failed.Some? then old(daemon.containers)
              else old(daemon.containers)[ContainerName(lab) := NewContainer(lab, spec)]
    {
      var environment := BuildEnvironment(spec.leases, now);
      if environment.Err? {
        return Some(AtEnvironment(environment.error));
      }
      var binds := BuildVolumes(spec.mounts);
      if fault || ContainerName(lab) in daemon.containers {
        return Some(AtContainer);
      }
      daemon.containers := daemon.containers[ContainerName(lab) :=
        LabContainer(spec.image, lab, NetworkName(lab, spec.network), environment.value, binds, spec.ephemeral)];
      return None;
    }

    /** Every name bound by the container, in some order. */
    method ExtractVolumeNames(container: Container) returns (names: seq<string>)
      ensures (set i | 0 <= i < |names| :: names[i]) == container.binds.Keys
    {
      names := [];
      var left := container.binds.Keys;
      while left != {}
        invariant (set i | 0 <= i < |names| :: names[i]) + left == container.binds.Keys
        decreases left
      {
        var v :| v in left;
        ghost var so := names;
        names, left := names + [v], left - {v};
        assert names[|so|] == v && forall i :: 0 <= i < |so| ==> names[i] == so[i];
        assert (set i | 0 <= i < |names| :: names[i]) == (set i | 0 <= i < |so| :: so[i]) + {v};
      }
    }

    method DestroyLab(daemon: Daemon, lab: Id, removeVolumes: bool, no: Refusals)
      returns (failed: Option<DestroyError>)
      modifies daemon
      ensures failed == DestroyFailure(old(daemon.State()), lab, no)
      ensures daemon.State() == Destroyed(old(daemon.State()), lab, removeVolumes, no)
    {
      if ContainerName(lab) !in daemon.containers {
        return Some(NoContainer);
      }
      var names := ExtractVolumeNames(daemon.containers[ContainerName(lab)]);
      if no.container {
        return Some(ContainerKept);
      }
      daemon.containers := daemon.containers - {ContainerName(lab)};
      if LabNetwork(lab) in daemon.networks && !no.network {
        daemon.networks := daemon.networks - {LabNetwork(lab)};
      }
      if removeVolumes {
        RemoveEach(daemon, names, no);
      }
      return None;
    }

    /** Tries each volume in turn and goes on when the engine refuses one. */
    method RemoveEach(daemon: Daemon, names: seq<string>, no: Refusals)
      modifies daemon`volumes
      ensures daemon.volumes == old(daemon.volumes)
                                - Removed(daemon.containers, no, set i | 0 <= i < |names| :: names[i])
    {
      for i := 0 to |names|
        invariant daemon.volumes == old(daemon.volumes)
                                    - Removed(daemon.containers, no, set j | 0 <= j < i :: names[j])
      {
        assert (set j | 0 <= j < i + 1 :: names[j]) == (set j | 0 <= j < i :: names[j]) + {names[i]};
        if names[i] in daemon.volumes && Removable(daemon.containers, no, names[i]) {
          daemon.volumes := daemon.volumes - {names[i]};
        }
      }
    }
  }

  lemma RemovedNothing(volumes: map<string, Volume>, mounts: seq<ManagedMount>)
    ensures volumes - Sources(mounts, 0) == volumes
  {
  }

  /** Creating volumes adds only the named ones, and keeps what exists. */
  lemma {:induction false} EnsureAdds(
    volumes: map<string, Volume>, mounts: seq<ManagedMount>, lab: Id, n: nat, v: string)
    requires n <= |mounts|
    ensures var after := EnsureVolumes(volumes, mounts, lab, n);
      && (v in after <==> v in volumes || v in Sources(mounts, n))
      && (v in volumes ==> after[v] == volumes[v])
  {
    if n > 0 {
      EnsureAdds(volumes, mounts, lab, n - 1, v);
      assert Sources(mounts, n) == Sources(mounts, n - 1) + {mounts[n - 1].source};
    }
  }

  // ---------- what a failed creation leaves ----------

  /**
   * Whichever step fails and whatever the engine refuses to remove, networks, containers and volumes are exactly as
   * before if and only if no new network is refused, none of the volumes up to the first refusal existed already
   * (those the rollback removes although it did not create them), and all the later ones did (those it leaves).
   */
  lemma RollbackRestoresIff(e: Engine, lab: Id, spec: RuntimeSpec, f: Faults, no: Refusals, now: Time)
    requires Failure(e, lab, spec, f, now).Some?
    ensures var step := Failure(e, lab, spec, f, now).value;
      var n := VolumesBefore(spec, step);
      var k := FirstStuck(e, spec.mounts, no, 0, n);
      Provisioned(e, lab, spec, f, no, now) == e <==>
        && !(NetworkMade(lab, spec, step) && no.network)
        && (forall i :: 0 <= i < k ==> spec.mounts[i].source !in e.volumes)
        && (forall i :: k <= i < n ==>
          spec.mounts[i].source in e.volumes || spec.mounts[i].source in Sources(spec.mounts, k))
  {
    var step := Failure(e, lab, spec, f, now).value;
    var n := VolumesBefore(spec, step);
    var k := FirstStuck(e, spec.mounts, no, 0, n);
    if NetworkMade(lab, spec, step) && no.network {
      assert NetworkName(lab, spec.network).value !in e.networks;
    } else {
      LeftVolumes(e.volumes, spec.mounts, lab, k, n);
    }
  }

  /** Creating `n` volumes and removing the first `k` changes nothing iff those are new and the rest are not. */
  lemma LeftVolumes(volumes: map<string, Volume>, mounts: seq<ManagedMount>, lab: Id, k: nat, n: nat)
    requires k <= n <= |mounts|
    ensures EnsureVolumes(volumes, mounts, lab, n) - Sources(mounts, k) == volumes <==>
      && (forall i :: 0 <= i < k ==> mounts[i].source !in volumes)
      && (forall i :: k <= i < n ==> mounts[i].source in volumes || mounts[i].source in Sources(mounts, k))
  {
    var left := EnsureVolumes(volumes, mounts, lab, n) - Sources(mounts, k);
    forall v ensures v in left <==> (v in volumes || v in Sources(mounts, n)) && v !in Sources(mounts, k)
      ensures v in left && v in volumes ==> left[v] == volumes[v]
    {
      EnsureAdds(volumes, mounts, lab, n, v);
    }
    forall i | 0 <= i < n
      ensures mounts[i].source in Sources(mounts, n) && (i < k ==> mounts[i].source in Sources(mounts, k))
    {
    }
    if (forall i :: 0 <= i < k ==> mounts[i].source !in volumes)
       && (forall i :: k <= i < n ==> mounts[i].source in volumes || mounts[i].source in Sources(mounts, k)) {
      assert left.Keys == volumes.Keys;
      assert left == volumes;
    }
  }

  /** With fresh volume names that nothing mounts, a failure leaves everything as before when nothing is refused. */
  lemma FreshRollback(e: Engine, lab: Id, spec: RuntimeSpec, f: Faults, now: Time)
    requires Failure(e, lab, spec, f, now).Some?
    requires forall i :: 0 <= i < |spec.mounts| ==>
      spec.mounts[i].source !in e.volumes && !InUse(e.containers, spec.mounts[i].source)
    ensures Provisioned(e, lab, spec, f, WILLING, now) == e
    ensures RolledBack(e, lab, spec, Failure(e, lab, spec, f, now).value, WILLING)
  {
    RollbackRestoresIff(e, lab, spec, f, WILLING, now);
  }

  /** A creation that succeeds keeps everything that existed and adds exactly its own network, volumes and container. */
  lemma CreationAdds(e: Engine, lab: Id, spec: RuntimeSpec, f: Faults, no: Refusals, now: Time, name: string)
    requires Failure(e, lab, spec, f, now).None?
    ensures var t, net := Provisioned(e, lab, spec, f, no, now), NetworkName(lab, spec.network);
      && (name in t.networks <==> name in e.networks || net == Some(name))
      && (name in t.volumes <==> name in e.volumes || name in Sources(spec.mounts, |spec.mounts|))
      && (name in t.containers <==> name in e.containers || name == ContainerName(lab))
      && (name in e.networks ==> t.networks[name] == e.networks[name])
      && (name in e.volumes ==> t.volumes[name] == e.volumes[name])
      && (name in e.containers ==> t.containers[name] == e.containers[name])
  {
    EnsureAdds(e.volumes, spec.mounts, lab, |spec.mounts|, name);
  }

  // ---------- creating and destroying ----------

  /** What a container binds are the sources of its mounts. */
  lemma {:induction false} MountedKeys(mounts: seq<ManagedMount>, n: nat)
    requires n <= |mounts|
    ensures Mounted(mounts, n).Keys == Sources(mounts, n)
  {
    if n > 0 {
      MountedKeys(mounts, n - 1);
      assert Sources(mounts, n) == Sources(mounts, n - 1) + {mounts[n - 1].source};
    }
  }

  /**
   * Destroying a lab just created, volumes included, undoes the creation if and only if the engine had no network
   * under the lab's name and had, of the volumes mounted, exactly those some other container uses.
   */
  lemma DestroyUndoesCreateIff(e: Engine, lab: Id, spec: RuntimeSpec, f: Faults, no: Refusals, now: Time)
    requires Failure(e, lab, spec, f, now).None?
    ensures Destroyed(Provisioned(e, lab, spec, f, no, now), lab, true, WILLING) == e <==>
      && LabNetwork(lab) !in e.networks
      && forall i :: 0 <= i < |spec.mounts| ==>
        (spec.mounts[i].source in e.volumes <==> InUse(e.containers, spec.mounts[i].source))
  {
    var t := Provisioned(e, lab, spec, f, no, now);
    var u := Destroyed(t, lab, true, WILLING);
    var n := |spec.mounts|;
    assert u.containers == e.containers;
    assert u.networks == e.networks <==> LabNetwork(lab) !in e.networks;
    MountedKeys(spec.mounts, n);
    forall v ensures v in u.volumes <==> v in t.volumes && !(v in Sources(spec.mounts, n) && !InUse(e.containers, v))
      ensures v in u.volumes && v in e.volumes ==> u.volumes[v] == e.volumes[v]
      ensures v in t.volumes <==> v in e.volumes || v in Sources(spec.mounts, n)
    {
      EnsureAdds(e.volumes, spec.mounts, lab, n, v);
    }
    if forall i :: 0 <= i < n ==> (spec.mounts[i].source in e.volumes <==> InUse(e.containers, spec.mounts[i].source)) {
      assert u.volumes.Keys == e.volumes.Keys;
      assert u.volumes == e.volumes;
    } else {
      var i :| 0 <= i < n && !(spec.mounts[i].source in e.volumes <==> InUse(e.containers, spec.mounts[i].source));
      assert spec.mounts[i].source in Sources(spec.mounts, n);
      assert u.volumes != e.volumes;
    }
  }

  /**
   * Destroying a lab keeps its volumes unless told otherwise; creating it again with any failure past the volumes then
   * removes them and what they held, all of those mounted that no other container uses.
   */
  lemma RetriedCreationLosesVolumes(
    e: Engine, lab: Id, spec: RuntimeSpec, f: Faults, g: Faults, no: Refusals, now: Time, later: Time)
    requires Failure(e, lab, spec, f, now).None?
    requires forall i :: 0 <= i < |spec.mounts| ==> !InUse(e.containers, spec.mounts[i].source)
    requires !g.network && g.volumes == {}
    requires g.container || EnvironmentRefusal(spec.leases, later).Some?
    ensures var t := Provisioned(e, lab, spec, f, no, now);
      var kept := Destroyed(t, lab, false, WILLING);
      && kept.volumes == t.volumes
      && Failure(kept, lab, spec, g, later).Some?
      && Provisioned(kept, lab, spec, g, WILLING, later)
         == kept.(volumes := t.volumes - Sources(spec.mounts, |spec.mounts|))
      && forall i :: 0 <= i < |spec.mounts| ==> spec.mounts[i].source in kept.volumes
  {
    var t := Provisioned(e, lab, spec, f, no, now);
    var kept := Destroyed(t, lab, false, WILLING);
    var n := |spec.mounts|;
    assert kept.containers == e.containers;
    assert FirstFault(spec.mounts, g.volumes, 0) == n;
    forall v ensures v in t.volumes <==> v in e.volumes || v in Sources(spec.mounts, n) {
      EnsureAdds(e.volumes, spec.mounts, lab, n, v);
    }
    forall i | 0 <= i < n ensures spec.mounts[i].source in kept.volumes {
      assert spec.mounts[i].source in Sources(spec.mounts, n);
    }
    EnsuredAgain(kept.volumes, spec.mounts, lab);
  }

  /** Asking for volumes that all exist changes nothing. */
  lemma EnsuredAgain(volumes: map<string, Volume>, mounts: seq<ManagedMount>, lab: Id)
    requires forall i :: 0 <= i < |mounts| ==> mounts[i].source in volumes
    ensures EnsureVolumes(volumes, mounts, lab, |mounts|) == volumes
  {
    forall v ensures var again := EnsureVolumes(volumes, mounts, lab, |mounts|);
      (v in again <==> v in volumes) && (v in volumes ==> again[v] == volumes[v])
    {
      EnsureAdds(volumes, mounts, lab, |mounts|, v);
    }
  }
}
