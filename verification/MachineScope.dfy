/** The object that a machine reconcile holds in memory, the scope around it, and the session with the outside world. */
module MachineScope {
  import opened Prelude
  import opened Text
  import opened Conditions
  import opened Api
  import opened UserData
  import opened MachineFlow

  /** The in-memory LatitudeMachine. The reconciler owns what is mutable here. */
  class LatitudeMachine {
    const uid: Uid
    const namespace: string
    const name: string
    const generation: nat
    const paused: bool
    const deleting: bool
    const os: string
    const plan: string
    const sshKeys: Option<SecretRef>
    var finalizer: bool
    var specProviderID: Option<string>
    var ready: bool
    var providerID: string
    var serverID: string
    var userDataID: string
    var addresses: seq<Address>
    var failureReason: Option<string>
    var failureMessage: Option<string>
    var conditions: seq<Condition>

    ghost function Value(): Machine
      reads this
    {
      Machine(uid, namespace, name, generation, paused, deleting, finalizer,
              MachineSpec(os, plan, sshKeys, specProviderID),
              MachineStatus(ready, providerID, serverID, userDataID, addresses, failureReason, failureMessage, conditions))
    }

    constructor (m: Machine)
      ensures Value() == m
    {
      uid, namespace, name, generation := m.uid, m.namespace, m.name, m.generation;
      paused, deleting, finalizer := m.paused, m.deleting, m.finalizer;
      os, plan, sshKeys, specProviderID := m.spec.os, m.spec.plan, m.spec.sshKeys, m.spec.providerID;
      ready, providerID, serverID, userDataID := m.status.ready, m.status.providerID, m.status.serverID, m.status.userDataID;
      addresses, conditions := m.status.addresses, m.status.conditions;
      failureReason, failureMessage := m.status.failureReason, m.status.failureMessage;
    }

    /** setCondition for InstanceReady */
    method SetCondition(status: Truth, reason: Reason, message: string, now: int)
      modifies this`conditions
      ensures Value() == Report(old(Value()), status, reason, message, now)
    {
      conditions := Conditions.SetCondition(conditions, Condition(InstanceReady, status, reason, message, generation, now),
                                            RewriteAlways);
    }

    /** setMachineFailed */
    method SetFailed(message: string)
      modifies this`ready, this`failureReason, this`failureMessage
      ensures Value() == MarkFailed(old(Value()), message)
    {
      ready := false;
      failureReason := Some("CreateError");
      failureMessage := Some(message);
    }
  }

  /** The reads behind one look at the cluster: the owning Machine, its CAPI Cluster, and that one's LatitudeCluster. */
  datatype Lookup = Lookup(owner: Read<Owner>, capi: Read<string>, cluster: Read<Cluster>)

  /** The conversation that a sequence of answers, each with the time at which it arrived, makes. */
  ghost function Replay(log: seq<(Reply, int)>): Option<Run> {
    if log == [] then Some(Reading)
    else
      var n := |log| - 1;
      var before := Replay(log[..n]);
      if before.Some? && !before.value.Finished? && Fits(Pending(before.value), log[n].0) then
        Some(Resume(before.value, log[n].0, log[n].1))
      else None
  }

  /** The answers that stand for an error (or nil), and for a new id or an error. */
  function Done(error: Option<string>): Reply {
    match error
    case None => Accepted
    case Some(e) => Refused(e)
  }

  function Created(id: Result<string>): Reply {
    match id
    case Ok(v) => Minted(v)
    case Err(e) => Refused(e)
  }

  /** fmt.Errorf around an error, if there is one. */
  function Wrap(prefix: string, error: Option<string>): Option<string> {
    match error
    case None => None
    case Some(e) => Some(prefix + e)
  }

  /**
   * The Kubernetes client and the cloud client, as one reconcile uses them. `log` is every answer so far and `run`
   * where the conversation stands because of them; no call can be made but the one that the conversation waits for.
   */
  class Session {
    ghost var log: seq<(Reply, int)>
    ghost var run: Run
    var clock: int

    ghost predicate Valid()
      reads this
    {
      Replay(log) == Some(run)
    }

    constructor ()
      ensures Valid() && run == Reading && log == []
    {
      log, run := [], Reading;
    }

    ghost predicate Awaits(call: Call)
      reads this
    {
      Valid() && !run.Finished? && Pending(run) == call
    }

    /** Time passes until the answer. */
    method Await()
      modifies this`clock
    {
      clock := *;
    }

    /** The answer moves the conversation on. */
    ghost method Hear(reply: Reply)
      requires Valid() && !run.Finished? && Fits(Pending(run), reply)
      modifies this`log, this`run
      ensures Valid() && run == Resume(old(run), reply, clock) && log == old(log) + [(reply, clock)]
    {
      log := log + [(reply, clock)];
      assert log[..|log| - 1] == old(log);
      run := Resume(run, reply, clock);
    }

    // ---- the Kubernetes API ----

    method GetMachine() returns (read: Read<Machine>)
      requires Awaits(MachineFlow.GetMachine)
      modifies this
      ensures Valid() && run == Resume(old(run), MachineIs(read), clock)
    {
      Await();
      read := *;
      Hear(MachineIs(read));
    }

    method LookUpOwner() returns (owner: Read<Owner>) {
      owner := *;
    }

    method GetOwner() returns (owner: Read<Owner>)
      requires Awaits(MachineFlow.GetOwner)
      modifies this
      ensures Valid() && run == Resume(old(run), OwnerIs(owner), clock)
    {
      Await();
      owner := LookUpOwner();
      Hear(OwnerIs(owner));
    }

    /** getLatitudeCluster: nil without an owner or a cluster; a missing LatitudeCluster is an error. */
    method LookUpCluster() returns (cluster: Read<Cluster>, ghost seen: Lookup)
      ensures cluster.Found? <==> seen.owner.Found? && seen.capi.Found? && seen.cluster.Found?
      ensures cluster.Missing? <==> seen.owner.Missing? || (seen.owner.Found? && seen.capi.Missing?)
      ensures cluster.Found? ==> cluster == seen.cluster
    {
      var owner := LookUpOwner();
      seen := Lookup(owner, Missing, Missing);
      if owner.Failed? {
        return Failed("get owner Machine: " + owner.error), seen;
      }
      if owner.Missing? {
        return Missing, seen;
      }
      var capi: Read<string> := *;
      seen := seen.(capi := capi);
      match capi
      case Failed(e) => return Failed("get cluster from Machine: " + e), seen;
      case Missing => return Missing, seen;
      case Found(name) =>
        var found: Read<Cluster> := *;
        seen := seen.(cluster := found);
        match found
        case Failed(e) => return Failed("get LatitudeCluster: " + e), seen;
        case Missing => return Failed("get LatitudeCluster: " + name + " not found"), seen;
        case Found(_) => cluster := found;
    }

    method GetCluster() returns (cluster: Read<Cluster>)
      requires Awaits(MachineFlow.GetCluster)
      modifies this
      ensures Valid() && run == Resume(old(run), ClusterIs(cluster), clock)
    {
      Await();
      ghost var seen;
      cluster, seen := LookUpCluster();
      Hear(ClusterIs(cluster));
    }

    method ListSiblings() returns (siblings: Read<seq<Sibling>>)
      requires Awaits(MachineFlow.ListSiblings)
      modifies this
      ensures Valid() && run == Resume(old(run), SiblingsAre(siblings), clock)
    {
      Await();
      siblings := *;
      Hear(SiblingsAre(siblings));
    }

    /** getProjectID and getSite, with the reads behind them. */
    method GetPlacement() returns (project: string, site: string, ghost placement: Placement)
      requires Awaits(MachineFlow.GetPlacement)
      modifies this
      ensures Valid() && run == Resume(old(run), PlacementIs(placement), clock)
      ensures project == ProjectID(placement) && site == Site(placement)
    {
      Await();
      ghost var forProject, owner, forSite;
      project, forProject := GetProjectID();
      site, owner, forSite := GetSite();
      placement := Placement(forProject, owner, forSite);
      Hear(PlacementIs(placement));
    }

    method GetProjectID() returns (project: string, ghost read: Read<Cluster>)
      ensures forall p: Placement :: p.forProject == read ==> project == ProjectID(p)
    {
      var cluster, _ := LookUpCluster();
      read := cluster;
      if cluster.Failed? {
        return "", read;
      }
      if cluster.Found? && cluster.value.spec.project.Some? {
        return cluster.value.spec.project.value, read;
      }
      project := "";
    }

    method GetSite() returns (site: string, ghost ownerRead: Read<Owner>, ghost clusterRead: Read<Cluster>)
      ensures forall p: Placement :: p.owner == ownerRead && p.forSite == clusterRead ==> site == Site(p)
    {
      var owner := LookUpOwner();
      ownerRead, clusterRead := owner, Missing;
      if owner.Failed? {
        return "", ownerRead, clusterRead;
      }
      if owner.Found? && owner.value.failureDomain.Some? {
        return owner.value.failureDomain.value, ownerRead, clusterRead;
      }
      var cluster, _ := LookUpCluster();
      clusterRead := cluster;
      site := if cluster.Found? then cluster.value.spec.location else "";
    }

    method GetBootstrapSecret(ref: SecretRef) returns (secret: Read<map<string, string>>)
      requires Awaits(GetBootstrap(ref))
      modifies this
      ensures Valid() && run == Resume(old(run), SecretIs(secret), clock)
    {
      Await();
      secret := *;
      Hear(SecretIs(secret));
    }

    method GetKeySecret(ref: SecretRef) returns (secret: Read<map<string, string>>)
      requires Awaits(GetKeys(ref))
      modifies this
      ensures Valid() && run == Resume(old(run), SecretIs(secret), clock)
    {
      Await();
      secret := *;
      Hear(SecretIs(secret));
    }

    /** The patch helper: writes finalizer, provider id and status of the object as it is in memory now. */
    method Patch(m: LatitudeMachine) returns (error: Option<string>)
      requires Awaits(Save(m.Value()))
      modifies this
      ensures Valid()
      ensures run == Resume(old(run), Done(error), clock)
    {
      Await();
      error := *;
      Hear(Done(error));
    }

    // ---- the cloud client ----

    /** GetServer reads the attributes of the reply without a check: a reply that has none ends in a panic. */
    method GetServer(id: string) returns (read: ServerRead)
      requires Awaits(MachineFlow.GetServer(id))
      modifies this
      ensures Valid() && Fits(Pending(old(run)), ServerIs(read)) && run == Resume(old(run), ServerIs(read), clock)
    {
      Await();
      var error: Option<string>, blank: bool, status: string, hostname: string, ip: Option<string> := *, *, *, *, *;
      if error.Some? {
        read := ServerFailed("failed to get server: " + error.value);
      } else if blank {
        read := ServerBlank;
      } else {
        var ips: seq<string> := [];
        if ip.Some? {
          ips := ips + [ip.value];
        }
        read := ServerFound(Server(id, status, hostname, ips));
      }
      Hear(ServerIs(read));
    }

    /** A successful reply without user data gives an empty id. */
    method CreateUserData(name: string, content: string, ghost data: UserData) returns (id: Result<string>)
      requires content == Render(data)
      requires Awaits(MachineFlow.CreateUserData(name, data))
      modifies this
      ensures Valid() && run == Resume(old(run), Created(id), clock)
    {
      Await();
      id := *;
      Hear(Created(id));
    }

    method DeleteUserData(id: string) returns (error: Option<string>)
      requires Awaits(MachineFlow.DeleteUserData(id))
      modifies this
      ensures Valid() && run == Resume(old(run), Done(error), clock)
    {
      Await();
      error := *;
      error := Wrap("failed to delete user data: ", error);
      Hear(Done(error));
    }

    method CreateServer(spec: ServerSpec) returns (id: Result<string>)
      requires Awaits(MachineFlow.CreateServer(spec))
      modifies this
      ensures Valid() && run == Resume(old(run), Created(id), clock)
      ensures id.Ok? ==> ValidSpec(spec)
    {
      Await();
      var invalid := ValidateServerSpec(spec);
      if invalid.Some? {
        id := Err("invalid server spec: " + invalid.value);
      } else {
        id := *;
        match id
        case Err(e) => id := Err("failed to create server: " + e);
        case Ok(_) =>
      }
      Hear(Created(id));
    }

    method DeleteServer(id: string) returns (error: Option<string>)
      requires Awaits(MachineFlow.DeleteServer(id))
      modifies this
      ensures Valid() && run == Resume(old(run), Done(error), clock)
    {
      Await();
      error := *;
      error := Wrap("failed to delete server: ", error);
      Hear(Done(error));
    }

    /** An assignment that already exists counts as success. */
    method AttachServerToVLAN(serverID: string, vlanID: string) returns (error: Option<string>)
      requires Awaits(AttachServer(serverID, vlanID))
      modifies this
      ensures Valid() && run == Resume(old(run), Done(error), clock)
      ensures error.None? ==> serverID != "" && vlanID != ""
    {
      Await();
      if serverID == "" {
        error := Some("serverID is required");
      } else if vlanID == "" {
        error := Some("vlanID is required");
      } else {
        error := *;
        match error
        case None =>
        case Some(e) =>
          if Contains(e, "already assigned") || Contains(e, "already exists") {
            error := None;
          } else {
            error := Some("failed to attach server to VLAN: " + e);
          }
      }
      Hear(Done(error));
    }
  }

  /** validateServerSpec: refuses exactly the incomplete specs, naming the first missing field. */
  method ValidateServerSpec(spec: ServerSpec) returns (error: Option<string>)
    ensures error.None? <==> spec.project != "" && spec.plan != "" && spec.os != "" && spec.site != ""
    ensures error.None? <==> ValidSpec(spec)
    ensures spec.project == "" ==> error == Some("project is required")
    ensures error == Some("site is required") ==> spec.project != "" && spec.plan != "" && spec.os != ""
  {
    if spec.project == "" {
      return Some("project is required");
    }
    if spec.plan == "" {
      return Some("plan is required");
    }
    if spec.os == "" {
      return Some("operatingSystem is required");
    }
    if spec.site == "" {
      return Some("site is required");
    }
    error := None;
  }

  /** The scope of a machine reconcile: the owning CAPI Machine and the LatitudeMachine. */
  class MachineScope {
    const machine: Owner
    const latitudeMachine: LatitudeMachine

    constructor (machine: Owner, latitudeMachine: LatitudeMachine)
      ensures this.machine == machine && this.latitudeMachine == latitudeMachine
    {
      this.machine, this.latitudeMachine := machine, latitudeMachine;
    }

    method SetProviderID(providerID: string)
      modifies latitudeMachine`specProviderID, latitudeMachine`providerID
      ensures var m := old(latitudeMachine.Value());
              latitudeMachine.Value() == m.(spec := m.spec.(providerID := Some(providerID)),
                                            status := m.status.(providerID := providerID))
    {
      latitudeMachine.specProviderID := Some(providerID);
      latitudeMachine.providerID := providerID;
    }

    method SetReady()
      modifies latitudeMachine`ready
      ensures var m := old(latitudeMachine.Value()); latitudeMachine.Value() == m.(status := m.status.(ready := true))
    {
      latitudeMachine.ready := true;
    }

    method SetNotReady()
      modifies latitudeMachine`ready
      ensures var m := old(latitudeMachine.Value()); latitudeMachine.Value() == m.(status := m.status.(ready := false))
    {
      latitudeMachine.ready := false;
    }

    /** Where reconcileServer stands once it knows the bootstrap data: None stands for ErrBootstrapDataNotReady. */
    ghost function AfterBootstrap(data: Option<Result<string>>, now: int): Run
      reads latitudeMachine
    {
      var m := latitudeMachine.Value();
      match data
      case None => Conclude(m, Waiting, now)
      case Some(Err(e)) => Conclude(m, Broken("failed to get bootstrap data: " + e), now)
      case Some(Ok(raw)) => Injecting(m, raw)
    }

    method GetRawBootstrapData(s: Session) returns (data: Option<Result<string>>)
      requires s.Valid() && s.run == EnterBootstrap(latitudeMachine.Value(), machine, s.clock)
      modifies s
      ensures s.Valid() && s.run == AfterBootstrap(data, s.clock)
    {
      if machine.dataSecret.None? {
        return None;
      }
      var secret := s.GetBootstrapSecret(SecretRef(latitudeMachine.namespace, machine.dataSecret.value));
      match secret
      case Missing => return None;
      case Failed(e) => return Some(Err("failed to get bootstrap data secret: " + e));
      case Found(values) =>
        if "value" !in values {
          return Some(Err("error retrieving bootstrap data: secret value key is missing"));
        }
        var value := values["value"];
        if |value| == 0 {
          return Some(Err("error retrieving bootstrap data: secret value is empty"));
        }
        return Some(Ok(value));
    }
  }
}
