/**
 * The machine reconciler, method by method, in place on the in-memory object. Each method is verified against the
 * conversation of MachineFlow: it makes exactly the calls that the conversation waits for, with exactly those
 * arguments, and ends where the conversation ends, with the same object in memory and the same result.
 */
module MachineController {
  import opened Prelude
  import opened Text
  import opened Conditions
  import opened Api
  import opened CloudInit
  import opened UserData
  import opened MachineFlow
  import opened MachineScope
  import MachineIndex
  import SshKeys
  import VlanAddress

  method IsPermanentError(error: string) returns (permanent: bool)
    ensures permanent == IsPermanent(error)
  {
    for i := 0 to |PERMANENT_CODES|
      invariant forall j :: 0 <= j < i ==> !Contains(error, PERMANENT_CODES[j])
    {
      if Contains(error, PERMANENT_CODES[i]) {
        return true;
      }
    }
    permanent := false;
  }

  /** validateMachineSpec: an error if and only if something is missing, and then it names all of it. */
  method ValidateMachineSpec(m: LatitudeMachine, s: Session) returns (error: Option<string>, ghost placement: Placement)
    requires s.Awaits(GetPlacement)
    modifies s
    ensures s.Valid() && s.run == Resume(old(s.run), PlacementIs(placement), s.clock)
    ensures error.None? <==> SpecComplete(m.Value(), placement)
    ensures error.Some? ==> error.value == SpecMessage(m.Value(), placement)
  {
    var errMsgs: seq<string> := [];
    if m.os == "" {
      errMsgs := errMsgs + ["operatingSystem is required"];
    }
    assert errMsgs == Demand(m.os, "operatingSystem is required");
    if m.plan == "" {
      errMsgs := errMsgs + ["plan is required"];
    }
    assert errMsgs == Demand(m.os, "operatingSystem is required") + Demand(m.plan, "plan is required");
    var project, site;
    project, site, placement := s.GetPlacement();
    if project == "" {
      errMsgs := errMsgs + ["projectID is required"];
    }
    if site == "" {
      errMsgs := errMsgs + ["site is required"];
    }
    assert errMsgs == SpecErrors(m.Value(), placement);
    if |errMsgs| > 0 {
      return Some("validation failed: " + Join(errMsgs, ", ")), placement;
    }
    error := None;
  }

  /** Whether a failed control-plane machine is in the list. */
  method AnyControlPlaneFailed(machines: seq<Sibling>) returns (failed: bool)
    ensures failed == SawFailure(machines)
  {
    for i := 0 to |machines|
      invariant forall j :: 0 <= j < i ==> !FailedControlPlane(machines[j])
    {
      var owner := machines[i].owner;
      if owner.Failed? || owner.Missing? {
        continue;
      }
      if owner.value.controlPlane {
        if machines[i].machine.status.failureReason.Some? {
          return true;
        }
      }
    }
    failed := false;
  }

  /** Where the conversation stands behind checkControlPlaneFailed. */
  ghost function AfterCheck(m: Machine, owner: Owner, failed: bool, now: int): Run {
    if failed then
      Saving(Report(MarkFailed(m, "Control plane provisioning failed, cannot provision worker nodes"),
                    ConditionFalse, InstanceProvisionFailed, "Control plane failed", now), DONE)
    else Placing(m, owner)
  }

  /** CheckControlPlaneFailed, for a worker; an error counts as no failure. */
  method CheckControlPlaneFailed(m: LatitudeMachine, owner: Owner, s: Session) returns (failed: bool)
    requires s.Valid() && s.run == Checking(m.Value(), owner)
    modifies s
    ensures s.Valid() && s.run == AfterCheck(m.Value(), owner, failed, s.clock)
  {
    var cluster := s.GetCluster();
    if cluster.Failed? || cluster.Missing? {
      return false;
    }
    var siblings := s.ListSiblings();
    match siblings
    case Found(machines) => failed := AnyControlPlaneFailed(machines);
    case _ => failed := false;
  }

  /** getSSHKeys: none without a reference; an error if the secret cannot be read, or has none of the known names. */
  method GetSSHKeys(m: LatitudeMachine, s: Session) returns (keys: Result<seq<string>>)
    requires s.Valid() && s.run == EnterKeys(m.Value())
    modifies s
    ensures s.Valid()
    ensures s.run == (match keys
                      case Ok(ids) => Ordering(m.Value(), ids)
                      case Err(e) => Conclude(m.Value(), Broken("failed to get SSH keys: " + e), s.clock))
  {
    if m.sshKeys.None? {
      return Ok([]);
    }
    var ref := m.sshKeys.value;
    if ref.namespace == "" {
      ref := ref.(namespace := m.namespace);
    }
    var secret := s.GetKeySecret(ref);
    match secret
    case Missing =>
      return Err("SSH key secret " + ref.namespace + "/" + ref.name + " not found");
    case Failed(e) =>
      return Err("failed to get SSH key secret: " + e);
    case Found(values) =>
      var data := SshKeys.FindKeyData(values);
      if data.None? {
        return Err("SSH key secret " + ref.namespace + "/" + ref.name + " does not contain any of the expected keys"
                   + " (ssh-key-ids, sshKeys, ssh_keys, keys)");
      }
      var ids := SshKeys.ParseKeys(data.value);
      return Ok(ids);
  }

  /** injectVLANConfig on a cluster that was read: the raw data is kept on every error. */
  method InjectVLANConfig(name: string, cluster: Cluster, userData: string) returns (text: string)
    ensures text == Render(UserData(name, userData, Some(cluster)))
  {
    if cluster.spec.vlan.None? {
      return userData;
    }
    if cluster.status.vlanVID.None? {
      return userData;
    }
    var machineIndex := MachineIndex.GetMachineIndex(name);
    var subnet := cluster.spec.vlan.value.subnet;
    var ipAddress := VlanAddress.CalculateVLANIPAddress(subnet, machineIndex);
    if ipAddress.Err? {
      return userData;
    }
    var cfg := VlanNetplan(cluster.status.vlanVID.value, subnet, ipAddress.value);
    assert VlanSettings(UserData(name, userData, Some(cluster))) == Some(cfg);
    text := Inject(userData, cfg);
  }

  /** Where the conversation stands once there is user data, or none could be made. */
  ghost function AfterUserData(m: Machine, failed: Option<Provision>, now: int): Run {
    match failed
    case None => EnterKeys(m)
    case Some(result) => Conclude(m, result, now)
  }

  /** The user data on record, or a new one, recorded at once. */
  method EnsureUserData(m: LatitudeMachine, content: string, ghost data: UserData, s: Session)
    returns (failed: Option<Provision>)
    requires content == Render(data)
    requires s.Valid() && s.run == EnterUpload(m.Value(), data)
    modifies s, m`userDataID
    ensures s.Valid() && s.run == AfterUserData(m.Value(), failed, s.clock)
  {
    if m.userDataID != "" {
      return None;
    }
    var id := s.CreateUserData(m.name + "-" + m.uid, content, data);
    match id
    case Err(e) => return Some(Broken("create user-data: " + e));
    case Ok(udID) =>
      m.userDataID := udID;
      var _ := s.Patch(m);
      failed := None;
  }

  /** The part of reconcileServer that turns the bootstrap data into user data. */
  method ReconcileUserData(m: LatitudeMachine, raw: string, s: Session) returns (failed: Option<Provision>)
    requires s.Valid() && s.run == Injecting(m.Value(), raw)
    modifies s, m`userDataID
    ensures s.Valid() && s.run == AfterUserData(m.Value(), failed, s.clock)
  {
    var cluster := s.GetCluster();
    match cluster
    case Missing => return Some(Died); // dereferences the nil cluster
    case Failed(_) =>
      failed := EnsureUserData(m, raw, UserData(m.name, raw, None), s);
    case Found(c) =>
      var userData := InjectVLANConfig(m.name, c, raw);
      failed := EnsureUserData(m, userData, UserData(m.name, raw, Some(c)), s);
  }

  /** Where the conversation stands once the cluster has been read for the attachment. */
  ghost function AfterAttachRead(m: Machine, cluster: Read<Cluster>, now: int): Run {
    match cluster
    case Missing => Conclude(m, Died, now)
    case Failed(_) => Conclude(m, Waiting, now)
    case Found(c) =>
      if c.spec.vlan.None? || c.status.vlanID.None? then Conclude(m, Waiting, now) else Attaching(m, c.status.vlanID.value)
  }

  lemma AttachAnswered(m: Machine, cluster: Read<Cluster>, now: int)
    ensures Resume(AttachReading(m), ClusterIs(cluster), now) == AfterAttachRead(m, cluster, now)
  {}

  /** attachServerToVLAN; its errors are dropped. False if it panicked. */
  method AttachServerToVLAN(m: LatitudeMachine, s: Session) returns (survived: bool)
    requires s.Valid()
    requires s.run == if m.serverID == "" then Conclude(m.Value(), Waiting, s.clock) else AttachReading(m.Value())
    modifies s
    ensures s.Valid() && s.run == Conclude(m.Value(), if survived then Waiting else Died, s.clock)
  {
    survived := true;
    if m.serverID == "" {
      return;
    }
    var cluster := s.GetCluster();
    AttachAnswered(m.Value(), cluster, s.clock);
    match cluster
    case Failed(_) => return;
    case Missing => return false; // dereferences the nil cluster
    case Found(c) =>
      if c.spec.vlan.None? {
        return;
      }
      if c.status.vlanID.None? {
        return;
      }
      var _ := s.AttachServerToVLAN(m.serverID, c.status.vlanID.value);
  }

  /** A server has just been made: patch first, then attach it to the VLAN. */
  method RecordServer(m: LatitudeMachine, s: Session) returns (result: Provision)
    requires s.Valid() && s.run == SavingServer(m.Value())
    modifies s
    ensures s.Valid() && s.run == Conclude(m.Value(), result, s.clock)
  {
    var _ := s.Patch(m);
    var survived := AttachServerToVLAN(m, s);
    result := if survived then Waiting else Died;
  }

  /** Where the conversation stands behind the answer to an order. */
  ghost function AfterOrder(m: Machine, id: Result<string>, now: int): Run {
    match id
    case Ok(serverID) => SavingServer(m.(status := m.status.(serverID := serverID)))
    case Err(e) => Conclude(m, Broken("failed to create server: " + e), now)
  }

  lemma OrderAnswered(m: Machine, spec: ServerSpec, id: Result<string>, now: int)
    ensures Resume(Creating(m, spec), Created(id), now) == AfterOrder(m, id, now)
  {}

  /** The spec is put together and the order is placed. */
  method PlaceOrder(m: LatitudeMachine, sshKeys: seq<string>, s: Session) returns (id: Result<string>)
    requires s.Valid() && s.run == Ordering(m.Value(), sshKeys)
    modifies s
    ensures s.Valid() && s.run == AfterOrder(m.Value(), id, s.clock)
  {
    var project, site, placement := s.GetPlacement();
    var spec := ServerSpec(project, m.plan, m.os, site, m.namespace + "-" + m.name, sshKeys, m.userDataID);
    assert s.run == Creating(m.Value(), spec);
    id := s.CreateServer(spec);
    OrderAnswered(m.Value(), spec, id, s.clock);
  }

  /** The order itself, recorded at once. */
  method CreateServer(m: LatitudeMachine, sshKeys: seq<string>, s: Session) returns (result: Provision)
    requires s.Valid() && s.run == Ordering(m.Value(), sshKeys)
    modifies s, m`serverID
    ensures s.Valid() && s.run == Conclude(m.Value(), result, s.clock)
  {
    var id := PlaceOrder(m, sshKeys, s);
    match id
    case Err(e) => result := Broken("failed to create server: " + e);
    case Ok(serverID) =>
      m.serverID := serverID;
      result := RecordServer(m, s);
  }

  /** The part of reconcileServer behind the user data. */
  method OrderServer(m: LatitudeMachine, s: Session) returns (result: Provision)
    requires s.Valid() && s.run == EnterKeys(m.Value())
    modifies s, m`serverID
    ensures s.Valid() && s.run == Conclude(m.Value(), result, s.clock)
  {
    var sshKeys := GetSSHKeys(m, s);
    match sshKeys
    case Err(e) => result := Broken("failed to get SSH keys: " + e);
    case Ok(ids) => result := CreateServer(m, ids, s);
  }

  /** Where the conversation stands once the server on record has been looked at; None if there is none any more. */
  ghost function AfterPoll(m: Machine, owner: Owner, decided: Option<Provision>, now: int): Run {
    match decided
    case None => EnterBootstrap(m, owner, now)
    case Some(result) => Conclude(m, result, now)
  }

  /** The part of reconcileServer that looks at the server on record, and forgets it on any error. */
  method CheckServer(scope: MachineScope, s: Session) returns (decided: Option<Provision>)
    requires s.Valid() && s.run == EnterServer(scope.latitudeMachine.Value(), scope.machine, s.clock)
    modifies s, scope.latitudeMachine`serverID
    ensures s.Valid() && s.run == AfterPoll(scope.latitudeMachine.Value(), scope.machine, decided, s.clock)
  {
    var m := scope.latitudeMachine;
    if m.serverID == "" {
      return None;
    }
    var read := s.GetServer(m.serverID);
    match read
    case ServerFailed(_) =>
      m.serverID := "";
      decided := None;
    case ServerBlank => decided := Some(Died);
    case ServerFound(server) =>
      if EqualFold(server.status, "on") || EqualFold(server.status, "active") || EqualFold(server.status, "running") {
        decided := Some(Running(server));
      } else {
        decided := Some(Waiting);
      }
  }

  method ReconcileServer(scope: MachineScope, s: Session) returns (result: Provision)
    requires s.Valid() && s.run == EnterServer(scope.latitudeMachine.Value(), scope.machine, s.clock)
    modifies s, scope.latitudeMachine`serverID, scope.latitudeMachine`userDataID
    ensures s.Valid() && s.run == Conclude(scope.latitudeMachine.Value(), result, s.clock)
  {
    var decided := CheckServer(scope, s);
    if decided.Some? {
      return decided.value;
    }
    var data := scope.GetRawBootstrapData(s);
    match data
    case None => return Waiting;
    case Some(Err(e)) => return Broken("failed to get bootstrap data: " + e);
    case Some(Ok(raw)) =>
      var failed := ReconcileUserData(scope.latitudeMachine, raw, s);
      if failed.Some? {
        return failed.value;
      }
      result := OrderServer(scope.latitudeMachine, s);
  }

  /** The addresses of a running server: its IPs, then its host name. */
  method CollectAddresses(server: Server) returns (addresses: seq<Address>)
    ensures addresses == AddressesOf(server)
  {
    addresses := [];
    for i := 0 to |server.ips|
      invariant addresses == seq(i, j requires 0 <= j < i => Address(ExternalIP, server.ips[j]))
    {
      addresses := addresses + [Address(ExternalIP, server.ips[i])];
    }
    if server.hostname != "" {
      addresses := addresses + [Address(HostName, server.hostname)];
    }
  }

  /** An error of reconcileServer: permanent ones fail the machine, others are returned. */
  method SettleError(m: LatitudeMachine, error: string, s: Session) returns (outcome: Outcome)
    requires s.Valid() && s.run == Conclude(m.Value(), Broken(error), s.clock)
    modifies m
    ensures s.run == Saving(m.Value(), outcome)
  {
    var permanent := IsPermanentError(error);
    if permanent {
      m.SetFailed(error);
      m.SetCondition(ConditionFalse, InstanceProvisionFailed, error, s.clock);
      return MINUTES_5;
    }
    m.SetCondition(ConditionFalse, InstanceProvisionFailed, error, s.clock);
    outcome := Failure(error);
  }

  /** A running server: provider id, Ready, server id, addresses and condition. */
  method SettleRunning(scope: MachineScope, server: Server, s: Session) returns (outcome: Outcome)
    requires s.Valid() && s.run == Conclude(scope.latitudeMachine.Value(), Running(server), s.clock)
    modifies scope.latitudeMachine
    ensures s.run == Saving(scope.latitudeMachine.Value(), outcome)
  {
    var m := scope.latitudeMachine;
    scope.SetProviderID("latitude://" + server.id);
    scope.SetReady();
    m.serverID := server.id;
    var addresses := CollectAddresses(server);
    m.addresses := addresses;
    m.SetCondition(ConditionTrue, InstanceIsReady, "Instance is ready", s.clock);
    outcome := DONE;
  }

  /** What reconcileNormal makes of reconcileServer's result. */
  method Settle(scope: MachineScope, result: Provision, s: Session) returns (outcome: Outcome)
    requires s.Valid() && s.run == Conclude(scope.latitudeMachine.Value(), result, s.clock)
    modifies scope.latitudeMachine
    ensures s.run == Saving(scope.latitudeMachine.Value(), outcome)
  {
    match result
    case Died => outcome := Panicked;
    case Broken(e) => outcome := SettleError(scope.latitudeMachine, e, s);
    case Waiting =>
      scope.latitudeMachine.SetCondition(ConditionFalse, InstanceNotReady, "Server is being provisioned", s.clock);
      outcome := SECONDS_30;
    case Running(server) => outcome := SettleRunning(scope, server, s);
  }

  /** ReconcileNormal behind its early returns, for a machine whose owner is known. */
  method Provide(m: LatitudeMachine, ownerMachine: Owner, s: Session) returns (outcome: Outcome)
    requires s.Valid()
    requires s.run == if ownerMachine.controlPlane then Placing(m.Value(), ownerMachine) else Checking(m.Value(), ownerMachine)
    modifies s, m
    ensures s.Valid() && s.run == Saving(m.Value(), outcome)
  {
    var scope := new MachineScope(ownerMachine, m);
    if !ownerMachine.controlPlane {
      var failed := CheckControlPlaneFailed(m, ownerMachine, s);
      if failed {
        m.SetFailed("Control plane provisioning failed, cannot provision worker nodes");
        m.SetCondition(ConditionFalse, InstanceProvisionFailed, "Control plane failed", s.clock);
        return DONE;
      }
    }
    var error, placement := ValidateMachineSpec(m, s);
    if error.Some? {
      m.SetCondition(ConditionFalse, InstanceProvisionFailed, error.value, s.clock);
      return DONE;
    }
    var result := ReconcileServer(scope, s);
    outcome := Settle(scope, result, s);
  }

  method ReconcileNormal(m: LatitudeMachine, s: Session) returns (outcome: Outcome)
    requires !m.paused && !m.deleting && s.Valid() && s.run == Enter(m.Value())
    modifies s, m
    ensures s.Valid() && s.run == Saving(m.Value(), outcome)
  {
    if !m.finalizer {
      m.finalizer := true;
      return DONE;
    }
    if m.ready {
      return DONE;
    }
    if m.failureReason.Some? {
      return DONE;
    }
    var owner := s.GetOwner();
    match owner
    case Failed(e) => return Failure("failed to get owner machine: " + e);
    case Missing => return SECONDS_30;
    case Found(ownerMachine) => outcome := Provide(m, ownerMachine, s);
  }

  /** The end of reconcileDelete: the finalizer goes, whether or not the user data could be deleted. */
  method ReleaseUserData(m: LatitudeMachine, s: Session)
    requires s.Valid() && s.run == EnterRemoveData(m.Value())
    modifies s, m`finalizer
    ensures s.Valid() && s.run == Saving(m.Value(), DONE)
    ensures !m.finalizer
  {
    if m.userDataID != "" {
      var _ := s.DeleteUserData(m.userDataID);
    }
    m.finalizer := false;
  }

  method ReconcileDelete(m: LatitudeMachine, s: Session) returns (outcome: Outcome)
    requires m.deleting && s.Valid() && s.run == EnterDelete(m.Value())
    modifies s, m
    ensures s.Valid() && s.run == Saving(m.Value(), outcome)
  {
    if m.serverID != "" {
      var error := s.DeleteServer(m.serverID);
      if error.Some? {
        m.SetCondition(ConditionFalse, InstanceDeletionFailed, error.value, s.clock);
        return SECONDS_30;
      }
    }
    ReleaseUserData(m, s);
    outcome := DONE;
  }

  /** The deferred patch. Its error is returned unless there is another one, or a panic is under way. */
  method PatchDeferred(m: LatitudeMachine, result: Outcome, s: Session) returns (outcome: Outcome)
    requires s.Valid() && s.run == Saving(m.Value(), result)
    modifies s
    ensures s.Valid() && s.run == Finished(outcome)
  {
    var error := s.Patch(m);
    if error.Some? && result.Returned? && result.error.None? {
      outcome := result.(error := error);
    } else {
      outcome := result;
    }
  }

  method Dispatch(m: LatitudeMachine, s: Session) returns (outcome: Outcome)
    requires s.Valid() && s.run == Enter(m.Value())
    modifies s, m
    ensures s.Valid() && s.run == Saving(m.Value(), outcome)
  {
    if m.paused {
      outcome := DONE;
    } else if m.deleting {
      outcome := ReconcileDelete(m, s);
    } else {
      outcome := ReconcileNormal(m, s);
    }
  }

  /** Reconcile: every reconcile holds the conversation of MachineFlow to its end, and returns what that returns. */
  method Reconcile(s: Session) returns (outcome: Outcome)
    requires s.Valid() && s.run == Reading
    modifies s
    ensures s.Valid() && s.run == Finished(outcome)
  {
    var read := s.GetMachine();
    match read
    case Missing => outcome := DONE;
    case Failed(e) => outcome := Failure(e);
    case Found(persisted) =>
      var m := new LatitudeMachine(persisted);
      var result := Dispatch(m, s);
      outcome := PatchDeferred(m, result, s);
  }
}
