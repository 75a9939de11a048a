/**
 * The machine reconciler as a protocol. A reconcile is a conversation: at each point it waits for the answer to one
 * call (to the Kubernetes API, or to the cloud), and the answer decides how it goes on. `Run` is where the
 * conversation stands, with the in-memory object; `Pending` is the call it waits for; `Resume` takes the answer.
 * The controller in MachineController is verified to hold exactly this conversation, and Fleet runs it against an
 * adversary who chooses the answers, loses patches, and crashes the process between any two calls.
 */
module MachineFlow {
  import opened Prelude
  import opened Text
  import opened Conditions
  import opened Api
  import opened UserData
  import SshKeys

  // ---- what the calls exchange ----

  /**
   * The owning CAPI Machine: its control-plane label, its cluster, its failure domain and its bootstrap secret. The
   * cluster is part of what is read, but no decision depends on it.
   */
  datatype Owner = Owner(controlPlane: bool, cluster: string, failureDomain: Option<string>, dataSecret: Option<string>)

  datatype Server = Server(id: string, status: string, hostname: string, ips: seq<string>)

  /** GetServer: an error, a reply without attributes (which the client dereferences), or the server. */
  datatype ServerRead = ServerFailed(error: string) | ServerBlank | ServerFound(server: Server)

  datatype ServerSpec = ServerSpec(
    project: string,
    plan: string,
    os: string,
    site: string,
    hostname: string,
    sshKeys: seq<string>,
    userData: string)

  /** A machine of the namespace, with the outcome of reading its owner. */
  datatype Sibling = Sibling(machine: Machine, owner: Read<Owner>)

  /** The reads behind getProjectID and getSite. */
  datatype Placement = Placement(forProject: Read<Cluster>, owner: Read<Owner>, forSite: Read<Cluster>)

  datatype Call =
    | GetMachine
    | GetOwner
    | GetCluster
    | ListSiblings
    | GetPlacement
    | GetServer(id: string)
    | GetBootstrap(ref: SecretRef)
    | GetKeys(ref: SecretRef)
    | CreateUserData(name: string, data: UserData)
    | Save(machine: Machine)
    | CreateServer(spec: ServerSpec)
    | AttachServer(serverID: string, vlanID: string)
    | DeleteServer(id: string)
    | DeleteUserData(id: string)

  datatype Reply =
    | MachineIs(machine: Read<Machine>)
    | OwnerIs(owner: Read<Owner>)
    | ClusterIs(cluster: Read<Cluster>)
    | SiblingsAre(siblings: Read<seq<Sibling>>)
    | PlacementIs(placement: Placement)
    | ServerIs(read: ServerRead)
    | SecretIs(secret: Read<map<string, string>>)
    | Minted(id: string)
    | Accepted
    | Refused(error: string)

  predicate Fits(call: Call, reply: Reply) {
    match call
    case GetMachine => reply.MachineIs?
    case GetOwner => reply.OwnerIs?
    case GetCluster => reply.ClusterIs?
    case ListSiblings => reply.SiblingsAre?
    case GetPlacement => reply.PlacementIs?
    case GetServer(id) => reply.ServerIs? && (reply.read.ServerFound? ==> reply.read.server.id == id)
    case GetBootstrap(_) => reply.SecretIs?
    case GetKeys(_) => reply.SecretIs?
    case CreateUserData(_, _) => reply.Minted? || reply.Refused?
    case CreateServer(_) => reply.Minted? || reply.Refused?
    case _ => reply.Accepted? || reply.Refused?
  }

  // ---- the decisions of the reconciler ----

  function ProjectID(p: Placement): string {
    if p.forProject.Found? && p.forProject.value.spec.project.Some? then p.forProject.value.spec.project.value else ""
  }

  function Site(p: Placement): string {
    if p.owner.Failed? then ""
    else if p.owner.Found? && p.owner.value.failureDomain.Some? then p.owner.value.failureDomain.value
    else if p.forSite.Found? then p.forSite.value.spec.location
    else ""
  }

  /** validateMachineSpec */
  predicate SpecComplete(m: Machine, p: Placement) {
    m.spec.os != "" && m.spec.plan != "" && ProjectID(p) != "" && Site(p) != ""
  }

  function SpecMessage(m: Machine, p: Placement): string {
    "validation failed: " + Join(SpecErrors(m, p), ", ")
  }

  /** What validateMachineSpec finds missing. */
  function SpecErrors(m: Machine, p: Placement): seq<string> {
    Demand(m.spec.os, "operatingSystem is required") + Demand(m.spec.plan, "plan is required")
    + Demand(ProjectID(p), "projectID is required") + Demand(Site(p), "site is required")
  }

  function Demand(value: string, message: string): seq<string> {
    if value == "" then [message] else []
  }

  /** validateServerSpec in the cloud client. */
  predicate ValidSpec(spec: ServerSpec) {
    spec.project != "" && spec.plan != "" && spec.os != "" && spec.site != ""
  }

  const PERMANENT_CODES := ["SERVERS_OUT_OF_STOCK", "No stock availability"]

  predicate IsPermanent(error: string) {
    exists i | 0 <= i < |PERMANENT_CODES| :: Contains(error, PERMANENT_CODES[i])
  }

  /** The statuses of a server that may join the cluster. */
  predicate IsUp(status: string) {
    EqualFold(status, "on") || EqualFold(status, "active") || EqualFold(status, "running")
  }

  predicate FailedControlPlane(s: Sibling) {
    s.owner.Found? && s.owner.value.controlPlane && s.machine.status.failureReason.Some?
  }

  function AddressesOf(server: Server): seq<Address> {
    seq(|server.ips|, i requires 0 <= i < |server.ips| => Address(ExternalIP, server.ips[i]))
    + (if server.hostname != "" then [Address(HostName, server.hostname)] else [])
  }

  function ProviderID(serverID: string): string {
    "latitude://" + serverID
  }

  /** SetProviderID, SetReady and the status fields behind them. */
  function MarkReady(m: Machine, server: Server): Machine {
    m.(spec := m.spec.(providerID := Some(ProviderID(server.id))),
       status := m.status.(providerID := ProviderID(server.id), ready := true, serverID := server.id,
                           addresses := AddressesOf(server)))
  }

  /** setMachineFailed */
  function MarkFailed(m: Machine, message: string): Machine {
    m.(status := m.status.(ready := false, failureReason := Some("CreateError"), failureMessage := Some(message)))
  }

  /** setCondition for InstanceReady */
  function Report(m: Machine, status: Truth, reason: Reason, message: string, now: int): Machine {
    m.(status := m.status.(conditions := Put(m.status.conditions,
                                             Condition(InstanceReady, status, reason, message, m.generation, now),
                                             RewriteAlways)))
  }

  /** GetRawBootstrapData, given the secret: not ready (None), an error, or the data. */
  function BootstrapData(secret: Read<map<string, string>>): Option<Result<string>> {
    match secret
    case Missing => None
    case Failed(e) => Some(Err("failed to get bootstrap data secret: " + e))
    case Found(data) =>
      if "value" !in data then Some(Err("error retrieving bootstrap data: secret value key is missing"))
      else if data["value"] == "" then Some(Err("error retrieving bootstrap data: secret value is empty"))
      else Some(Ok(data["value"]))
  }

  /** The secret that holds the SSH keys: its namespace defaults to the machine's. */
  function KeySecret(m: Machine, ref: SecretRef): SecretRef {
    if ref.namespace == "" then ref.(namespace := m.namespace) else ref
  }

  /** getSSHKeys, given the secret. */
  function KeysIn(ref: SecretRef, secret: Read<map<string, string>>): Result<seq<string>> {
    match secret
    case Missing => Err("SSH key secret " + ref.namespace + "/" + ref.name + " not found")
    case Failed(e) => Err("failed to get SSH key secret: " + e)
    case Found(data) =>
      match SshKeys.KeyData(data, SshKeys.KEY_NAMES)
      case None => Err("SSH key secret " + ref.namespace + "/" + ref.name + " does not contain any of the expected keys"
                       + " (ssh-key-ids, sshKeys, ssh_keys, keys)")
      case Some(keys) => Ok(SshKeys.Parse(keys))
  }

  /** How reconcileServer ends: a running server, nothing to do yet, an error, or a nil dereference. */
  datatype Provision = Running(server: Server) | Waiting | Broken(error: string) | Died

  // ---- the conversation ----

  datatype Run =
    | Reading
    | Owning(m: Machine)
    | Checking(m: Machine, owner: Owner)          // checkControlPlaneFailed: the cluster
    | Listing(m: Machine, owner: Owner)           // checkControlPlaneFailed: the machines
    | Placing(m: Machine, owner: Owner)           // validateMachineSpec
    | Polling(m: Machine, owner: Owner)           // GetServer
    | Bootstrapping(m: Machine, secret: string)
    | Injecting(m: Machine, raw: string)
    | Uploading(m: Machine, data: UserData)
    | SavingData(m: Machine)                      // the patch behind CreateUserData
    | Keying(m: Machine, ref: SecretRef)
    | Ordering(m: Machine, keys: seq<string>)
    | Creating(m: Machine, spec: ServerSpec)
    | SavingServer(m: Machine)                    // the patch behind CreateServer
    | AttachReading(m: Machine)
    | Attaching(m: Machine, vlan: string)
    | Removing(m: Machine)
    | RemovingData(m: Machine)
    | Saving(m: Machine, outcome: Outcome)        // the deferred patch
    | Finished(outcome: Outcome)

  function Pending(run: Run): Call
    requires !run.Finished?
  {
    match run
    case Reading => GetMachine
    case Owning(_) => GetOwner
    case Checking(_, _) => GetCluster
    case Listing(_, _) => ListSiblings
    case Placing(_, _) => GetPlacement
    case Polling(m, _) => GetServer(m.status.serverID)
    case Bootstrapping(m, secret) => GetBootstrap(SecretRef(m.namespace, secret))
    case Injecting(_, _) => GetCluster
    case Uploading(m, data) => CreateUserData(m.name + "-" + m.uid, data)
    case SavingData(m) => Save(m)
    case Keying(_, ref) => GetKeys(ref)
    case Ordering(_, _) => GetPlacement
    case Creating(_, spec) => CreateServer(spec)
    case SavingServer(m) => Save(m)
    case AttachReading(_) => GetCluster
    case Attaching(m, vlan) => AttachServer(m.status.serverID, vlan)
    case Removing(m) => DeleteServer(m.status.serverID)
    case RemovingData(m) => DeleteUserData(m.status.userDataID)
    case Saving(m, _) => Save(m)
  }

  /** The steps of a reconcile fall into four phases. */
  datatype Phase = Check | Prepare | Create | End

  function PhaseOf(run: Run): Phase
    requires !run.Finished?
  {
    match run
    case Reading | Owning(_) | Checking(_, _) | Listing(_, _) | Placing(_, _) => Check
    case Polling(_, _) | Bootstrapping(_, _) | Injecting(_, _) | Uploading(_, _) | SavingData(_) | Keying(_, _) => Prepare
    case Ordering(_, _) | Creating(_, _) | SavingServer(_) | AttachReading(_) | Attaching(_, _) => Create
    case Removing(_) | RemovingData(_) | Saving(_, _) => End
  }

  /** Where the reconcile goes on after an answer. */
  function Resume(run: Run, reply: Reply, now: int): Run
    requires !run.Finished? && Fits(Pending(run), reply)
  {
    match PhaseOf(run)
    case Check => ResumeCheck(run, reply, now)
    case Prepare => ResumePrepare(run, reply, now)
    case Create => ResumeCreate(run, reply, now)
    case End => ResumeEnd(run, reply, now)
  }

  /** The object, its owner, and the checks before reconcileServer. */
  function ResumeCheck(run: Run, reply: Reply, now: int): Run
    requires !run.Finished? && Fits(Pending(run), reply) && PhaseOf(run) == Check
  {
    match run
    case Reading => (
      match reply.machine
      case Failed(e) => Finished(Failure(e))
      case Missing => Finished(DONE)
      case Found(m) => Enter(m))
    case Owning(m) => (
      match reply.owner
      case Failed(e) => Saving(m, Failure("failed to get owner machine: " + e))
      case Missing => Saving(m, SECONDS_30)
      case Found(o) => if o.controlPlane then Placing(m, o) else Checking(m, o))
    case Checking(m, o) => if reply.cluster.Found? then Listing(m, o) else Placing(m, o)
    case Listing(m, o) =>
      if reply.siblings.Found? && SawFailure(reply.siblings.value) then
        Saving(Report(MarkFailed(m, "Control plane provisioning failed, cannot provision worker nodes"),
                      ConditionFalse, InstanceProvisionFailed, "Control plane failed", now), DONE)
      else Placing(m, o)
    case Placing(m, o) =>
      if SpecComplete(m, reply.placement) then EnterServer(m, o, now)
      else Saving(Report(m, ConditionFalse, InstanceProvisionFailed, SpecMessage(m, reply.placement), now), DONE)
  }

  /** ReconcileServer up to the SSH keys. */
  function ResumePrepare(run: Run, reply: Reply, now: int): Run
    requires !run.Finished? && Fits(Pending(run), reply) && PhaseOf(run) == Prepare
  {
    match run
    case Polling(m, o) => (
      match reply.read
      case ServerFailed(_) => EnterBootstrap(m.(status := m.status.(serverID := "")), o, now)
      case ServerBlank => Conclude(m, Died, now)
      case ServerFound(s) => Conclude(m, if IsUp(s.status) then Running(s) else Waiting, now))
    case Bootstrapping(m, _) => (
      match BootstrapData(reply.secret)
      case None => Conclude(m, Waiting, now)
      case Some(Err(e)) => Conclude(m, Broken("failed to get bootstrap data: " + e), now)
      case Some(Ok(raw)) => Injecting(m, raw))
    case Injecting(m, raw) => (
      match reply.cluster
      case Missing => Conclude(m, Died, now)
      case Failed(_) => EnterUpload(m, UserData(m.name, raw, None))
      case Found(c) => EnterUpload(m, UserData(m.name, raw, Some(c))))
    case Uploading(m, _) => (
      match reply
      case Minted(id) => SavingData(m.(status := m.status.(userDataID := id)))
      case _ => Conclude(m, Broken("create user-data: " + reply.error), now))
    case SavingData(m) => EnterKeys(m)
    case Keying(m, ref) => (
      match KeysIn(ref, reply.secret)
      case Err(e) => Conclude(m, Broken("failed to get SSH keys: " + e), now)
      case Ok(keys) => Ordering(m, keys))
  }

  /** ReconcileServer from the server spec on. */
  function ResumeCreate(run: Run, reply: Reply, now: int): Run
    requires !run.Finished? && Fits(Pending(run), reply) && PhaseOf(run) == Create
  {
    match run
    case Ordering(m, keys) =>
      Creating(m, ServerSpec(ProjectID(reply.placement), m.spec.plan, m.spec.os, Site(reply.placement),
                             m.namespace + "-" + m.name, keys, m.status.userDataID))
    case Creating(m, _) => (
      match reply
      case Minted(id) => SavingServer(m.(status := m.status.(serverID := id)))
      case _ => Conclude(m, Broken("failed to create server: " + reply.error), now))
    case SavingServer(m) => if m.status.serverID == "" then Conclude(m, Waiting, now) else AttachReading(m)
    case AttachReading(m) => (
      match reply.cluster
      case Missing => Conclude(m, Died, now)
      case Failed(_) => Conclude(m, Waiting, now)
      case Found(c) =>
        if c.spec.vlan.None? || c.status.vlanID.None? then Conclude(m, Waiting, now)
        else Attaching(m, c.status.vlanID.value))
    case Attaching(m, _) => Conclude(m, Waiting, now)
  }

  /** ReconcileDelete and the deferred patch. */
  function ResumeEnd(run: Run, reply: Reply, now: int): Run
    requires !run.Finished? && Fits(Pending(run), reply) && PhaseOf(run) == End
  {
    match run
    case Removing(m) => (
      match reply
      case Accepted => EnterRemoveData(m)
      case _ => Saving(Report(m, ConditionFalse, InstanceDeletionFailed, reply.error, now), SECONDS_30))
    case RemovingData(m) => Saving(m.(finalizer := false), DONE)
    case Saving(_, outcome) =>
      if reply.Refused? && outcome.Returned? && outcome.error.None? then Finished(outcome.(error := Some(reply.error)))
      else Finished(outcome)
  }

  function SawFailure(siblings: seq<Sibling>): bool {
    exists i | 0 <= i < |siblings| :: FailedControlPlane(siblings[i])
  }

  /** Reconcile and reconcileNormal up to their first call. */
  function Enter(m: Machine): Run {
    if m.paused then Saving(m, DONE)
    else if m.deleting then EnterDelete(m)
    else if !m.finalizer then Saving(m.(finalizer := true), DONE)
    else if m.status.ready || m.status.failureReason.Some? then Saving(m, DONE)
    else Owning(m)
  }

  function EnterDelete(m: Machine): Run {
    if m.status.serverID != "" then Removing(m) else EnterRemoveData(m)
  }

  function EnterRemoveData(m: Machine): Run {
    if m.status.userDataID != "" then RemovingData(m) else Saving(m.(finalizer := false), DONE)
  }

  function EnterServer(m: Machine, o: Owner, now: int): Run {
    if m.status.serverID != "" then Polling(m, o) else EnterBootstrap(m, o, now)
  }

  function EnterBootstrap(m: Machine, o: Owner, now: int): Run {
    match o.dataSecret
    case None => Conclude(m, Waiting, now)
    case Some(secret) => Bootstrapping(m, secret)
  }

  function EnterUpload(m: Machine, data: UserData): Run {
    if m.status.userDataID != "" then EnterKeys(m) else Uploading(m, data)
  }

  function EnterKeys(m: Machine): Run {
    match m.spec.sshKeys
    case None => Ordering(m, [])
    case Some(ref) => Keying(m, KeySecret(m, ref))
  }

  /** What reconcileNormal makes of reconcileServer's result. */
  function Conclude(m: Machine, result: Provision, now: int): Run {
    match result
    case Running(server) => Saving(Report(MarkReady(m, server), ConditionTrue, InstanceIsReady, "Instance is ready", now), DONE)
    case Waiting => Saving(Report(m, ConditionFalse, InstanceNotReady, "Server is being provisioned", now), SECONDS_30)
    case Broken(e) =>
      if IsPermanent(e) then Saving(Report(MarkFailed(m, e), ConditionFalse, InstanceProvisionFailed, e, now), MINUTES_5)
      else Saving(Report(m, ConditionFalse, InstanceProvisionFailed, e, now), Failure(e))
    case Died => Saving(m, Panicked)
  }

  /** The error with which reconcileServer would return on this answer, if it would. */
  function ServerError(run: Run, reply: Reply): Option<string>
    requires !run.Finished? && Fits(Pending(run), reply)
  {
    match run
    case Bootstrapping(_, _) => (
      match BootstrapData(reply.secret)
      case Some(Err(e)) => Some("failed to get bootstrap data: " + e)
      case _ => None)
    case Uploading(_, _) => if reply.Refused? then Some("create user-data: " + reply.error) else None
    case Keying(_, ref) => (
      match KeysIn(ref, reply.secret)
      case Err(e) => Some("failed to get SSH keys: " + e)
      case Ok(_) => None)
    case Creating(_, _) => if reply.Refused? then Some("failed to create server: " + reply.error) else None
    case _ => None
  }
}
