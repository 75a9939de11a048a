/**
 * The cluster reconciler as a protocol, in the form of MachineFlow: where a reconcile stands, the call it waits for,
 * and where it goes on with the answer. CreateVLAN of the cloud client is two calls, as it is over the wire: the list
 * of VLANs and, if none has the description, the creation.
 */
module ClusterFlow {
  import opened Prelude
  import opened Text
  import opened Conditions
  import opened Api
  import EndpointChoice

  datatype OwnerCluster = OwnerCluster(namespace: string, name: string)

  /** A VLAN of the cloud. The client keeps its description in a field called Subnet. */
  datatype Vlan = Vlan(id: string, description: string, vid: int)

  /** A CreateVLANRequest. Its VID is never sent, so it is not kept here. */
  datatype VlanRequest = VlanRequest(project: string, site: string, description: string)

  datatype InfraRef = InfraRef(namespace: string, name: string)

  datatype CapiMachine = CapiMachine(controlPlane: bool, infra: InfraRef)

  datatype Call =
    | GetCluster
    | GetOwner
    | GetRegions
    | GetVlan(id: string)
    | ListVlans(project: string)
    | PostVlan(request: VlanRequest)
    | ListMachines(owner: OwnerCluster)
    | GetInfra(ref: InfraRef)
    | DeleteVlan(id: string)
    | Save(cluster: Cluster)

  datatype Reply =
    | ClusterIs(cluster: Read<Cluster>)
    | OwnerIs(owner: Read<OwnerCluster>)
    | RegionsAre(regions: Result<seq<string>>)
    | VlanIs(vlan: Result<Vlan>)
    | VlansAre(vlans: Result<seq<Vlan>>)
    | MachinesAre(machines: Result<seq<CapiMachine>>)
    | InfraIs(machine: Read<Machine>)
    | Done(error: Option<string>)

  predicate Fits(call: Call, reply: Reply) {
    match call
    case GetCluster => reply.ClusterIs?
    case GetOwner => reply.OwnerIs?
    case GetRegions => reply.RegionsAre?
    case GetVlan(_) => reply.VlanIs?
    case ListVlans(_) => reply.VlansAre?
    case PostVlan(_) => reply.VlanIs?
    case ListMachines(_) => reply.MachinesAre?
    case GetInfra(_) => reply.InfraIs?
    case DeleteVlan(_) | Save(_) => reply.Done?
  }

  // ---- the decisions of the reconciler ----

  /** What validateClusterSpec finds missing. */
  function SpecErrors(c: Cluster): seq<string> {
    (if c.spec.location == "" then ["location is required"] else [])
    + (if c.spec.project.None? || c.spec.project.value == "" then ["projectRef.projectID is required"] else [])
  }

  /** setCondition for ClusterReady; the observed generation is not set. */
  function Report(c: Cluster, status: Truth, reason: Reason, message: string, now: int): Cluster {
    c.(status := c.status.(conditions := Put(c.status.conditions, Condition(ClusterReady, status, reason, message, 0, now),
                                             RewriteOnChange)))
  }

  /** The description under which a cluster's VLAN is made and found again. */
  function Description(c: Cluster): string
    requires c.spec.vlan.Some?
  {
    "capl-" + c.name + "-" + c.spec.vlan.value.subnet
  }

  /** The cluster was told to use a VLAN that exists already. */
  predicate UsesExisting(c: Cluster) {
    c.spec.vlan.Some? && c.spec.vlan.value.existing.Some?
  }

  /** The cluster makes a VLAN of its own. */
  predicate OwnsVlan(c: Cluster) {
    c.spec.vlan.Some? && c.spec.vlan.value.existing.None?
  }

  function ToLower(s: string): string {
    seq(|s|, i requires 0 <= i < |s| => Lower(s[i]))
  }

  function RequestFor(c: Cluster): VlanRequest
    requires OwnsVlan(c) && c.spec.project.Some?
  {
    VlanRequest(c.spec.project.value, c.spec.location, Description(c))
  }

  /** The first VLAN with a description. */
  function FindVlan(vlans: seq<Vlan>, description: string): Option<Vlan> {
    if vlans == [] then None
    else if vlans[0].description == description then Some(vlans[0])
    else FindVlan(vlans[1..], description)
  }

  function FindControlPlane(machines: seq<CapiMachine>): Option<CapiMachine> {
    if machines == [] then None
    else if machines[0].controlPlane then Some(machines[0])
    else FindControlPlane(machines[1..])
  }

  function WithVlan(c: Cluster, v: Vlan): Cluster {
    c.(status := c.status.(vlanID := Some(v.id), vlanVID := Some(v.vid)))
  }

  // ---- the conversation ----

  datatype Run =
    | Reading
    | Owning(c: Cluster)
    | Locating(c: Cluster, owner: OwnerCluster)                        // GetAvailableRegions
    | Fetching(c: Cluster, owner: OwnerCluster, id: string)            // the VID of an existing VLAN
    | Verifying(c: Cluster, owner: OwnerCluster, id: string)           // the VLAN on record
    | Listing(c: Cluster, owner: OwnerCluster, request: VlanRequest)   // CreateVLAN: the list
    | Creating(c: Cluster, owner: OwnerCluster, request: VlanRequest)  // CreateVLAN: the creation
    | Discovering(c: Cluster, owner: OwnerCluster)                     // the CAPI machines
    | Inspecting(c: Cluster, ref: InfraRef)                            // the control plane's LatitudeMachine
    | Removing(c: Cluster, id: string)
    | Saving(c: Cluster, outcome: Outcome)                             // the deferred patch
    | Finished(outcome: Outcome)

  function Pending(run: Run): Call
    requires !run.Finished?
  {
    match run
    case Reading => GetCluster
    case Owning(_) => GetOwner
    case Locating(_, _) => GetRegions
    case Fetching(_, _, id) => GetVlan(id)
    case Verifying(_, _, id) => GetVlan(id)
    case Listing(_, _, request) => ListVlans(request.project)
    case Creating(_, _, request) => PostVlan(request.(site := ToLower(request.site)))
    case Discovering(_, owner) => ListMachines(owner)
    case Inspecting(_, ref) => GetInfra(ref)
    case Removing(_, id) => DeleteVlan(id)
    case Saving(c, _) => Save(c)
  }

  function Resume(run: Run, reply: Reply, now: int): Run
    requires !run.Finished? && Fits(Pending(run), reply)
  {
    match run
    case Reading => (
      match reply.cluster
      case Failed(e) => Finished(Failure(e))
      case Missing => Finished(DONE)
      case Found(c) => Owning(c))
    case Owning(c) => (
      match reply.owner
      case Failed(e) => Finished(Failure(e))
      case Missing => Finished(Returned(10, None))
      case Found(o) => Enter(c, o, now))
    case Locating(c, o) => (
      match reply.regions
      case Err(e) => Abort(c, "failed to get available regions: " + e, now)
      case Ok(regions) =>
        if c.spec.location in regions then EnterVlan(c, o, now)
        else Abort(c, NotAvailable(c.spec.location, regions), now))
    case Fetching(c, o, _) => (
      match reply.vlan
      case Err(e) => Abort(c, VlanError("failed to get existing VLAN: " + e), now)
      case Ok(v) => EnterReady(c.(status := c.status.(vlanVID := Some(v.vid))), o, now))
    case Verifying(c, o, _) => (
      match reply.vlan
      case Err(_) => EnterCreate(c, o, now)
      case Ok(v) => EnterReady(if c.status.vlanVID.None? then c.(status := c.status.(vlanVID := Some(v.vid))) else c, o, now))
    case Listing(c, o, request) => (
      match reply.vlans
      case Err(_) => Creating(c, o, request)
      case Ok(vlans) =>
        match FindVlan(vlans, request.description)
        case Some(v) => EnterReady(WithVlan(c, v), o, now)
        case None => Creating(c, o, request))
    case Creating(c, o, request) => (
      match reply.vlan
      case Err(e) => Abort(c, CreateError(e), now)
      case Ok(v) => EnterReady(WithVlan(c, v), o, now))
    case Discovering(c, _) => (
      match reply.machines
      case Err(_) => Saving(c, SECONDS_15)
      case Ok(machines) =>
        match FindControlPlane(machines)
        case None => Saving(c, SECONDS_15)
        case Some(machine) => if machine.infra.name == "" then Saving(c, SECONDS_15) else Inspecting(c, machine.infra))
    case Inspecting(c, _) =>
      if reply.machine.Found? && reply.machine.value.status.ready then EnterEndpoint(c, reply.machine.value, now)
      else Saving(c, SECONDS_15)
    case Removing(c, _) => Saving(c.(finalizer := false), DONE)
    case Saving(_, outcome) =>
      if reply.error.Some? && outcome.Returned? && outcome.error.None? then Finished(outcome.(error := reply.error))
      else Finished(outcome)
  }

  /** What reconcileNormal makes of an error of reconcileInfrastructure. */
  function Abort(c: Cluster, error: string, now: int): Run {
    Saving(Report(c, ConditionFalse, ClusterProvisionFailed, error, now), Returned(30, Some(error)))
  }

  function VlanError(error: string): string {
    "failed to reconcile VLAN: " + error
  }

  function CreateError(error: string): string {
    VlanError("failed to create VLAN: " + error)
  }

  function NotAvailable(location: string, regions: seq<string>): string {
    "location " + location + " is not available, available regions: [" + Join(regions, " ") + "]"
  }

  /** Reconcile, reconcileNormal and reconcileDelete up to their first call. There is no check for a pause. */
  function Enter(c: Cluster, o: OwnerCluster, now: int): Run {
    if c.deleting then EnterDelete(c)
    else if !c.finalizer then Saving(c.(finalizer := true), DONE)
    else if SpecErrors(c) != [] then
      Saving(Report(c, ConditionFalse, InvalidClusterConfig, "validation failed: " + Join(SpecErrors(c), ", "), now), DONE)
    else Locating(c, o)
  }

  function EnterDelete(c: Cluster): Run {
    if c.status.vlanID.None? || UsesExisting(c) then Saving(c.(finalizer := false), DONE)
    else Removing(c, c.status.vlanID.value)
  }

  function EnterVlan(c: Cluster, o: OwnerCluster, now: int): Run {
    if c.spec.vlan.None? then EnterReady(c, o, now)
    else if c.spec.vlan.value.existing.Some? then
      var d := c.(status := c.status.(vlanID := c.spec.vlan.value.existing));
      if c.status.vlanVID.None? then Fetching(d, o, c.spec.vlan.value.existing.value) else EnterReady(d, o, now)
    else if c.status.vlanID.Some? then Verifying(c, o, c.status.vlanID.value)
    else EnterCreate(c, o, now)
  }

  /** The VLAN is requested; the guards of reconcileVLAN and of the client are those that the validation has passed. */
  function EnterCreate(c: Cluster, o: OwnerCluster, now: int): Run {
    if !OwnsVlan(c) || c.spec.project.None? then
      Abort(c, VlanError("projectRef is required for VLAN creation"), now)
    else if c.spec.project.value == "" then
      Abort(c, CreateError("projectID is required"), now)
    else if c.spec.location == "" then
      Abort(c, CreateError("site is required"), now)
    else Listing(c, o, RequestFor(c))
  }

  /** The infrastructure is there: mark the cluster as ready first, and look for an endpoint on later reconciles. */
  function EnterReady(c: Cluster, o: OwnerCluster, now: int): Run {
    if !c.status.ready then
      Saving(Report(c.(status := c.status.(ready := true)), ConditionTrue, ClusterIsReady,
                    "Cluster infrastructure is ready", now), DONE)
    else if c.status.endpoint.host != "" then Saving(c, DONE)
    else Discovering(c, o)
  }

  function EnterEndpoint(c: Cluster, machine: Machine, now: int): Run {
    var ip := EndpointChoice.Select(machine.status.addresses);
    if ip == "" then Saving(c, SECONDS_15)
    else Saving(Report(c.(status := c.status.(endpoint := Endpoint(ip, 6443))), ConditionFalse, ControlPlaneEndpointSet,
                       "Control plane endpoint set to " + ip + ":6443", now), DONE)
  }
}
