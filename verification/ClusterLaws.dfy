/**
 * The cluster reconciler as its history shows it, in the form of MachineLaws: what a reconcile does next, put together
 * from the answers that it has had so far.
 */
module ClusterLaws {
  import opened Prelude
  import opened Text
  import opened Conditions
  import opened Api
  import opened ClusterFlow
  import EndpointChoice

  /** A call and its answer. */
  datatype Exchanged = Exchanged(call: Call, reply: Reply)
  type Turn = t: Exchanged | Fits(t.call, t.reply) witness Exchanged(GetCluster, ClusterIs(Missing))

  /** What a reconcile does next: one more call; the deferred patch, with what is to be reported and returned; or it ends. */
  datatype Next = Ask(call: Call) | Patch(cluster: Cluster, claim: Option<Claim>, outcome: Outcome) | Close(outcome: Outcome)

  /** A report on the cluster. */
  datatype Claim = Claim(status: Truth, reason: Reason, message: string)

  function Last(w: seq<Turn>): Turn
    requires w != []
  {
    w[|w| - 1]
  }

  function Front(w: seq<Turn>): seq<Turn>
    requires w != []
  {
    w[..|w| - 1]
  }

  /** The object was read. */
  predicate Opened(w: seq<Turn>) {
    w != [] && w[0].call.GetCluster? && w[0].reply.cluster.Found?
  }

  /** The cluster as it was read, with the VLAN that later answers brought. */
  function Object(w: seq<Turn>): Cluster
    requires Opened(w)
    decreases |w|
  {
    if |w| == 1 then w[0].reply.cluster.value else Effect(Object(Front(w)), Last(w))
  }

  function Effect(c: Cluster, t: Turn): Cluster {
    match t.call
    case GetRegions => if Located(c, t.reply.regions) && Borrows(c) then Using(c, c.spec.vlan.value.existing) else c
    case GetVlan(_) => if t.reply.vlan.Ok? && c.status.vlanVID.None? then Numbered(c, t.reply.vlan.value.vid) else c
    case ListVlans(_) =>
      if t.reply.vlans.Ok? && Asks(c) && FirstVlan(t.reply.vlans.value, Tag(c)).Some? then
        Holding(c, FirstVlan(t.reply.vlans.value, Tag(c)).value)
      else c
    case PostVlan(_) => if t.reply.vlan.Ok? then Holding(c, t.reply.vlan.value) else c
    case _ => c
  }

  function Using(c: Cluster, id: Option<string>): Cluster {
    c.(status := c.status.(vlanID := id))
  }

  function Numbered(c: Cluster, vid: int): Cluster {
    c.(status := c.status.(vlanVID := Some(vid)))
  }

  function Holding(c: Cluster, v: Vlan): Cluster {
    c.(status := c.status.(vlanID := Some(v.id), vlanVID := Some(v.vid)))
  }

  /** The cluster uses a VLAN that exists already, or asks for one of its own. */
  predicate Borrows(c: Cluster) {
    c.spec.vlan.Some? && c.spec.vlan.value.existing.Some?
  }

  predicate Asks(c: Cluster) {
    c.spec.vlan.Some? && c.spec.vlan.value.existing.None? && c.spec.project.Some?
  }

  predicate Located(c: Cluster, regions: Result<seq<string>>) {
    regions.Ok? && c.spec.location in regions.value
  }

  /** The description of a cluster's own VLAN. */
  function Tag(c: Cluster): string
    requires c.spec.vlan.Some?
  {
    "capl-" + c.name + "-" + c.spec.vlan.value.subnet
  }

  /** The first VLAN with a description: the last one counts only if none before it has it. */
  function FirstVlan(vlans: seq<Vlan>, description: string): Option<Vlan> {
    if vlans == [] then None
    else
      var n := |vlans| - 1;
      var earlier := FirstVlan(vlans[..n], description);
      if earlier.Some? || vlans[n].description != description then earlier else Some(vlans[n])
  }

  /** The first Machine of a list with the control-plane label. */
  function FirstControlPlane(machines: seq<CapiMachine>): Option<CapiMachine> {
    if machines == [] then None
    else
      var n := |machines| - 1;
      var earlier := FirstControlPlane(machines[..n]);
      if earlier.Some? || !machines[n].controlPlane then earlier else Some(machines[n])
  }

  /** The owner, which is read second. */
  function OwnerOf(w: seq<Turn>): Option<OwnerCluster> {
    if |w| > 1 && w[1].call.GetOwner? && w[1].reply.owner.Found? then Some(w[1].reply.owner.value) else None
  }

  // ---- ways to end ----

  function Leave(c: Cluster): Next {
    Patch(c, None, Returned(0, None))
  }

  /** No endpoint yet; look again in a quarter of a minute. */
  function Wait(c: Cluster): Next {
    Patch(c, None, Returned(15, None))
  }

  function Fail(c: Cluster, error: string): Next {
    Patch(c, Some(Claim(ConditionFalse, ClusterProvisionFailed, error)), Returned(30, Some(error)))
  }

  // ---- step by step ----

  /** What a spec lacks. */
  function Lacks(c: Cluster): seq<string> {
    (if c.spec.location == "" then ["location is required"] else [])
    + (if c.spec.project == None || c.spec.project == Some("") then ["projectRef.projectID is required"] else [])
  }

  function AfterOwner(c: Cluster, owner: Read<OwnerCluster>): Next {
    match owner
    case Failed(e) => Close(Returned(0, Some(e)))
    case Missing => Close(Returned(10, None))
    case Found(_) =>
      if c.deleting then
        if c.status.vlanID.None? || Borrows(c) then Leave(c.(finalizer := false)) else Ask(DeleteVlan(c.status.vlanID.value))
      else if !c.finalizer then Leave(c.(finalizer := true))
      else if Lacks(c) != [] then
        Patch(c, Some(Claim(ConditionFalse, InvalidClusterConfig, "validation failed: " + Join(Lacks(c), ", "))),
              Returned(0, None))
      else Ask(GetRegions)
  }

  /** c has its existing VLAN by now, if it uses one. */
  function AfterRegions(c: Cluster, owner: Option<OwnerCluster>, regions: Result<seq<string>>): Next {
    match regions
    case Err(e) => Fail(c, "failed to get available regions: " + e)
    case Ok(all) =>
      if c.spec.location !in all then
        Fail(c, "location " + c.spec.location + " is not available, available regions: [" + Join(all, " ") + "]")
      else if c.spec.vlan.None? || (Borrows(c) && c.status.vlanVID.Some?) then Provisioned(c, owner)
      else if Borrows(c) then Ask(GetVlan(c.spec.vlan.value.existing.value))
      else if c.status.vlanID.Some? then Ask(GetVlan(c.status.vlanID.value))
      else Search(c)
  }

  /** The VLAN is looked for in the project before it is created. */
  function Search(c: Cluster): Next {
    if c.spec.project.None? then Fail(c, "failed to reconcile VLAN: " + "projectRef is required for VLAN creation")
    else Ask(ListVlans(c.spec.project.value))
  }

  /** A VLAN that can no longer be read is replaced, unless it was not the cluster's own. */
  function AfterVlan(c: Cluster, owner: Option<OwnerCluster>, vlan: Result<Vlan>): Next {
    match vlan
    case Ok(_) => Provisioned(c, owner)
    case Err(e) =>
      if Borrows(c) then Fail(c, "failed to reconcile VLAN: " + ("failed to get existing VLAN: " + e)) else Search(c)
  }

  /** The request for a VLAN: the cluster's project, its location in small letters, and its description. */
  function Request(c: Cluster): VlanRequest
    requires Asks(c)
  {
    VlanRequest(c.spec.project.value, Small(c.spec.location), Tag(c))
  }

  function Small(s: string): string {
    seq(|s|, i requires 0 <= i < |s| => if 'A' <= s[i] <= 'Z' then (s[i] as int + 32) as char else s[i])
  }

  /** A list that failed counts as one that shows nothing. */
  function AfterList(c: Cluster, owner: Option<OwnerCluster>, vlans: Result<seq<Vlan>>): Next {
    if !Asks(c) then Leave(c)
    else if vlans.Ok? && FirstVlan(vlans.value, Tag(c)).Some? then Provisioned(c, owner)
    else Ask(PostVlan(Request(c)))
  }

  function AfterCreation(c: Cluster, owner: Option<OwnerCluster>, vlan: Result<Vlan>): Next {
    match vlan
    case Ok(_) => Provisioned(c, owner)
    case Err(e) => Fail(c, "failed to reconcile VLAN: " + ("failed to create VLAN: " + e))
  }

  /** The infrastructure is there: Ready comes first, and an endpoint on a later reconcile. */
  function Provisioned(c: Cluster, owner: Option<OwnerCluster>): Next {
    if !c.status.ready then
      Patch(c.(status := c.status.(ready := true)),
            Some(Claim(ConditionTrue, ClusterIsReady, "Cluster infrastructure is ready")), Returned(0, None))
    else if c.status.endpoint.host != "" || owner.None? then Leave(c)
    else Ask(ListMachines(owner.value))
  }

  function AfterMachines(c: Cluster, machines: Result<seq<CapiMachine>>): Next {
    if machines.Err? || FirstControlPlane(machines.value).None? || FirstControlPlane(machines.value).value.infra.name == ""
    then Wait(c)
    else Ask(GetInfra(FirstControlPlane(machines.value).value.infra))
  }

  function AfterInfra(c: Cluster, machine: Read<Machine>): Next {
    if machine.Found? && machine.value.status.ready && EndpointChoice.Select(machine.value.status.addresses) != "" then
      var ip := EndpointChoice.Select(machine.value.status.addresses);
      Patch(c.(status := c.status.(endpoint := Endpoint(ip, 6443))),
            Some(Claim(ConditionFalse, ControlPlaneEndpointSet, "Control plane endpoint set to " + ip + ":6443")),
            Returned(0, None))
    else Wait(c)
  }

  function Onward(w: seq<Turn>): Next
    requires Opened(w)
  {
    var c, t := Object(w), Last(w);
    match t.call
    case GetCluster => Ask(GetOwner)
    case GetOwner => AfterOwner(c, t.reply.owner)
    case GetRegions => AfterRegions(c, OwnerOf(w), t.reply.regions)
    case GetVlan(_) => AfterVlan(c, OwnerOf(w), t.reply.vlan)
    case ListVlans(_) => AfterList(c, OwnerOf(w), t.reply.vlans)
    case PostVlan(_) => AfterCreation(c, OwnerOf(w), t.reply.vlan)
    case ListMachines(_) => AfterMachines(c, t.reply.machines)
    case GetInfra(_) => AfterInfra(c, t.reply.machine)
    case DeleteVlan(_) => Leave(c.(finalizer := false))
    case Save(_) => Leave(c)
  }

  /** The error of the deferred patch is returned unless there is another one. */
  function Settle(outcome: Outcome, reply: Reply): Outcome
    requires reply.Done?
  {
    match outcome
    case Returned(after, None) => Returned(after, reply.error)
    case _ => outcome
  }

  /** What a reconcile does behind these answers. */
  function Expected(w: seq<Turn>): Next
    requires w != [] ==> w[0].call.GetCluster?
  {
    if w == [] then Ask(GetCluster)
    else if !Opened(w) then Close(Returned(0, if w[0].reply.cluster.Failed? then Some(w[0].reply.cluster.error) else None))
    else if |w| > 1 && Last(w).call.Save? then
      match Onward(Front(w))
      case Patch(_, _, outcome) => Close(Settle(outcome, Last(w).reply))
      case _ => Close(Panicked)
    else Onward(w)
  }
}
