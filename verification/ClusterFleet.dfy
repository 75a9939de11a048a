/**
 * Both controllers as one transition system: the fleet of machines, the clusters with their one running reconcile, and
 * the VLANs of the cloud. The machine side is Fleet, unchanged; the cluster side has an adversary of the same kind.
 * A cluster's spec is fixed once it is applied.
 */
module ClusterFleet {
  import opened Prelude
  import opened Text
  import opened Api
  import opened ClusterFlow
  import Fleet

  /** What a VLAN id stands for; it never changes. */
  datatype Record = Record(description: string, vid: int)

  datatype Event =
    | Made(uid: Uid, id: string)                     // a cluster's reconcile created a VLAN
    | Removed(uid: Uid, id: string)                  // ... asked the cloud to delete one
    | ListFailed(uid: Uid, description: string)      // ... could not list the VLANs before creating one

  /** The running reconcile; `troubled` says that it has failed: with an error, or over an invalid spec. */
  datatype Active = Active(uid: Uid, run: Run, troubled: bool)

  datatype State = State(
    fleet: Fleet.State,
    clusters: map<Uid, Cluster>,        // persisted
    born: map<Uid, Cluster>,            // every cluster that ever existed, as it was applied
    vlans: set<string>,                 // live VLANs
    issued: map<string, Record>,        // every VLAN id that was ever handed out
    owners: map<Uid, OwnerCluster>,     // the CAPI Cluster that owns each of them
    controlPlaneNames: map<InfraRef, string>, // the names that control-plane Machines refer to, and their clusters
    troubles: set<Uid>,                 // clusters that have saved a failed reconcile while Ready
    active: Option<Active>,
    log: seq<Event>)

  datatype Action =
    | Machines(action: Fleet.Action)                 // a step of the machine side
    | Refer(ref: InfraRef, ownerName: string)        // a control-plane Machine with this infrastructure name is created
    | Apply(cluster: Cluster, owner: OwnerCluster)
    | Delete(uid: Uid)
    | Vanish(uid: Uid)
    | Foreign(id: string, record: Record)            // somebody else makes a VLAN
    | Lose(id: string)                               // a VLAN disappears
    | Begin(uid: Uid)
    | Answer(reply: Reply, now: int, side: Option<Vlan>)
    | Crash

  const EMPTY := State(Fleet.EMPTY, map[], map[], {}, map[], map[], map[], {}, None, [])

  const PREFIX := "capl-"

  predicate Blank(c: Cluster) {
    !c.finalizer && !c.deleting && c.status == ClusterStatus(false, Endpoint("", 0), None, None, [])
  }

  function RecordOf(v: Vlan): Record {
    Record(v.description, v.vid)
  }

  predicate FreshVlan(s: State, v: Vlan, description: string) {
    v.id != "" && v.id !in s.issued && v.description == description
  }

  // ---- contracts ----

  /** A successful list returns every live VLAN, and nothing else. */
  ghost predicate ListsAll(s: State, vlans: seq<Vlan>) {
    (forall i :: 0 <= i < |vlans| ==>
      vlans[i].id in s.vlans && vlans[i].id in s.issued && s.issued[vlans[i].id] == RecordOf(vlans[i])) &&
    (forall id :: id in s.vlans ==> exists i :: 0 <= i < |vlans| && vlans[i].id == id)
  }

  function RefOf(m: Machine): InfraRef {
    InfraRef(m.namespace, m.name)
  }

  /** The persisted object behind a reference, whatever it is owned by. */
  ghost predicate IsObject(s: State, ref: InfraRef, m: Machine) {
    m.uid in s.fleet.objects && s.fleet.objects[m.uid] == m && RefOf(m) == ref
  }

  /**
   * A list of the Machines of a cluster has true labels: those of control planes, and no others, refer to the names for
   * them, and these are of that cluster.
   */
  ghost predicate TrueLabels(s: State, owner: OwnerCluster, machines: seq<CapiMachine>) {
    forall i :: 0 <= i < |machines| && machines[i].infra.name != "" ==>
      && (machines[i].controlPlane <==> machines[i].infra in s.controlPlaneNames)
      && (machines[i].controlPlane ==> s.controlPlaneNames[machines[i].infra] == owner.name)
  }

  ghost predicate Truthful(s: State, uid: Uid, run: Run, reply: Reply)
    requires !run.Finished? && Fits(Pending(run), reply)
  {
    match Pending(run)
    case GetCluster =>
      (reply.cluster.Found? ==> uid in s.clusters && reply.cluster.value == s.clusters[uid]) &&
      (reply.cluster.Missing? ==> uid !in s.clusters)
    case GetVlan(id) =>
      reply.vlan.Ok? ==> id in s.vlans && id in s.issued && s.issued[id].vid == reply.vlan.value.vid
    case ListVlans(_) => reply.vlans.Ok? ==> ListsAll(s, reply.vlans.value)
    case PostVlan(request) => reply.vlan.Ok? ==> FreshVlan(s, reply.vlan.value, request.description)
    case GetOwner => reply.owner.Found? ==> uid in s.owners && reply.owner.value == s.owners[uid]
    case ListMachines(owner) => reply.machines.Ok? ==> TrueLabels(s, owner, reply.machines.value)
    case GetInfra(ref) => reply.machine.Found? ==> IsObject(s, ref, reply.machine.value)
    case Save(_) => reply.error.None? ==> uid in s.clusters
    case _ => true
  }

  /** A failed creation may have made the VLAN all the same; the answer got lost. */
  ghost predicate SideEffect(s: State, call: Call, reply: Reply, side: Option<Vlan>) {
    side.Some? ==>
      call.PostVlan? && reply.VlanIs? && reply.vlan.Err? && FreshVlan(s, side.value, call.request.description)
  }

  // ---- steps ----

  ghost predicate Legal(s: State, a: Action) {
    match a
    case Machines(b) =>
      // an object is applied for the Machine that refers to its name
      Fleet.Legal(s.fleet, b) &&
      (b.Apply? ==>
         var ref := RefOf(b.machine);
         (b.controlPlane <==> ref in s.controlPlaneNames) && (b.controlPlane ==> b.cluster == s.controlPlaneNames[ref]))
    case Refer(ref, _) =>
      ref !in s.controlPlaneNames && forall u :: u in s.fleet.objects ==> RefOf(s.fleet.objects[u]) != ref
    case Apply(c, _) =>
      c.uid !in s.born && Blank(c) &&
      forall u :: u in s.clusters ==> s.clusters[u].namespace != c.namespace || s.clusters[u].name != c.name
    case Delete(uid) => uid in s.clusters
    case Vanish(uid) => uid in s.clusters && s.clusters[uid].deleting && !s.clusters[uid].finalizer
    case Foreign(id, record) => id != "" && id !in s.issued && !At(record.description, PREFIX, 0)
    case Lose(id) => id in s.vlans
    case Begin(uid) => s.active.None? && uid in s.born
    case Crash => s.active.Some?
    case Answer(reply, _, side) =>
      s.active.Some? && !s.active.value.run.Finished? &&
      var run := s.active.value.run;
      Fits(Pending(run), reply) && Truthful(s, s.active.value.uid, run, reply) && SideEffect(s, Pending(run), reply, side)
  }

  function Patched(old_: Cluster, c: Cluster): Cluster {
    old_.(finalizer := c.finalizer, status := c.status)
  }

  /** The object behind a call, as the API server holds it. */
  function Stored(run: Run, p: Cluster, reply: Reply): Cluster
    requires !run.Finished? && Fits(Pending(run), reply)
  {
    if run.Saving? && reply.error.None? then Patched(p, run.c) else p
  }

  /** The reconcile fails: it is to end with an error, or it found the spec of a cluster with finalizer invalid. */
  predicate Fails(run: Run, run': Run) {
    run'.Saving? &&
    ((run'.outcome.Returned? && run'.outcome.error.Some?) || (run.Owning? && !run.c.deleting && run.c.finalizer))
  }

  function Track(a: Active, run': Run): Active {
    Active(a.uid, run', a.troubled || Fails(a.run, run'))
  }

  /** A failed reconcile of a Ready cluster is saved. */
  predicate SavesTrouble(a: Active, reply: Reply)
    requires !a.run.Finished? && Fits(Pending(a.run), reply)
  {
    a.run.Saving? && reply.error.None? && a.troubled && a.run.c.status.ready
  }

  /** The VLAN that a call made, if any. */
  function Created(call: Call, reply: Reply, side: Option<Vlan>): Option<Vlan>
    requires Fits(call, reply)
  {
    if !call.PostVlan? then None else if reply.vlan.Ok? then Some(reply.vlan.value) else side
  }

  function EventsOf(uid: Uid, run: Run, reply: Reply, side: Option<Vlan>): seq<Event>
    requires !run.Finished? && Fits(Pending(run), reply)
  {
    var created := Created(Pending(run), reply, side);
    if created.Some? then [Made(uid, created.value.id)]
    else if run.Removing? then [Removed(uid, run.id)]
    else if run.Listing? && reply.vlans.Err? then [ListFailed(uid, run.request.description)]
    else []
  }

  /** The state behind an answer on which the reconcile goes on as run'. A deletion that fails may still be followed by Lose. */
  function Advance(s: State, reply: Reply, side: Option<Vlan>, run': Run): State
    requires s.active.Some? && !s.active.value.run.Finished? && Fits(Pending(s.active.value.run), reply)
  {
    var uid, run := s.active.value.uid, s.active.value.run;
    var created := Created(Pending(run), reply, side);
    State(s.fleet,
          if uid in s.clusters then s.clusters[uid := Stored(run, s.clusters[uid], reply)] else s.clusters,
          s.born,
          if created.Some? then s.vlans + {created.value.id}
          else if run.Removing? && reply.error.None? then s.vlans - {run.id} else s.vlans,
          if created.Some? then s.issued[created.value.id := RecordOf(created.value)] else s.issued,
          s.owners, s.controlPlaneNames,
          if SavesTrouble(s.active.value, reply) then s.troubles + {uid} else s.troubles,
          if run'.Finished? then None else Some(Track(s.active.value, run')),
          s.log + EventsOf(uid, run, reply, side))
  }

  function Step(s: State, a: Action): State
    requires Legal(s, a)
  {
    match a
    case Machines(b) => s.(fleet := Fleet.Step(s.fleet, b))
    case Refer(ref, ownerName) => s.(controlPlaneNames := s.controlPlaneNames[ref := ownerName])
    case Apply(c, owner) =>
      s.(clusters := s.clusters[c.uid := c], born := s.born[c.uid := c], owners := s.owners[c.uid := owner])
    case Delete(uid) => s.(clusters := s.clusters[uid := s.clusters[uid].(deleting := true)])
    case Vanish(uid) => s.(clusters := s.clusters - {uid})
    case Foreign(id, record) => s.(vlans := s.vlans + {id}, issued := s.issued[id := record])
    case Lose(id) => s.(vlans := s.vlans - {id})
    case Begin(uid) => s.(active := Some(Active(uid, Reading, false)))
    case Crash => s.(active := None)
    case Answer(reply, now, side) => Advance(s, reply, side, Resume(s.active.value.run, reply, now))
  }

  ghost function ExecuteFrom(s: State, actions: seq<Action>): Option<State> {
    if actions == [] then Some(s)
    else
      var n := |actions| - 1;
      var before := ExecuteFrom(s, actions[..n]);
      if before.Some? && Legal(before.value, actions[n]) then Some(Step(before.value, actions[n])) else None
  }

  /** A run of both controllers, from nothing. */
  ghost function Execute(actions: seq<Action>): Option<State> {
    ExecuteFrom(EMPTY, actions)
  }
}
